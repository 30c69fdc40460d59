/** Optional values, for the places where the Python code uses `None`. */
module Maybe {

  /** `None` stands for Python's `None` or for an absent key. */
  datatype Option<+T> = None | Some(value: T) {

    /** `d.get(key, default)` on an optional entry: the held value, or
        `default` when there is none. */
    function GetOr(default: T): T {
      if Some? then value else default
    }
  }
}
