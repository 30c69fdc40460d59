/** The two string tests the lesson app relies on: Python's substring test
    `needle in s` and `str.lower()` restricted to ASCII letters. */
module Text {

  /** `needle in s`: the needle occurs contiguously somewhere in `s`.
      As in Python, the empty needle occurs in every string. */
  predicate Contains(s: string, needle: string)
    decreases |s|
  {
    needle <= s || (|s| > 0 && Contains(s[1..], needle))
  }

  /** `needle` sits in `s` starting at offset `i`. */
  ghost predicate OccursAt(s: string, needle: string, i: int) {
    0 <= i && i + |needle| <= |s| && s[i..i + |needle|] == needle
  }

  /** An occurrence found by Contains. */
  lemma {:induction false} OccurrenceOf(s: string, needle: string) returns (i: int)
    requires Contains(s, needle)
    ensures OccursAt(s, needle, i)
    decreases |s|
  {
    if needle <= s {
      i := 0;
    } else {
      var j := OccurrenceOf(s[1..], needle);
      assert s[1..][j..j + |needle|] == s[j + 1..j + 1 + |needle|];
      i := j + 1;
    }
  }

  /** Contains finds every occurrence. */
  lemma {:induction false} ContainsOccurrence(s: string, needle: string, i: int)
    requires OccursAt(s, needle, i)
    ensures Contains(s, needle)
    decreases i
  {
    if i > 0 {
      assert s[1..][i - 1..i - 1 + |needle|] == s[i..i + |needle|];
      ContainsOccurrence(s[1..], needle, i - 1);
    } else {
      assert s[..|needle|] == needle;
    }
  }

  /** Contains is exactly "there is an offset at which the needle occurs". */
  lemma {:induction false} ContainsIffOccurs(s: string, needle: string)
    ensures Contains(s, needle) <==> exists i :: OccursAt(s, needle, i)
  {
    if Contains(s, needle) {
      var i := OccurrenceOf(s, needle);
    }
    if i :| OccursAt(s, needle, i) {
      ContainsOccurrence(s, needle, i);
    }
  }

  /** Occurrence is transitive: a string containing `middle` contains
      everything `middle` contains. */
  lemma {:induction false} ContainsTransitive(s: string, middle: string, needle: string)
    requires Contains(s, middle) && Contains(middle, needle)
    ensures Contains(s, needle)
  {
    var i := OccurrenceOf(s, middle);
    var j := OccurrenceOf(middle, needle);
    assert middle == s[i..i + |middle|];
    forall k | 0 <= k < |needle|
      ensures s[i + j..i + j + |needle|][k] == needle[k]
    {
      assert needle[k] == middle[j + k] == s[i + j + k];
    }
    assert s[i + j..i + j + |needle|] == needle;
    ContainsOccurrence(s, needle, i + j);
    assert OccursAt(s, needle, i + j);
  }

  /** A needle at least as long as the string occurs in it only when the two
      are equal. */
  lemma {:induction false} ContainsNoLonger(s: string, needle: string)
    requires |s| <= |needle|
    ensures Contains(s, needle) <==> s == needle
    decreases |s|
  {
    if |s| > 0 {
      ContainsNoLonger(s[1..], needle);
    }
  }

  /** Every string contains itself, so `s == t` implies `t in s`. */
  lemma {:induction false} ContainsSelf(s: string)
    ensures Contains(s, s)
  {
  }

  /** `c.lower()` for a single character, restricted to ASCII letters. */
  function LowerChar(c: char): char {
    if 'A' <= c <= 'Z' then (c as int + 32) as char else c
  }

  /** `s.lower()`, ASCII letters only: each capital A-Z becomes its small
      letter and every other character is kept, so no capital is left. */
  function Lower(s: string): (r: string)
    ensures |r| == |s|
    ensures forall i :: 0 <= i < |s| && 'A' <= s[i] <= 'Z' ==> r[i] as int == s[i] as int + 32
    ensures forall i :: 0 <= i < |s| && !('A' <= s[i] <= 'Z') ==> r[i] == s[i]
    ensures forall i :: 0 <= i < |r| ==> !('A' <= r[i] <= 'Z')
  {
    seq(|s|, i requires 0 <= i < |s| => LowerChar(s[i]))
  }

  /** Lowering twice is lowering once, as for `str.lower()`. */
  lemma {:induction false} LowerIdempotent(s: string)
    ensures Lower(Lower(s)) == Lower(s)
  {
  }

  /** A text with no capital letter is its own lowering, so a needle written
      in small letters is unchanged by `lower()`. */
  lemma {:induction false} LowerKeepsSmall(s: string)
    requires forall i :: 0 <= i < |s| ==> !('A' <= s[i] <= 'Z')
    ensures Lower(s) == s
  {
  }
}
