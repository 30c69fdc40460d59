/** The route guard of the admin dashboard (`middleware` in
    sozo-admin/middleware.ts): from the signed-in user, that user's role row
    and the request path it decides between letting the request through and
    redirecting it. The backend calls are inputs: `user` is what `getUser`
    returned and `roleOf` is the `user_organization_roles` lookup by user id
    (None when no single row comes back). */
module AdminGuard {
  import opened Maybe

  /** `UserRole` of sozo-admin/types/database.ts. */
  datatype UserRole = SuperAdmin | Admin | Viewer | Learner

  datatype User = User(id: string)

  datatype Decision = Pass | Redirect(location: string)

  const LoginPage := "/login"
  const HomePage := "/"
  const UnauthorizedPage := "/unauthorized"

  /** `pathname.startsWith(page)`. */
  predicate StartsWith(path: string, page: string) {
    page <= path
  }

  /** No path is both under the login page and under the unauthorized page. */
  lemma {:induction false} PagesDisjoint(path: string)
    ensures !(StartsWith(path, LoginPage) && StartsWith(path, UnauthorizedPage))
  {
    if StartsWith(path, LoginPage) {
      assert path[1] == 'l';
    }
  }

  /** The role row exists and names the super-admin role. */
  predicate IsSuperAdmin(row: Option<UserRole>) {
    row == Some(SuperAdmin)
  }

  /** The guard's decision, checks in source order: anonymous off the login
      page, signed in on the login page, then the role check. */
  function Decide(user: Option<User>, roleOf: string -> Option<UserRole>, path: string): (d: Decision)
    ensures d.Redirect? ==> d.location in {LoginPage, HomePage, UnauthorizedPage}
    ensures user.None? && !StartsWith(path, LoginPage) ==> d == Redirect(LoginPage)
    ensures user.Some? && StartsWith(path, LoginPage) ==> d == Redirect(HomePage)
    ensures (user.Some? && !StartsWith(path, LoginPage) && !IsSuperAdmin(roleOf(user.value.id))
             && !StartsWith(path, UnauthorizedPage)) ==> d == Redirect(UnauthorizedPage)
    ensures d.Pass? <==>
      || (user.None? && StartsWith(path, LoginPage))
      || (user.Some? && !StartsWith(path, LoginPage) && IsSuperAdmin(roleOf(user.value.id)))
      || (user.Some? && !IsSuperAdmin(roleOf(user.value.id)) && StartsWith(path, UnauthorizedPage))
  {
    PagesDisjoint(path);
    if user.None? && !StartsWith(path, LoginPage) then Redirect(LoginPage)
    else if user.Some? && StartsWith(path, LoginPage) then Redirect(HomePage)
    else if user.Some? && !IsSuperAdmin(roleOf(user.value.id)) && !StartsWith(path, UnauthorizedPage)
    then Redirect(UnauthorizedPage)
    else Pass
  }

  /** The browser following redirects, at most `hops` of them: the decision
      on the page where it stops. */
  function Follow(user: Option<User>, roleOf: string -> Option<UserRole>, path: string, hops: nat): Decision
    decreases hops
  {
    match Decide(user, roleOf, path)
    case Pass => Pass
    case Redirect(location) =>
      if hops == 0 then Redirect(location) else Follow(user, roleOf, location, hops - 1)
  }

  /** No redirect loop: whatever the user, role and path, at most two
      redirects reach a page the guard lets through. */
  lemma {:induction false} NoRedirectLoop(user: Option<User>, roleOf: string -> Option<UserRole>, path: string)
    ensures Follow(user, roleOf, path, 2) == Pass
  {
    assert !StartsWith(HomePage, LoginPage) && !StartsWith(HomePage, UnauthorizedPage);
    PagesDisjoint(UnauthorizedPage);
    match Decide(user, roleOf, path)
    case Pass =>
    case Redirect(first) =>
      match Decide(user, roleOf, first)
      case Pass =>
      case Redirect(second) =>
        assert first == HomePage && second == UnauthorizedPage;
        assert Decide(user, roleOf, second) == Pass;
    }

  /** Two redirects can be needed: a signed-in user without the super-admin
      role who opens the login page is sent to "/" and from there to
      "/unauthorized". */
  lemma {:induction false} TwoRedirectsCanBeNeeded(user: User, roleOf: string -> Option<UserRole>)
    requires !IsSuperAdmin(roleOf(user.id))
    ensures Decide(Some(user), roleOf, LoginPage) == Redirect(HomePage)
    ensures Decide(Some(user), roleOf, HomePage) == Redirect(UnauthorizedPage)
    ensures Follow(Some(user), roleOf, LoginPage, 1) == Redirect(UnauthorizedPage)
  {
    assert !StartsWith(HomePage, LoginPage) && !StartsWith(HomePage, UnauthorizedPage);
  }

  /** The role lookup never influences a request without a signed-in user. */
  lemma {:induction false} RoleIgnoredWhenAnonymous(roleOf1: string -> Option<UserRole>, roleOf2: string -> Option<UserRole>, path: string)
    ensures Decide(None, roleOf1, path) == Decide(None, roleOf2, path)
  {
  }

  /** Page tests are prefix tests: "/loginx" counts as the login page and
      "/unauthorized/x" as the unauthorized page. */
  lemma {:induction false} PageChecksArePrefixTests(user: User, roleOf: string -> Option<UserRole>)
    ensures Decide(None, roleOf, "/loginx") == Pass
    ensures Decide(Some(user), roleOf, "/loginx") == Redirect(HomePage)
    ensures Decide(Some(user), roleOf, "/unauthorized/x") == Pass
  {
    assert StartsWith("/loginx", LoginPage);
    assert StartsWith("/unauthorized/x", UnauthorizedPage);
    PagesDisjoint("/unauthorized/x");
  }
}
