/** The route table (`frontend/src/App.tsx`): which page a path shows, which
    guard wraps it, and the `/auth` redirect for a signed-in user. Paths are
    taken as their non-empty `/`-separated segments. */
module AppRoutes {
  import opened Util
  import PR = ProtectedRoute

  datatype Page =
    | Blank
    | AuthPage
    | AdminLoginPage
    | Dashboard
    | CompanyDetail(companyName: string)
    | Profile
    | ExperienceNew
    | ExperienceEdit(id: string)
    | AdminPanel

  /** How a route element is wrapped. */
  datatype Wrap = Public | AuthRedirect | UserOnly | AdminOnly

  datatype Route = Route(page: Page, wrap: Wrap)

  datatype Screen = Show(page: Page) | Navigate(to: string) | NoMatch

  /** The non-empty segments of a path. */
  function Segments(path: string): (segs: seq<string>)
    ensures forall i :: 0 <= i < |segs| ==> segs[i] != ""
  {
    var parts := Split(path, '/');
    FilterSeq(parts, (p: string) => p != "")
  }

  /** The segments with their letters lower-cased. */
  function Folded(segs: seq<string>): (r: seq<string>)
    ensures |r| == |segs| && forall i :: 0 <= i < |segs| ==> r[i] == Lower(segs[i])
  {
    seq(|segs|, i requires 0 <= i < |segs| => Lower(segs[i]))
  }

  /** Segments without capital letters fold to themselves. */
  lemma FoldedFixed(segs: seq<string>)
    requires forall i, j :: 0 <= i < |segs| && 0 <= j < |segs[i]| ==> !IsUpper(segs[i][j])
    ensures Folded(segs) == segs
  {
    forall i | 0 <= i < |segs|
      ensures Lower(segs[i]) == segs[i]
    {
    }
  }

  /** The route declared for a path, if any. No route sets `caseSensitive`,
      so literal segments match whatever their case; the values of
      `:companyName` and `:id` are passed on as written. */
  function Match(segs: seq<string>): Option<Route> {
    MatchFolded(Folded(segs), segs)
  }

  /** The route table over the folded segments `lit` of the path `segs`. */
  function MatchFolded(lit: seq<string>, segs: seq<string>): Option<Route>
    requires |lit| == |segs|
  {
    if |segs| == 0 then Some(Route(Blank, Public))
    else if |segs| == 1 then
      if lit[0] == "auth" then Some(Route(AuthPage, AuthRedirect))
      else if lit[0] == "dashboard" then Some(Route(Dashboard, UserOnly))
      else if lit[0] == "profile" then Some(Route(Profile, UserOnly))
      else if lit[0] == "admin" then Some(Route(AdminPanel, AdminOnly))
      else None
    else if |segs| == 2 then
      if lit[0] == "admin" && lit[1] == "login" then Some(Route(AdminLoginPage, Public))
      else if lit[0] == "company" then Some(Route(CompanyDetail(segs[1]), UserOnly))
      else if lit[0] == "experience" && lit[1] == "new" then Some(Route(ExperienceNew, UserOnly))
      else None
    else if |segs| == 3 && lit[0] == "experience" && lit[2] == "edit" then Some(Route(ExperienceEdit(segs[1]), UserOnly))
    else None
  }

  /** What the router shows for a path under a session with the given flags. */
  function Resolve(segs: seq<string>, isAuthenticated: bool, isAdmin: bool): Screen {
    match Match(segs)
    case None => NoMatch
    case Some(Route(page, wrap)) =>
      match wrap
      case Public => Show(page)
      case AuthRedirect => if !isAuthenticated then Show(page) else Navigate("/dashboard")
      case UserOnly =>
        (match PR.Guard(false, isAuthenticated, isAdmin)
         case Render => Show(page)
         case Redirect(to) => Navigate(to))
      case AdminOnly =>
        (match PR.Guard(true, isAuthenticated, isAdmin)
         case Render => Show(page)
         case Redirect(to) => Navigate(to))
  }

  /** `/auth` shows the sign-in page exactly when nobody is signed in, and
      otherwise sends the user to the dashboard. */
  lemma AuthRoute(isAuthenticated: bool, isAdmin: bool)
    ensures Resolve(["auth"], isAuthenticated, isAdmin) ==
      if isAuthenticated then Navigate("/dashboard") else Show(AuthPage)
  {
    FoldedFixed(["auth"]);
  }

  /** The admin login page needs no session. */
  lemma AdminLoginIsPublic(isAuthenticated: bool, isAdmin: bool)
    ensures Resolve(["admin", "login"], isAuthenticated, isAdmin) == Show(AdminLoginPage)
  {
    FoldedFixed(["admin", "login"]);
  }

  /** The user pages are all behind the regular guard. */
  lemma UserPagesAreGuarded(name: string, id: string)
    ensures Match(["dashboard"]) == Some(Route(Dashboard, UserOnly))
    ensures Match(["company", name]) == Some(Route(CompanyDetail(name), UserOnly))
    ensures Match(["profile"]) == Some(Route(Profile, UserOnly))
    ensures Match(["experience", "new"]) == Some(Route(ExperienceNew, UserOnly))
    ensures Match(["experience", id, "edit"]) == Some(Route(ExperienceEdit(id), UserOnly))
  {
    DashboardRoute();
    ProfileRoute();
    ExperienceNewRoute();
    CompanyRoute(name);
    ExperienceEditRoute(id);
  }

  lemma DashboardRoute()
    ensures Match(["dashboard"]) == Some(Route(Dashboard, UserOnly))
  {
    FoldedFixed(["dashboard"]);
  }

  lemma ProfileRoute()
    ensures Match(["profile"]) == Some(Route(Profile, UserOnly))
  {
    FoldedFixed(["profile"]);
  }

  lemma ExperienceNewRoute()
    ensures Match(["experience", "new"]) == Some(Route(ExperienceNew, UserOnly))
  {
    FoldedFixed(["experience", "new"]);
  }

  lemma CompanyRoute(name: string)
    ensures Match(["company", name]) == Some(Route(CompanyDetail(name), UserOnly))
  {
    FoldedFixed(["company"]);
    assert Folded(["company", name])[0] == "company";
  }

  lemma ExperienceEditRoute(id: string)
    ensures Match(["experience", id, "edit"]) == Some(Route(ExperienceEdit(id), UserOnly))
  {
    var lit := Folded(["experience", id, "edit"]);
    assert lit[0] == "experience" by { FoldedFixed(["experience"]); }
    assert lit[2] == "edit" by { FoldedFixed(["edit"]); }
    assert MatchFolded(lit, ["experience", id, "edit"]) == Some(Route(ExperienceEdit(id), UserOnly));
  }

  /** `/admin`, in any case, is the one route behind the admin guard. */
  lemma OnlyAdminIsAdminOnly(segs: seq<string>)
    ensures Match(segs).Some? && Match(segs).value.wrap == AdminOnly <==> |segs| == 1 && Lower(segs[0]) == "admin"
  {
    if |segs| == 1 && Lower(segs[0]) == "admin" {
      assert Folded(segs) == ["admin"];
    }
  }

  /** A path differing from another only in the case of its letters shows
      the same screen, e.g. `/ADMIN` is the admin-guarded panel. */
  lemma CaseIgnored(seg: string, isAuthenticated: bool, isAdmin: bool)
    requires Lower(seg) == "admin"
    ensures Resolve([seg], isAuthenticated, isAdmin) == Resolve(["admin"], isAuthenticated, isAdmin)
    ensures Resolve([seg], isAuthenticated, isAdmin) == (if isAdmin then Show(AdminPanel) else Navigate("/admin/login"))
  {
    FoldedFixed(["admin"]);
    assert Folded([seg]) == ["admin"];
    assert MatchFolded(["admin"], [seg]) == Some(Route(AdminPanel, AdminOnly));
    assert MatchFolded(["admin"], ["admin"]) == Some(Route(AdminPanel, AdminOnly));
  }

  /** A guarded page is shown exactly when its guard lets it render. */
  lemma GuardedPagesFollowGuard(segs: seq<string>, isAuthenticated: bool, isAdmin: bool)
    requires Match(segs).Some?
    ensures Match(segs).value.wrap == UserOnly ==>
      (Resolve(segs, isAuthenticated, isAdmin).Show? <==> isAuthenticated)
    ensures Match(segs).value.wrap == AdminOnly ==>
      (Resolve(segs, isAuthenticated, isAdmin).Show? <==> isAdmin)
  {
  }
}
