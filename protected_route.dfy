/** The route guard (`frontend/src/components/ProtectedRoute.tsx`): a pure
    choice between rendering the wrapped page and redirecting, made from the
    two session flags. */
module ProtectedRoute {

  datatype Outcome = Render | Redirect(to: string)

  const AdminLoginPath := "/admin/login"
  const AuthPath := "/auth"

  /** `ProtectedRoute({adminOnly})` under a session with the given flags. */
  function Guard(adminOnly: bool, isAuthenticated: bool, isAdmin: bool): Outcome {
    if adminOnly then
      if !isAdmin then Redirect(AdminLoginPath) else Render
    else if !isAuthenticated then Redirect(AuthPath)
    else Render
  }

  /** An admin-only route renders exactly when `isAdmin` holds, redirects to
      the admin login otherwise, and never looks at `isAuthenticated`. */
  lemma AdminOnlyGuard(isAuthenticated: bool, isAdmin: bool, other: bool)
    ensures Guard(true, isAuthenticated, isAdmin).Render? <==> isAdmin
    ensures !isAdmin ==> Guard(true, isAuthenticated, isAdmin) == Redirect(AdminLoginPath)
    ensures Guard(true, isAuthenticated, isAdmin) == Guard(true, other, isAdmin)
  {
  }

  /** A regular route renders exactly when `isAuthenticated` holds, redirects
      to `/auth` otherwise, and never looks at `isAdmin`. */
  lemma RegularGuard(isAuthenticated: bool, isAdmin: bool, other: bool)
    ensures Guard(false, isAuthenticated, isAdmin).Render? <==> isAuthenticated
    ensures !isAuthenticated ==> Guard(false, isAuthenticated, isAdmin) == Redirect(AuthPath)
    ensures Guard(false, isAuthenticated, isAdmin) == Guard(false, isAuthenticated, other)
  {
  }

  /** A session that is only an admin session opens admin pages and is sent
      away from user pages. */
  lemma AdminOnlySession()
    ensures Guard(true, false, true) == Render
    ensures Guard(false, false, true) == Redirect(AuthPath)
  {
  }
}
