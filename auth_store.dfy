/** The client session store (`frontend/src/store/authStore.ts`): five fields
    that every `set(...)` call overwrites or merges. The user record is a
    JavaScript object, kept as a map from property names to values so that the
    object spread in `updateUser` is map override. */
module AuthStore {
  import opened Util
  import opened Json

  type UserRecord = map<string, Js>

  datatype Session = Session(
    user: Option<UserRecord>,
    token: Option<string>,
    isAuthenticated: bool,
    isAdmin: bool,
    adminId: Option<int>)

  /** The state the store is created with. */
  const Initial: Session := Session(None, None, false, false, None)

  // ---------------------------------------------------------------------------
  // Transitions, as values

  /** `setAuth(user, token)`: every field is written. */
  function AfterSetAuth(s: Session, u: UserRecord, t: string): Session {
    Session(Some(u), Some(t), true, false, None)
  }

  /** `adminLogin(adminId)`: only the two admin fields are written. */
  function AfterAdminLogin(s: Session, id: int): Session {
    s.(isAdmin := true, adminId := Some(id))
  }

  /** `logout()`: every field goes back to its initial value. */
  function AfterLogout(s: Session): Session {
    Session(None, None, false, false, None)
  }

  /** `updateUser(patch)`: `{...user, ...patch}` when there is a user, else still `null`. */
  function AfterUpdateUser(s: Session, patch: UserRecord): Session {
    s.(user := if s.user.Some? then Some(s.user.value + patch) else None)
  }

  // ---------------------------------------------------------------------------
  // Properties

  /** A regular login yields one fixed state whatever came before, so it ends
      any admin session. */
  lemma SetAuthIsTotalOverwrite(s1: Session, s2: Session, u: UserRecord, t: string)
    ensures AfterSetAuth(s1, u, t) == AfterSetAuth(s2, u, t)
    ensures var r := AfterSetAuth(s1, u, t);
      r.user == Some(u) && r.token == Some(t) && r.isAuthenticated && !r.isAdmin && r.adminId.None?
  {
  }

  /** `adminLogin` leaves the user, the token and the authentication flag alone. */
  lemma AdminLoginKeepsUserSession(s: Session, id: int)
    ensures var r := AfterAdminLogin(s, id);
      r.isAdmin && r.adminId == Some(id) &&
      r.user == s.user && r.token == s.token && r.isAuthenticated == s.isAuthenticated
  {
  }

  /** `logout` restores the initial state and is idempotent. */
  lemma LogoutRestoresInitial(s: Session)
    ensures AfterLogout(s) == Initial
    ensures AfterLogout(AfterLogout(s)) == AfterLogout(s)
  {
  }

  /** Logging in and then out leaves no trace, from any state. */
  lemma SetAuthThenLogout(s: Session, u: UserRecord, t: string)
    ensures AfterLogout(AfterSetAuth(s, u, t)) == Initial
  {
  }

  /** `updateUser` on no user keeps no user; otherwise patched keys take the
      patch's values and every other key of the user is kept. */
  lemma UpdateUserMerges(s: Session, patch: UserRecord)
    ensures s.user.None? ==> AfterUpdateUser(s, patch).user.None?
    ensures s.user.Some? ==> AfterUpdateUser(s, patch).user.Some?
    ensures s.user.Some? ==> var m := AfterUpdateUser(s, patch).user.value;
      m.Keys == s.user.value.Keys + patch.Keys &&
      (forall k :: k in patch ==> m[k] == patch[k]) &&
      (forall k :: k in s.user.value && k !in patch ==> m[k] == s.user.value[k])
  {
  }

  /** `updateUser` touches nothing but the user. */
  lemma UpdateUserKeepsSession(s: Session, patch: UserRecord)
    ensures var r := AfterUpdateUser(s, patch);
      r.token == s.token && r.isAuthenticated == s.isAuthenticated &&
      r.isAdmin == s.isAdmin && r.adminId == s.adminId
  {
  }

  // ---------------------------------------------------------------------------
  // The store object

  class Store {
    var user: Option<UserRecord>
    var token: Option<string>
    var isAuthenticated: bool
    var isAdmin: bool
    var adminId: Option<int>

    function State(): Session
      reads this
    {
      Session(user, token, isAuthenticated, isAdmin, adminId)
    }

    constructor ()
      ensures State() == Initial
    {
      user, token, isAuthenticated, isAdmin, adminId := None, None, false, false, None;
    }

    method SetAuth(u: UserRecord, t: string)
      modifies this
      ensures State() == AfterSetAuth(old(State()), u, t)
    {
      user, token, isAuthenticated, isAdmin, adminId := Some(u), Some(t), true, false, None;
    }

    method AdminLogin(id: int)
      modifies this
      ensures State() == AfterAdminLogin(old(State()), id)
    {
      isAdmin, adminId := true, Some(id);
    }

    method Logout()
      modifies this
      ensures State() == AfterLogout(old(State()))
    {
      user, token, isAuthenticated, isAdmin, adminId := None, None, false, false, None;
    }

    method UpdateUser(patch: UserRecord)
      modifies this
      ensures State() == AfterUpdateUser(old(State()), patch)
    {
      if user.Some? {
        user := Some(user.value + patch);
      }
    }
  }
}
