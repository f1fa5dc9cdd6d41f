/** The profile page (`frontend/src/pages/ProfilePage.tsx`): a five-field
    form filled from the loaded user, a dirty flag that two effects keep
    up to date, the Cancel button, and the update mutation's success
    callback, which merges the returned user into the session store. The
    loaded user and the mutation's answer are inputs. */
module ProfilePage {
  import opened Util
  import opened Json
  import AuthStore

  /** The five editable columns of the loaded user; `None` is `null`. */
  datatype LoadedUser = LoadedUser(
    fullName: Option<string>,
    linkedinId: Option<string>,
    githubId: Option<string>,
    collegeName: Option<string>,
    branch: Option<string>)

  datatype ProfileForm = ProfileForm(
    fullName: string,
    linkedinId: string,
    githubId: string,
    collegeName: string,
    branch: string)

  datatype Field = FullName | LinkedinId | GithubId | CollegeName | Branch

  const Blank: ProfileForm := ProfileForm("", "", "", "", "")

  /** `value || ''` for a string column: `null` and `''` both give `''`. */
  function OrEmpty(v: Option<string>): (r: string)
    ensures v.Some? ==> r == v.value
    ensures v.None? ==> r == ""
  {
    if v.Some? then v.value else ""
  }

  /** The form as the load effect and Cancel fill it. */
  function FormOf(u: LoadedUser): ProfileForm {
    ProfileForm(OrEmpty(u.fullName), OrEmpty(u.linkedinId), OrEmpty(u.githubId), OrEmpty(u.collegeName), OrEmpty(u.branch))
  }

  /** The change-tracking effect's test: some field differs from the user's. */
  predicate Changed(f: ProfileForm, u: LoadedUser) {
    f.fullName != OrEmpty(u.fullName) || f.linkedinId != OrEmpty(u.linkedinId) || f.githubId != OrEmpty(u.githubId) ||
    f.collegeName != OrEmpty(u.collegeName) || f.branch != OrEmpty(u.branch)
  }

  function WithField(f: ProfileForm, field: Field, value: string): ProfileForm {
    match field
    case FullName => f.(fullName := value)
    case LinkedinId => f.(linkedinId := value)
    case GithubId => f.(githubId := value)
    case CollegeName => f.(collegeName := value)
    case Branch => f.(branch := value)
  }

  function FieldOf(f: ProfileForm, field: Field): string {
    match field
    case FullName => f.fullName
    case LinkedinId => f.linkedinId
    case GithubId => f.githubId
    case CollegeName => f.collegeName
    case Branch => f.branch
  }

  datatype ProfileState = ProfileState(form: ProfileForm, hasChanges: bool, user: Option<LoadedUser>)

  const Start: ProfileState := ProfileState(Blank, false, None)

  /** The first effect, on a newly loaded user (the second then finds no change). */
  function AfterLoad(s: ProfileState, u: LoadedUser): ProfileState {
    ProfileState(FormOf(u), false, Some(u))
  }

  /** An input's `onChange`, followed by the change-tracking effect, which
      does nothing before a user is loaded. */
  function AfterEdit(s: ProfileState, field: Field, value: string): ProfileState {
    var f := WithField(s.form, field, value);
    ProfileState(f, if s.user.Some? then Changed(f, s.user.value) else s.hasChanges, s.user)
  }

  /** The Cancel button: back to the loaded values, when there are any. */
  function AfterCancel(s: ProfileState): ProfileState {
    if s.user.Some? then s.(form := FormOf(s.user.value), hasChanges := false) else s
  }

  /** The update's `onSuccess`: the flag is cleared; the form stays as
      submitted until the refetched user is loaded. */
  function AfterUpdateSuccess(s: ProfileState): ProfileState {
    s.(hasChanges := false)
  }

  // ---------------------------------------------------------------------------
  // Properties

  /** The flag is what the change-tracking effect computes. */
  predicate Tracked(s: ProfileState) {
    s.user.Some? ==> s.hasChanges == Changed(s.form, s.user.value)
  }

  /** The form is changed exactly when it is not the loaded user's form. */
  lemma ChangedIffDiffers(f: ProfileForm, u: LoadedUser)
    ensures Changed(f, u) <==> f != FormOf(u)
  {
  }

  /** Loading fills every field from the user, `null` as `''`, with no change shown. */
  lemma LoadFillsForm(s: ProfileState, u: LoadedUser)
    ensures var t := AfterLoad(s, u);
      t.form.fullName == OrEmpty(u.fullName) && t.form.linkedinId == OrEmpty(u.linkedinId) &&
      t.form.githubId == OrEmpty(u.githubId) && t.form.collegeName == OrEmpty(u.collegeName) &&
      t.form.branch == OrEmpty(u.branch) && !t.hasChanges && Tracked(t)
  {
  }

  /** Loading, editing and Cancel keep the flag in step with the form. */
  lemma TransitionsTrack(s: ProfileState, u: LoadedUser, field: Field, value: string)
    requires Tracked(s)
    ensures Tracked(AfterLoad(s, u)) && Tracked(AfterEdit(s, field, value)) && Tracked(AfterCancel(s))
  {
  }

  /** An edit changes only its own field. */
  lemma EditTouchesOneField(s: ProfileState, field: Field, value: string, other: Field)
    ensures FieldOf(AfterEdit(s, field, value).form, field) == value
    ensures other != field ==> FieldOf(AfterEdit(s, field, value).form, other) == FieldOf(s.form, other)
    ensures AfterEdit(s, field, value).user == s.user
  {
  }

  /** Typing a field back to its loaded value clears the flag when no other
      field differs. */
  lemma EditBackIsClean(u: LoadedUser, s: ProfileState, field: Field, value: string)
    requires s.user == Some(u)
    ensures AfterEdit(AfterEdit(AfterLoad(s, u), field, value), field, FieldOf(FormOf(u), field)) == AfterLoad(s, u)
  {
  }

  /** Cancel after any number of edits is the state right after loading. */
  lemma CancelRestores(s: ProfileState, u: LoadedUser)
    requires s.user == Some(u)
    ensures AfterCancel(s) == AfterLoad(s, u)
    ensures AfterCancel(AfterCancel(s)) == AfterCancel(s)
  {
  }

  /** Before a user is loaded, Cancel does nothing. */
  lemma CancelWithoutUser(s: ProfileState)
    requires s.user.None?
    ensures AfterCancel(s) == s
  {
  }

  // ---------------------------------------------------------------------------
  // The component

  class Page {
    var form: ProfileForm
    var hasChanges: bool
    var user: Option<LoadedUser>

    function State(): ProfileState
      reads this
    {
      ProfileState(form, hasChanges, user)
    }

    constructor ()
      ensures State() == Start
    {
      form, hasChanges, user := Blank, false, None;
    }

    method UserLoaded(u: LoadedUser)
      modifies this
      ensures State() == AfterLoad(old(State()), u)
    {
      user := Some(u);
      form := ProfileForm(OrEmpty(u.fullName), OrEmpty(u.linkedinId), OrEmpty(u.githubId),
                          OrEmpty(u.collegeName), OrEmpty(u.branch));
      hasChanges := false;
    }

    method Edit(field: Field, value: string)
      modifies this
      ensures State() == AfterEdit(old(State()), field, value)
    {
      form := WithField(form, field, value);
      if user.Some? {
        var u := user.value;
        hasChanges := form.fullName != OrEmpty(u.fullName) || form.linkedinId != OrEmpty(u.linkedinId) ||
                      form.githubId != OrEmpty(u.githubId) || form.collegeName != OrEmpty(u.collegeName) ||
                      form.branch != OrEmpty(u.branch);
      }
    }

    method Cancel()
      modifies this
      ensures State() == AfterCancel(old(State()))
    {
      if user.Some? {
        form := FormOf(user.value);
        hasChanges := false;
      }
    }

    /** `handleSubmit`: the form is what the update sends. */
    method Submit() returns (sent: ProfileForm)
      ensures sent == form
    {
      sent := form;
    }

    /** `onSuccess(data)`: `updateUser(data)` on the store, then the flag is cleared. */
    method UpdateSucceeded(store: AuthStore.Store, data: AuthStore.UserRecord)
      modifies this, store
      ensures State() == AfterUpdateSuccess(old(State()))
      ensures store.State() == AuthStore.AfterUpdateUser(old(store.State()), data)
    {
      store.UpdateUser(data);
      hasChanges := false;
    }
  }
}
