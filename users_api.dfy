/** The profile endpoints (`backend/app/api/v1/users.py`): the completion
    percentage over six columns, the partial profile update that recomputes
    it, and the completion report. The current user is the one the
    authentication dependency resolved; that dependency is not part of this
    model, so the endpoints take the user's id and require that it exists. */
module UsersApi {
  import opened Util
  import opened Models

  /** Python truthiness of a nullable string column: set and non-empty. */
  predicate Truthy(o: Option<string>) {
    o.Some? && o.value != ""
  }

  function One(b: bool): nat { if b then 1 else 0 }

  /** How many of `full_name`, `email`, `linkedin_id`, `github_id`,
      `college_name` and `branch` are truthy. */
  function CompletedFields(u: User): (c: nat)
    ensures c <= 6
  {
    One(u.fullName != "") + One(u.email != "") + One(Truthy(u.linkedinId)) + One(Truthy(u.githubId)) +
    One(Truthy(u.collegeName)) + One(Truthy(u.branch))
  }

  /** `int((completed / len(fields)) * 100)`, in exact arithmetic. */
  function CompletionOf(c: nat): int
    requires c <= 6
  {
    (((c as real) / 6.0) * 100.0).Floor
  }

  /** `calculate_profile_completion`. */
  function ProfileCompletion(u: User): int {
    CompletionOf(CompletedFields(u))
  }

  /** The percentage is `(100 * c) div 6`. */
  lemma CompletionIsQuotient(c: nat)
    requires c <= 6
    ensures CompletionOf(c) == (100 * c) / 6
  {
    if c == 0 {
    } else if c == 1 {
      assert (1.0 / 6.0) * 100.0 == 16.0 + 2.0 / 3.0;
    } else if c == 2 {
      assert (2.0 / 6.0) * 100.0 == 33.0 + 1.0 / 3.0;
    } else if c == 3 {
    } else if c == 4 {
      assert (4.0 / 6.0) * 100.0 == 66.0 + 2.0 / 3.0;
    } else if c == 5 {
      assert (5.0 / 6.0) * 100.0 == 83.0 + 1.0 / 3.0;
    }
  }

  /** Its values are 0, 16, 33, 50, 66, 83 and 100; it is 100 exactly when all
      six columns are truthy, and it never falls as more of them are. */
  lemma CompletionValues(c: nat, d: nat)
    requires c <= 6 && d <= 6
    ensures CompletionOf(c) in {0, 16, 33, 50, 66, 83, 100}
    ensures CompletionOf(c) == 100 <==> c == 6
    ensures c <= d ==> CompletionOf(c) <= CompletionOf(d)
  {
    CompletionIsQuotient(c);
    CompletionIsQuotient(d);
  }

  /** The stored percentage and flag agree with the columns. */
  predicate Consistent(u: User) {
    u.profileCompletionPercentage == ProfileCompletion(u) &&
    u.profileCompleted == (u.profileCompletionPercentage == 100)
  }

  // ---------------------------------------------------------------------------
  // Profile update

  /** `ProfileUpdateRequest`; a field sent as `null` is `SetTo(None)`. */
  datatype ProfileUpdate = ProfileUpdate(
    fullName: Edit<Option<string>>,
    linkedinId: Edit<Option<string>>,
    githubId: Edit<Option<string>>,
    collegeName: Edit<Option<string>>,
    branch: Edit<Option<string>>)

  datatype ProfileField = FullName | LinkedinId | GithubId | CollegeName | Branch

  function EditOf(req: ProfileUpdate, f: ProfileField): Edit<Option<string>> {
    match f
    case FullName => req.fullName
    case LinkedinId => req.linkedinId
    case GithubId => req.githubId
    case CollegeName => req.collegeName
    case Branch => req.branch
  }

  function Item(f: ProfileField, e: Edit<Option<string>>): seq<(ProfileField, Option<string>)> {
    if e.SetTo? then [(f, e.value)] else []
  }

  /** `request.dict(exclude_unset=True).items()`: the fields the request
      sets, in declaration order. */
  function UpdateData(req: ProfileUpdate): (items: seq<(ProfileField, Option<string>)>)
    ensures forall i :: 0 <= i < |items| ==> EditOf(req, items[i].0) == SetTo(items[i].1)
    ensures forall i, j :: 0 <= i < j < |items| ==> items[i].0 != items[j].0
    ensures forall f :: EditOf(req, f).SetTo? ==> exists i :: 0 <= i < |items| && items[i].0 == f
  {
    var s1 := Item(FullName, req.fullName);
    var s2 := s1 + Item(LinkedinId, req.linkedinId);
    var s3 := s2 + Item(GithubId, req.githubId);
    var s4 := s3 + Item(CollegeName, req.collegeName);
    var s5 := s4 + Item(Branch, req.branch);
    ItemsBuilt(req, s1, s2, s3, s4, s5);
    ItemsAll(req, s5);
    s5
  }

  /** The five appends, one field at a time. */
  lemma ItemsBuilt(req: ProfileUpdate, s1: seq<(ProfileField, Option<string>)>, s2: seq<(ProfileField, Option<string>)>,
                   s3: seq<(ProfileField, Option<string>)>, s4: seq<(ProfileField, Option<string>)>,
                   s5: seq<(ProfileField, Option<string>)>)
    requires s1 == Item(FullName, req.fullName) && s2 == s1 + Item(LinkedinId, req.linkedinId)
    requires s3 == s2 + Item(GithubId, req.githubId) && s4 == s3 + Item(CollegeName, req.collegeName)
    requires s5 == s4 + Item(Branch, req.branch)
    ensures ItemsBefore(req, s5, 5)
  {
    ItemSnoc(req, [], FullName);
    assert [] + s1 == s1;
    ItemSnoc(req, s1, LinkedinId);
    ItemSnoc(req, s2, GithubId);
    ItemSnoc(req, s3, CollegeName);
    ItemSnoc(req, s4, Branch);
  }

  /** Past the last field, the items are all the set fields. */
  lemma ItemsAll(req: ProfileUpdate, items: seq<(ProfileField, Option<string>)>)
    requires ItemsBefore(req, items, 5)
    ensures forall i :: 0 <= i < |items| ==> EditOf(req, items[i].0) == SetTo(items[i].1)
    ensures forall i, j :: 0 <= i < j < |items| ==> items[i].0 != items[j].0
    ensures forall f :: EditOf(req, f).SetTo? ==> exists i :: 0 <= i < |items| && items[i].0 == f
  {
    forall f | EditOf(req, f).SetTo? ensures exists i :: 0 <= i < |items| && items[i].0 == f {
      assert Rank(f) < 5;
    }
  }

  /** The position of a field in the request's declaration. */
  function Rank(f: ProfileField): nat {
    match f
    case FullName => 0
    case LinkedinId => 1
    case GithubId => 2
    case CollegeName => 3
    case Branch => 4
  }

  /** The items so far match the request, name each field once, all come
      before field `r`, and include every set field before `r`. */
  predicate ItemsBefore(req: ProfileUpdate, items: seq<(ProfileField, Option<string>)>, r: nat) {
    (forall i :: 0 <= i < |items| ==> EditOf(req, items[i].0) == SetTo(items[i].1) && Rank(items[i].0) < r) &&
    (forall i, j :: 0 <= i < j < |items| ==> items[i].0 != items[j].0) &&
    (forall f :: Rank(f) < r && EditOf(req, f).SetTo? ==> exists i :: 0 <= i < |items| && items[i].0 == f)
  }

  /** Appending the item of the next field keeps those facts. */
  lemma ItemSnoc(req: ProfileUpdate, items: seq<(ProfileField, Option<string>)>, f: ProfileField)
    requires ItemsBefore(req, items, Rank(f))
    ensures ItemsBefore(req, items + Item(f, EditOf(req, f)), Rank(f) + 1)
  {
    var next := items + Item(f, EditOf(req, f));
    forall i | 0 <= i < |next| ensures EditOf(req, next[i].0) == SetTo(next[i].1) && Rank(next[i].0) < Rank(f) + 1 {
      if i < |items| { assert next[i] == items[i]; }
    }
    forall i, j | 0 <= i < j < |next| ensures next[i].0 != next[j].0 {
      assert next[i] == items[i];
      if j < |items| { assert next[j] == items[j]; }
    }
    forall g | Rank(g) < Rank(f) + 1 && EditOf(req, g).SetTo? ensures exists i :: 0 <= i < |next| && next[i].0 == g {
      if Rank(g) < Rank(f) {
        var i :| 0 <= i < |items| && items[i].0 == g;
        assert next[i] == items[i];
      } else {
        assert g == f;
        assert next[|items|].0 == g;
      }
    }
  }

  /** The items carry a `null` full name exactly when the request sends one. */
  lemma NullNameItem(req: ProfileUpdate)
    ensures (FullName, None) in UpdateData(req) <==> req.fullName == SetTo(None)
  {
    if req.fullName == SetTo(None) {
      assert UpdateData(req)[0] == (FullName, None);
    }
  }

  /** A column's value. */
  function Get(u: User, f: ProfileField): Option<string> {
    match f
    case FullName => Some(u.fullName)
    case LinkedinId => u.linkedinId
    case GithubId => u.githubId
    case CollegeName => u.collegeName
    case Branch => u.branch
  }

  /** `setattr(current_user, field, value)`. `full_name` is not nullable: a
      `null` for it is left for the commit to refuse. */
  function SetAttr(u: User, f: ProfileField, v: Option<string>): (r: User)
    ensures forall g :: g != f ==> Get(r, g) == Get(u, g)
    ensures f != FullName || v.Some? ==> Get(r, f) == v
    ensures r.email == u.email && r.id == u.id && r.isActive == u.isActive && r.isVerified == u.isVerified
    ensures r.hashedPassword == u.hashedPassword
  {
    match f
    case FullName => if v.Some? then u.(fullName := v.value) else u
    case LinkedinId => u.(linkedinId := v)
    case GithubId => u.(githubId := v)
    case CollegeName => u.(collegeName := v)
    case Branch => u.(branch := v)
  }

  /** The loop over the items. */
  function SetAll(u: User, items: seq<(ProfileField, Option<string>)>): User {
    if items == [] then u else SetAttr(SetAll(u, items[..|items| - 1]), items[|items| - 1].0, items[|items| - 1].1)
  }

  /** After the loop a column holds the value of its last item, or its old value. */
  lemma {:induction false} SetAllField(u: User, items: seq<(ProfileField, Option<string>)>, f: ProfileField)
    requires forall i :: 0 <= i < |items| && items[i].0 == FullName ==> items[i].1.Some?
    ensures (forall i :: 0 <= i < |items| ==> items[i].0 != f) ==> Get(SetAll(u, items), f) == Get(u, f)
    ensures forall i :: 0 <= i < |items| && items[i].0 == f && (forall j :: i < j < |items| ==> items[j].0 != f) ==>
              Get(SetAll(u, items), f) == items[i].1
    ensures SetAll(u, items).email == u.email && SetAll(u, items).id == u.id
    ensures SetAll(u, items).isActive == u.isActive && SetAll(u, items).isVerified == u.isVerified
    ensures SetAll(u, items).hashedPassword == u.hashedPassword
  {
    if items != [] {
      var init := items[..|items| - 1];
      SetAllField(u, init, f);
      forall i | 0 <= i < |init| && init[i].0 == f && (forall j :: i < j < |init| ==> init[j].0 != f)
        ensures items[i] == init[i]
      {
      }
    }
  }

  /** The refreshed row after an update that commits. */
  function Recomputed(u: User): (r: User)
    ensures Consistent(r)
  {
    var p := ProfileCompletion(u);
    u.(profileCompletionPercentage := p, profileCompleted := p == 100)
  }

  /** `PUT /users/me`: the set fields are assigned, the percentage and the
      flag recomputed and the row committed; a `null` full name makes the
      commit fail on the column's NOT NULL constraint. */
  function UpdateProfileOutcome(t: Tables, userId: int, req: ProfileUpdate): Transaction<User>
    requires UserById(t.users, userId).Some?
  {
    var k := UserById(t.users, userId).value;
    if req.fullName == SetTo(None) then Transaction(t, Err(InternalError))
    else
      var u := Recomputed(SetAll(t.users[k], UpdateData(req)));
      Transaction(t.(users := t.users[k := u]), Ok(u))
  }

  /** Every column the request sets takes the sent value, every other keeps
      its value, and the stored percentage and flag are recomputed. */
  lemma UpdateProfileEffect(t: Tables, userId: int, req: ProfileUpdate, f: ProfileField)
    requires UserById(t.users, userId).Some?
    requires req.fullName != SetTo(None)
    ensures var o := UpdateProfileOutcome(t, userId, req);
      var k := UserById(t.users, userId).value;
      o.result.Ok? && o.after == t.(users := t.users[k := o.result.value]) &&
      Get(o.result.value, f) == (if EditOf(req, f).SetTo? then EditOf(req, f).value else Get(t.users[k], f)) &&
      o.result.value.email == t.users[k].email && o.result.value.id == userId &&
      o.result.value.isActive == t.users[k].isActive && o.result.value.hashedPassword == t.users[k].hashedPassword &&
      Consistent(o.result.value)
  {
    var k := UserById(t.users, userId).value;
    var x := t.users[k];
    var items := UpdateData(req);
    var s1 := SetAll(x, items);
    FieldAfterUpdate(x, req, items, f);
    SetAllKeepsRest(x, items);
    GetRecomputed(s1, f);
  }

  /** The loop leaves a column with the value the request sends, or untouched. */
  lemma FieldAfterUpdate(x: User, req: ProfileUpdate, items: seq<(ProfileField, Option<string>)>, f: ProfileField)
    requires items == UpdateData(req) && req.fullName != SetTo(None)
    ensures Get(SetAll(x, items), f) == if EditOf(req, f).SetTo? then EditOf(req, f).value else Get(x, f)
  {
    forall i | 0 <= i < |items| && items[i].0 == FullName ensures items[i].1.Some? {
      assert EditOf(req, FullName) == SetTo(items[i].1);
    }
    SetAllField(x, items, f);
    if EditOf(req, f).SetTo? {
      var i :| 0 <= i < |items| && items[i].0 == f;
      assert forall j :: i < j < |items| ==> items[j].0 != f;
    }
  }

  /** Recomputing the percentage leaves the profile columns alone. */
  lemma GetRecomputed(u: User, f: ProfileField)
    ensures Get(Recomputed(u), f) == Get(u, f)
  {
  }

  /** An empty request changes nothing but the recomputed percentage and flag. */
  lemma EmptyUpdate(t: Tables, userId: int)
    requires UserById(t.users, userId).Some?
    ensures var o := UpdateProfileOutcome(t, userId, ProfileUpdate(Unset, Unset, Unset, Unset, Unset));
      o.result == Ok(Recomputed(t.users[UserById(t.users, userId).value]))
  {
  }

  /** Sending the same update twice is the same as sending it once. */
  lemma UpdateIdempotent(t: Tables, userId: int, req: ProfileUpdate)
    requires UserById(t.users, userId).Some?
    ensures var o := UpdateProfileOutcome(t, userId, req);
      UserById(o.after.users, userId).Some? && UpdateProfileOutcome(o.after, userId, req) == o
  {
    var k := UserById(t.users, userId).value;
    var o := UpdateProfileOutcome(t, userId, req);
    if req.fullName != SetTo(None) {
      var x := t.users[k];
      var items := UpdateData(req);
      var s1 := SetAll(x, items);
      var u := Recomputed(s1);
      SetAllKeepsRest(x, items);
      IdLookupKept(t.users, k, u, userId);
      var s2 := SetAll(u, items);
      forall f: ProfileField
        ensures Get(s2, f) == Get(u, f)
      {
        FieldAfterUpdate(x, req, items, f);
        FieldAfterUpdate(u, req, items, f);
        GetRecomputed(s1, f);
      }
      SetAllKeepsRest(u, items);
      RecomputedFixed(u, s2);
      assert o.after.users[k := u] == o.after.users;
    }
  }

  /** A consistent row with the same columns is what recomputing gives back. */
  lemma RecomputedFixed(u: User, v: User)
    requires Consistent(u)
    requires forall f :: Get(v, f) == Get(u, f)
    requires v.id == u.id && v.email == u.email && v.hashedPassword == u.hashedPassword
    requires v.isVerified == u.isVerified && v.isActive == u.isActive
    ensures Recomputed(v) == u
  {
    assert Get(v, FullName) == Get(u, FullName);
    assert Get(v, LinkedinId) == Get(u, LinkedinId);
    assert Get(v, GithubId) == Get(u, GithubId);
    assert Get(v, CollegeName) == Get(u, CollegeName);
    assert Get(v, Branch) == Get(u, Branch);
  }

  /** The loop touches only the five profile columns. */
  lemma {:induction false} SetAllKeepsRest(u: User, items: seq<(ProfileField, Option<string>)>)
    ensures var r := SetAll(u, items);
      r.id == u.id && r.email == u.email && r.hashedPassword == u.hashedPassword && r.isVerified == u.isVerified &&
      r.isActive == u.isActive && r.profileCompleted == u.profileCompleted &&
      r.profileCompletionPercentage == u.profileCompletionPercentage
  {
    if items != [] {
      SetAllKeepsRest(u, items[..|items| - 1]);
    }
  }

  /** Replacing a row by one with the same id leaves every id lookup as it was. */
  lemma {:induction false} IdLookupKept(users: seq<User>, k: nat, v: User, id: int)
    requires k < |users| && v.id == users[k].id
    ensures UserById(users[k := v], id) == UserById(users, id)
  {
    if k > 0 {
      assert users[k := v][1..] == users[1..][k - 1 := v];
      IdLookupKept(users[1..], k - 1, v, id);
    }
  }

  // ---------------------------------------------------------------------------
  // Completion report

  datatype FieldFlags = FieldFlags(fullName: bool, email: bool, linkedinId: bool, githubId: bool, collegeName: bool, branch: bool)

  datatype CompletionReport = CompletionReport(percentage: int, completed: bool, fields: FieldFlags)

  /** `GET /users/profile-completion`: the stored percentage and flag, and
      each column's truthiness. */
  function CompletionReportOf(u: User): (r: CompletionReport)
    ensures r.percentage == u.profileCompletionPercentage && r.completed == u.profileCompleted
    ensures r.fields.fullName == (u.fullName != "") && r.fields.email == (u.email != "")
    ensures r.fields.linkedinId == Truthy(u.linkedinId) && r.fields.githubId == Truthy(u.githubId)
    ensures r.fields.collegeName == Truthy(u.collegeName) && r.fields.branch == Truthy(u.branch)
  {
    CompletionReport(u.profileCompletionPercentage, u.profileCompleted,
      FieldFlags(u.fullName != "", u.email != "", Truthy(u.linkedinId), Truthy(u.githubId), Truthy(u.collegeName), Truthy(u.branch)))
  }

  /** For a row the update has written, the report says "completed" exactly
      when all six flags are set. */
  lemma ReportAfterUpdate(t: Tables, userId: int, req: ProfileUpdate)
    requires UserById(t.users, userId).Some?
    requires UpdateProfileOutcome(t, userId, req).result.Ok?
    ensures var r := CompletionReportOf(UpdateProfileOutcome(t, userId, req).result.value);
      r.completed <==> (r.fields.fullName && r.fields.email && r.fields.linkedinId && r.fields.githubId &&
                        r.fields.collegeName && r.fields.branch)
  {
    var u := UpdateProfileOutcome(t, userId, req).result.value;
    CompletionValues(CompletedFields(u), 6);
  }

  // ---------------------------------------------------------------------------
  // The endpoint as it runs

  method UpdateProfile(db: Db, userId: int, req: ProfileUpdate) returns (r: Result<User>)
    requires UserById(db.users, userId).Some?
    modifies db
    ensures Transaction(db.Contents(), r) == UpdateProfileOutcome(old(db.Contents()), userId, req)
  {
    var k := UserById(db.users, userId).value;
    var updateData := UpdateData(req);
    var user := db.users[k];
    var i := 0;
    while i < |updateData|
      invariant 0 <= i <= |updateData|
      invariant user == SetAll(db.users[k], updateData[..i])
    {
      assert updateData[..i + 1][..i] == updateData[..i];
      var (field, value) := updateData[i];
      user := SetAttr(user, field, value);
      i := i + 1;
    }
    assert updateData[..|updateData|] == updateData;
    // the NOT NULL constraint on `full_name`, checked at the commit
    var nameCleared := (FullName, None) in updateData;
    NullNameItem(req);
    var p := ProfileCompletion(user);
    user := user.(profileCompletionPercentage := p, profileCompleted := p == 100);
    if nameCleared {
      return Err(InternalError);
    }
    db.users := db.users[k := user];
    r := Ok(user);
  }
}
