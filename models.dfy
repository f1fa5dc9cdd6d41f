/** The back end's tables (`backend/app/db/models.py`) as records, the
    database as an object holding one sequence per table, and the HTTP error
    every endpoint raises (`HTTPException(status_code, detail)`). JSON
    columns hold JSON values; timestamps are integers supplied by the caller;
    a new row's id is the next SQLite rowid (one more than the largest). */
module Models {
  import opened Util
  import opened Json

  datatype User = User(
    id: int,
    fullName: string,
    email: string,
    hashedPassword: Option<string>,
    isVerified: bool,
    isActive: bool,
    linkedinId: Option<string>,
    githubId: Option<string>,
    collegeName: Option<string>,
    branch: Option<string>,
    profileCompleted: bool,
    profileCompletionPercentage: int)

  datatype Experience = Experience(
    id: int,
    userId: int,
    companyName: string,
    role: string,
    packageOffered: Option<real>,
    interviewRounds: Js,
    questionsAsked: Js,
    preparationStrategy: Option<string>,
    resourcesFollowed: Js,
    rejectionReasons: Option<string>,
    finalResult: string,
    isAnonymous: bool,
    isApproved: bool,
    isPublished: bool,
    createdAt: int)

  datatype Bookmark = Bookmark(id: int, userId: int, experienceId: int)

  datatype Admin = Admin(id: int, email: string, hashedPassword: string, role: string, isActive: bool)

  datatype AuditLog = AuditLog(id: int, adminId: Option<int>, action: string, entityType: string, entityId: int, details: Js)

  /** Python truthiness of a stored JSON value; `Undefined` stands for a
      missing key. */
  predicate PyTruthy(j: Js) {
    match j
    case Undefined => false
    case Null => false
    case Bool(b) => b
    case Num(n) => n != 0
    case Str(s) => s != ""
    case Arr(items) => items != []
    case Obj(fields) => fields != []
    case ErrorObj(_) => true
  }

  /** `exp.questions_asked.items()` is reachable: a falsy value is skipped,
      and a truthy one other than a dict has no `items`. */
  predicate QuestionsReadable(e: Experience) {
    !PyTruthy(e.questionsAsked) || e.questionsAsked.Obj?
  }

  /** A truthy `exp.interview_rounds` can be iterated: a list, a dict (its
      keys) or a string (its characters); a truthy number is not iterable. */
  predicate RoundsIterable(e: Experience) {
    !PyTruthy(e.interviewRounds) || e.interviewRounds.Arr? || e.interviewRounds.Obj? || e.interviewRounds.Str?
  }

  /** What iterating a JSON value yields in Python: a list's items, a dict's
      keys, a string's characters; nothing for any other value. */
  function Iterated(j: Js): (r: seq<Js>)
    ensures j.Arr? ==> r == j.items
    ensures j.Obj? ==> |r| == |j.fields| && forall i :: 0 <= i < |r| ==> r[i] == Str(j.fields[i].key)
    ensures j.Str? ==> |r| == |j.s| && forall i :: 0 <= i < |r| ==> r[i] == Str([j.s[i]])
  {
    match j
    case Arr(items) => items
    case Obj(fields) => seq(|fields|, i requires 0 <= i < |fields| => Str(fields[i].key))
    case Str(s) => seq(|s|, i requires 0 <= i < |s| => Str([s[i]]))
    case _ => []
  }

  /** Python refuses a list or a dict as a set element or a dict key: `set()`
      and `Counter()` raise `TypeError` on one. */
  predicate Unhashable(j: Js) {
    j.Arr? || j.Obj? || j.ErrorObj?
  }

  predicate AllHashable(xs: seq<Js>) {
    forall i :: 0 <= i < |xs| ==> !Unhashable(xs[i])
  }

  /** `if company_name:` on an optional string: a filter applies only when given and non-empty. */
  predicate FilterOn(f: Option<string>) {
    f.Some? && f.value != ""
  }

  /** `column.ilike(f"%{text}%")`: an ASCII case-insensitive substring test. */
  predicate ILike(s: string, text: string) {
    Contains(Lower(s), Lower(text))
  }

  /** `d.get(key, default)` on a JSON object's fields. */
  function DictGet(fields: seq<Field>, key: string, default: Js): (r: Js)
    ensures (forall i :: 0 <= i < |fields| ==> fields[i].key != key) ==> r == default
  {
    var v := Lookup(fields, key);
    if v == Undefined then default else v
  }

  /** The JSON columns as the request schemas let them be written:
      `interview_rounds` a list of objects, `questions_asked` an object of
      lists of strings, `resources_followed` a list of strings, each or
      `null`. */
  predicate StoredShape(e: Experience) {
    (e.interviewRounds.Null? || (e.interviewRounds.Arr? && forall r :: r in e.interviewRounds.items ==> r.Obj?)) &&
    (e.questionsAsked.Null? ||
      (e.questionsAsked.Obj? && forall f :: f in e.questionsAsked.fields ==>
         f.value.Arr? && forall q :: q in f.value.items ==> q.Str?)) &&
    (e.resourcesFollowed.Null? || (e.resourcesFollowed.Arr? && forall r :: r in e.resourcesFollowed.items ==> r.Str?))
  }

  /** `HTTPException(status_code, detail)`. */
  datatype HttpError = HttpError(status: int, detail: string)

  /** What the client sees when an exception escapes a handler. */
  const InternalError: HttpError := HttpError(500, "Internal Server Error")

  /** An endpoint's outcome: its response, or the HTTP error it raised. */
  datatype Result<T> = Ok(value: T) | Err(error: HttpError)

  /** What the loop over the experiences appends for each of them, in order. */
  function Gather<T>(es: seq<Experience>, part: Experience -> seq<T>): seq<T> {
    if es == [] then [] else Gather(es[..|es| - 1], part) + part(es[|es| - 1])
  }

  lemma {:induction false} GatherMembers<T>(es: seq<Experience>, part: Experience -> seq<T>, x: T)
    ensures x in Gather(es, part) <==> exists e :: e in es && x in part(e)
  {
    if es != [] {
      var init := es[..|es| - 1];
      GatherMembers(init, part, x);
      assert es == init + [es[|es| - 1]];
    }
  }

  /** A new user as the sign-up flow creates it: only the columns it sets,
      every other one at its declared default. */
  function NewUser(id: int, email: string, fullName: string, hashedPassword: string): (u: User)
    ensures u.id == id && u.email == email && u.fullName == fullName && u.hashedPassword == Some(hashedPassword)
    ensures u.isVerified && u.isActive && !u.profileCompleted && u.profileCompletionPercentage == 0
  {
    User(id, fullName, email, Some(hashedPassword), true, true, None, None, None, None, false, 0)
  }

  /** The largest value in a sequence of ids, 0 for none. */
  function MaxId(ids: seq<int>): (m: int)
    ensures forall i :: 0 <= i < |ids| ==> ids[i] <= m
    ensures ids == [] ==> m == 0
  {
    if ids == [] then 0
    else
      var rest := MaxId(ids[..|ids| - 1]);
      if ids[|ids| - 1] > rest then ids[|ids| - 1] else rest
  }

  /** The id SQLite gives the next row: larger than every id in the table. */
  function NextId(ids: seq<int>): (n: int)
    ensures forall i :: 0 <= i < |ids| ==> ids[i] < n
    ensures n !in ids
  {
    MaxId(ids) + 1
  }

  function UserIds(users: seq<User>): (r: seq<int>)
    ensures |r| == |users| && forall i :: 0 <= i < |users| ==> r[i] == users[i].id
  {
    if users == [] then [] else UserIds(users[..|users| - 1]) + [users[|users| - 1].id]
  }

  function ExperienceIds(es: seq<Experience>): (r: seq<int>)
    ensures |r| == |es| && forall i :: 0 <= i < |es| ==> r[i] == es[i].id
  {
    if es == [] then [] else ExperienceIds(es[..|es| - 1]) + [es[|es| - 1].id]
  }

  function BookmarkIds(bs: seq<Bookmark>): (r: seq<int>)
    ensures |r| == |bs| && forall i :: 0 <= i < |bs| ==> r[i] == bs[i].id
  {
    if bs == [] then [] else BookmarkIds(bs[..|bs| - 1]) + [bs[|bs| - 1].id]
  }

  function AdminIds(as_: seq<Admin>): (r: seq<int>)
    ensures |r| == |as_| && forall i :: 0 <= i < |as_| ==> r[i] == as_[i].id
  {
    if as_ == [] then [] else AdminIds(as_[..|as_| - 1]) + [as_[|as_| - 1].id]
  }

  function AuditIds(ls: seq<AuditLog>): (r: seq<int>)
    ensures |r| == |ls| && forall i :: 0 <= i < |ls| ==> r[i] == ls[i].id
  {
    if ls == [] then [] else AuditIds(ls[..|ls| - 1]) + [ls[|ls| - 1].id]
  }

  /** `db.query(User).filter(User.email == email).first()`. */
  function UserByEmail(users: seq<User>, email: string): (r: Option<nat>)
    ensures r.None? <==> forall i :: 0 <= i < |users| ==> users[i].email != email
    ensures r.Some? ==> (r.value < |users| && users[r.value].email == email &&
                         forall i :: 0 <= i < r.value ==> users[i].email != email)
  {
    if users == [] then None
    else if users[0].email == email then Some(0)
    else match UserByEmail(users[1..], email)
      case None => None
      case Some(k) => Some(k + 1)
  }

  /** `db.query(User).filter(User.id == id).first()`. */
  function UserById(users: seq<User>, id: int): (r: Option<nat>)
    ensures r.None? <==> forall i :: 0 <= i < |users| ==> users[i].id != id
    ensures r.Some? ==> (r.value < |users| && users[r.value].id == id &&
                         forall i :: 0 <= i < r.value ==> users[i].id != id)
  {
    if users == [] then None
    else if users[0].id == id then Some(0)
    else match UserById(users[1..], id)
      case None => None
      case Some(k) => Some(k + 1)
  }

  /** `db.query(Experience).filter(Experience.id == id).first()`. */
  function ExperienceById(es: seq<Experience>, id: int): (r: Option<nat>)
    ensures r.None? <==> forall i :: 0 <= i < |es| ==> es[i].id != id
    ensures r.Some? ==> (r.value < |es| && es[r.value].id == id &&
                         forall i :: 0 <= i < r.value ==> es[i].id != id)
  {
    if es == [] then None
    else if es[0].id == id then Some(0)
    else match ExperienceById(es[1..], id)
      case None => None
      case Some(k) => Some(k + 1)
  }

  /** `db.query(Admin).filter(Admin.email == email).first()`. */
  function AdminByEmail(as_: seq<Admin>, email: string): (r: Option<nat>)
    ensures r.None? <==> forall i :: 0 <= i < |as_| ==> as_[i].email != email
    ensures r.Some? ==> r.value < |as_| && as_[r.value].email == email
  {
    if as_ == [] then None
    else if as_[0].email == email then Some(0)
    else match AdminByEmail(as_[1..], email)
      case None => None
      case Some(k) => Some(k + 1)
  }

  /** A field of a partial-update request (`exclude_unset=True`): left out
      of the body, or sent with a value. */
  datatype Edit<T> = Unset | SetTo(value: T)

  /** Every table at once: the database as an endpoint leaves it. */
  datatype Tables = Tables(
    users: seq<User>,
    experiences: seq<Experience>,
    bookmarks: seq<Bookmark>,
    admins: seq<Admin>,
    auditLogs: seq<AuditLog>)

  /** What an endpoint commits, and its response or the HTTP error it raised. */
  datatype Transaction<T> = Transaction(after: Tables, result: Result<T>)

  /** The database: one sequence of rows per table, committed as each endpoint commits. */
  class Db {
    var users: seq<User>
    var experiences: seq<Experience>
    var bookmarks: seq<Bookmark>
    var admins: seq<Admin>
    var auditLogs: seq<AuditLog>

    constructor ()
      ensures users == [] && experiences == [] && bookmarks == [] && admins == [] && auditLogs == []
    {
      users, experiences, bookmarks, admins, auditLogs := [], [], [], [], [];
    }

    function Contents(): Tables
      reads this
    {
      Tables(users, experiences, bookmarks, admins, auditLogs)
    }
  }
}
