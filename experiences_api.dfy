/** The interview-experience endpoints (`backend/app/api/v1/experiences.py`):
    creating, listing, reading and editing experiences, and the bookmark
    table. Each endpoint is an outcome function over the tables, and a method
    on the database object that is proved to produce that outcome; the
    endpoints that build their answer in a loop keep the loop. The current
    user is the one the authentication dependency resolved; the clock is the
    `now` parameter. */
module ExperiencesApi {
  import opened Util
  import opened Json
  import opened Models

  const ExperienceNotFound: HttpError := HttpError(404, "Experience not found")
  const NotOwner: HttpError := HttpError(403, "Not authorized to update this experience")
  const AlreadyApproved: HttpError := HttpError(400, "Cannot update approved experience")
  const AlreadyBookmarked: HttpError := HttpError(400, "Already bookmarked")
  const BookmarkNotFound: HttpError := HttpError(404, "Bookmark not found")
  const Bookmarked: string := "Experience bookmarked successfully"
  const BookmarkRemoved: string := "Bookmark removed successfully"

  /** `ExperienceResponse`: the row, and the author's name when it is shown. */
  datatype ExperienceView = ExperienceView(experience: Experience, userName: Option<string>)

  function Rows(vs: seq<ExperienceView>): (r: seq<Experience>)
    ensures |r| == |vs| && forall i :: 0 <= i < |vs| ==> r[i] == vs[i].experience
  {
    if vs == [] then [] else Rows(vs[..|vs| - 1]) + [vs[|vs| - 1].experience]
  }

  // ---------------------------------------------------------------------------
  // Author names

  /** The name a read attaches: only for a row that is not anonymous, has a
      (truthy) owner id, and whose owner is found. */
  function UserName(e: Experience, users: seq<User>): (r: Option<string>)
    ensures r.Some? <==> !e.isAnonymous && e.userId != 0 && UserById(users, e.userId).Some?
    ensures r.Some? ==> exists i :: 0 <= i < |users| && users[i].id == e.userId && r.value == users[i].fullName
  {
    if !e.isAnonymous && e.userId != 0 then
      match UserById(users, e.userId)
      case None => None
      case Some(k) => Some(users[k].fullName)
    else None
  }

  function ViewOf(e: Experience, users: seq<User>): ExperienceView {
    ExperienceView(e, UserName(e, users))
  }

  /** The rows with their names, in order. */
  function Views(es: seq<Experience>, users: seq<User>): (r: seq<ExperienceView>)
    ensures |r| == |es| && forall i :: 0 <= i < |es| ==> r[i] == ViewOf(es[i], users)
  {
    if es == [] then [] else Views(es[..|es| - 1], users) + [ViewOf(es[|es| - 1], users)]
  }

  /** One more row read. */
  lemma ViewsSnoc(es: seq<Experience>, i: nat, users: seq<User>)
    requires i < |es|
    ensures Views(es[..i + 1], users) == Views(es[..i], users) + [ViewOf(es[i], users)]
  {
    assert es[..i + 1][..i] == es[..i];
  }

  /** The lookup in the read loop. */
  method AuthorName(exp: Experience, users: seq<User>) returns (userName: Option<string>)
    ensures userName == UserName(exp, users)
  {
    userName := None;
    if !exp.isAnonymous && exp.userId != 0 {
      var user := UserById(users, exp.userId);
      if user.Some? {
        userName := Some(users[user.value].fullName);
      }
    }
  }

  /** No read names the author of an anonymous experience. */
  predicate NamesHidden(vs: seq<ExperienceView>) {
    forall i :: 0 <= i < |vs| && vs[i].experience.isAnonymous ==> vs[i].userName.None?
  }

  lemma ViewsHideAnonymous(es: seq<Experience>, users: seq<User>)
    ensures NamesHidden(Views(es, users))
    ensures Rows(Views(es, users)) == es
  {
    var vs := Views(es, users);
    forall i | 0 <= i < |vs| && vs[i].experience.isAnonymous
      ensures vs[i].userName.None?
    {
      assert vs[i] == ViewOf(es[i], users);
    }
  }

  // ---------------------------------------------------------------------------
  // POST /experiences/

  /** `ExperienceCreateRequest` (the defaults already applied). */
  datatype ExperienceCreate = ExperienceCreate(
    companyName: string,
    role: string,
    packageOffered: Option<real>,
    interviewRounds: Js,
    questionsAsked: Js,
    preparationStrategy: Option<string>,
    resourcesFollowed: Js,
    rejectionReasons: Option<string>,
    finalResult: string,
    isAnonymous: bool)

  /** `Experience(user_id=current_user.id, **request.dict())` after the
      commit: a fresh id, the server clock, and the column defaults (not
      approved, not published). */
  function NewExperience(t: Tables, current: User, req: ExperienceCreate, now: int): Experience {
    Experience(NextId(ExperienceIds(t.experiences)), current.id, req.companyName, req.role, req.packageOffered,
      req.interviewRounds, req.questionsAsked, req.preparationStrategy, req.resourcesFollowed,
      req.rejectionReasons, req.finalResult, req.isAnonymous, false, false, now)
  }

  function CreateExperienceOutcome(t: Tables, current: User, req: ExperienceCreate, now: int): Transaction<ExperienceView> {
    var e := NewExperience(t, current, req, now);
    Transaction(t.(experiences := t.experiences + [e]),
      Ok(ExperienceView(e, if e.isAnonymous then None else Some(current.fullName))))
  }

  /** The new row belongs to the current user, waits for review, carries a
      fresh id and is appended; the author's name is in the answer exactly
      when the experience is not anonymous. */
  lemma CreateExperienceEffect(t: Tables, current: User, req: ExperienceCreate, now: int)
    ensures var o := CreateExperienceOutcome(t, current, req, now);
      var e := o.result.value.experience;
      o.result.Ok? && o.after.experiences == t.experiences + [e] &&
      o.after.users == t.users && o.after.bookmarks == t.bookmarks &&
      e.userId == current.id && !e.isApproved && !e.isPublished && e.createdAt == now &&
      e.isAnonymous == req.isAnonymous && ExperienceById(t.experiences, e.id).None? &&
      (o.result.value.userName.Some? <==> !req.isAnonymous) &&
      (o.result.value.userName.Some? ==> o.result.value.userName.value == current.fullName)
  {
  }

  /** The created experience is then found by id, with the same answer when
      the author is a stored user with a truthy id. */
  lemma CreateThenGet(t: Tables, current: User, req: ExperienceCreate, now: int)
    requires UserById(t.users, current.id) == Some(0) && t.users[0] == current && current.id != 0
    ensures var o := CreateExperienceOutcome(t, current, req, now);
      GetExperienceOutcome(o.after, o.result.value.experience.id) == o.result
  {
    var o := CreateExperienceOutcome(t, current, req, now);
    var e := o.result.value.experience;
    LookupAppended(t.experiences, e);
  }

  /** A fresh id is found at the end of the table. */
  lemma {:induction false} LookupAppended(es: seq<Experience>, e: Experience)
    requires ExperienceById(es, e.id).None?
    ensures ExperienceById(es + [e], e.id) == Some(|es|)
  {
    if es != [] {
      assert (es + [e])[1..] == es[1..] + [e];
      LookupAppended(es[1..], e);
    }
  }

  // ---------------------------------------------------------------------------
  // GET /experiences/

  predicate Matches(e: Experience, company: Option<string>, role: Option<string>, publishedOnly: bool) {
    (!publishedOnly || e.isPublished) &&
    (!FilterOn(company) || ILike(e.companyName, company.value)) &&
    (!FilterOn(role) || ILike(e.role, role.value))
  }

  /** `ORDER BY created_at DESC`. */
  predicate NewestFirst(es: seq<Experience>) {
    forall i, j :: 0 <= i < j < |es| ==> es[i].createdAt >= es[j].createdAt
  }

  function InsertByDate(e: Experience, es: seq<Experience>): (r: seq<Experience>)
    requires NewestFirst(es)
    ensures NewestFirst(r) && multiset(r) == multiset(es) + multiset{e}
    ensures |r| > 0 && (r[0] == e || (es != [] && r[0] == es[0]))
  {
    if es == [] || e.createdAt >= es[0].createdAt then [e] + es
    else
      var rest := InsertByDate(e, es[1..]);
      assert es == [es[0]] + es[1..];
      InsertStep(es[0], e, es[1..], rest);
      [es[0]] + rest
  }

  /** The row kept in front of an insertion further down is still the latest. */
  lemma InsertStep(x: Experience, e: Experience, tail: seq<Experience>, rest: seq<Experience>)
    requires NewestFirst([x] + tail) && NewestFirst(rest) && e.createdAt < x.createdAt
    requires multiset(rest) == multiset(tail) + multiset{e}
    ensures NewestFirst([x] + rest)
  {
    var r := [x] + rest;
    forall j | 0 < j < |r|
      ensures x.createdAt >= r[j].createdAt
    {
      var y := r[j];
      assert y == rest[j - 1] && y in multiset(rest);
      if y != e {
        assert y in tail;
        var k :| 0 <= k < |tail| && tail[k] == y;
        assert ([x] + tail)[0] == x && ([x] + tail)[k + 1] == y;
      }
    }
    forall i, j | 0 <= i < j < |r|
      ensures r[i].createdAt >= r[j].createdAt
    {
      if 0 < i {
        assert r[i] == rest[i - 1] && r[j] == rest[j - 1];
      }
    }
  }

  /** The query's ordering: the rows rearranged, latest first. */
  function ByDate(es: seq<Experience>): (r: seq<Experience>)
    ensures NewestFirst(r) && multiset(r) == multiset(es)
  {
    if es == [] then []
    else
      assert es == [es[0]] + es[1..];
      InsertByDate(es[0], ByDate(es[1..]))
  }

  function Query(t: Tables, company: Option<string>, role: Option<string>, publishedOnly: bool): seq<Experience> {
    ByDate(FilterSeq(t.experiences, e => Matches(e, company, role, publishedOnly)))
  }

  /** The list endpoint's answer. */
  function ListingOutcome(t: Tables, company: Option<string>, role: Option<string>, publishedOnly: bool): seq<ExperienceView> {
    Views(Query(t, company, role, publishedOnly), t.users)
  }

  /** The listing is latest first, hides anonymous authors, and holds
      exactly the stored rows that pass the filters, each once per row. */
  lemma ListingContents(t: Tables, company: Option<string>, role: Option<string>, publishedOnly: bool)
    ensures var vs := ListingOutcome(t, company, role, publishedOnly);
      NewestFirst(Rows(vs)) && NamesHidden(vs) &&
      multiset(Rows(vs)) == multiset(FilterSeq(t.experiences, e => Matches(e, company, role, publishedOnly)))
  {
    ViewsHideAnonymous(Query(t, company, role, publishedOnly), t.users);
  }

  /** A row is listed exactly when it is stored and passes every filter. */
  lemma ListingMembers(t: Tables, company: Option<string>, role: Option<string>, publishedOnly: bool, e: Experience)
    ensures e in Rows(ListingOutcome(t, company, role, publishedOnly)) <==>
      e in t.experiences && Matches(e, company, role, publishedOnly)
  {
    var p := (x: Experience) => Matches(x, company, role, publishedOnly);
    var f := FilterSeq(t.experiences, p);
    ListingContents(t, company, role, publishedOnly);
    assert e in Rows(ListingOutcome(t, company, role, publishedOnly)) <==> e in multiset(f);
    if e in t.experiences && p(e) {
      var i :| 0 <= i < |t.experiences| && t.experiences[i] == e;
      assert e in f;
    }
  }

  /** The company and role filters ignore case. */
  lemma FiltersIgnoreCase(t: Tables, company: string, role: string, publishedOnly: bool)
    ensures ListingOutcome(t, Some(company), Some(role), publishedOnly) ==
            ListingOutcome(t, Some(Lower(company)), Some(Lower(role)), publishedOnly)
  {
    LowerIdempotent(company);
    LowerIdempotent(role);
    var p := (x: Experience) => Matches(x, Some(company), Some(role), publishedOnly);
    var q := (x: Experience) => Matches(x, Some(Lower(company)), Some(Lower(role)), publishedOnly);
    assert forall x :: p(x) == q(x);
    FilterSame(t.experiences, p, q);
  }

  /** An empty filter is no filter. */
  lemma EmptyFilterIgnored(t: Tables, role: Option<string>, publishedOnly: bool)
    ensures ListingOutcome(t, Some(""), role, publishedOnly) == ListingOutcome(t, None, role, publishedOnly)
  {
    var p := (x: Experience) => Matches(x, Some(""), role, publishedOnly);
    var q := (x: Experience) => Matches(x, None, role, publishedOnly);
    FilterSame(t.experiences, p, q);
  }

  lemma {:induction false} FilterSame<T>(s: seq<T>, p: T -> bool, q: T -> bool)
    requires forall x :: p(x) == q(x)
    ensures FilterSeq(s, p) == FilterSeq(s, q)
  {
    if s != [] {
      FilterSame(s[..|s| - 1], p, q);
    }
  }

  /** `get_experiences`' loop over the sorted rows. */
  method GetExperiences(db: Db, company: Option<string>, role: Option<string>, publishedOnly: bool)
    returns (results: seq<ExperienceView>)
    ensures results == ListingOutcome(db.Contents(), company, role, publishedOnly)
  {
    var experiences := Query(db.Contents(), company, role, publishedOnly);
    results := [];
    var i := 0;
    while i < |experiences|
      invariant 0 <= i <= |experiences|
      invariant results == Views(experiences[..i], db.users)
    {
      var exp := experiences[i];
      var userName := AuthorName(exp, db.users);
      ViewsSnoc(experiences, i, db.users);
      results := results + [ExperienceView(exp, userName)];
      i := i + 1;
    }
    assert experiences[..|experiences|] == experiences;
  }

  // ---------------------------------------------------------------------------
  // GET /experiences/my-experiences and GET /experiences/{id}

  /** The current user's rows, latest first, without author names. */
  function MyExperiencesOutcome(t: Tables, userId: int): (r: seq<ExperienceView>)
    ensures forall i :: 0 <= i < |r| ==> r[i].userName.None?
  {
    var mine := ByDate(FilterSeq(t.experiences, (e: Experience) => e.userId == userId));
    seq(|mine|, i requires 0 <= i < |mine| => ExperienceView(mine[i], None))
  }

  /** A row is in "my experiences" exactly when the current user owns it. */
  lemma MyExperiencesMembers(t: Tables, userId: int, e: Experience)
    ensures var r := MyExperiencesOutcome(t, userId);
      NewestFirst(Rows(r)) && (e in Rows(r) <==> e in t.experiences && e.userId == userId)
  {
    var p := (x: Experience) => x.userId == userId;
    var f := FilterSeq(t.experiences, p);
    var r := MyExperiencesOutcome(t, userId);
    assert Rows(r) == ByDate(f);
    if e in t.experiences && e.userId == userId {
      assert e in f;
      assert e in multiset(ByDate(f));
    }
    if e in Rows(r) {
      assert e in multiset(f);
    }
  }

  function GetExperienceOutcome(t: Tables, id: int): Result<ExperienceView> {
    match ExperienceById(t.experiences, id)
    case None => Err(ExperienceNotFound)
    case Some(k) => Ok(ViewOf(t.experiences[k], t.users))
  }

  /** 404 exactly when no row has the id; otherwise the first such row, its
      author hidden when anonymous. */
  lemma GetExperienceCases(t: Tables, id: int)
    ensures GetExperienceOutcome(t, id) == Err(ExperienceNotFound) <==>
      forall i :: 0 <= i < |t.experiences| ==> t.experiences[i].id != id
    ensures var r := GetExperienceOutcome(t, id);
      r.Ok? ==> r.value.experience in t.experiences && r.value.experience.id == id &&
                (r.value.experience.isAnonymous ==> r.value.userName.None?)
  {
  }

  // ---------------------------------------------------------------------------
  // PUT /experiences/{id}

  /** `ExperienceUpdateRequest`; a field sent as `null` is `SetTo(None)` or `SetTo(Null)`. */
  datatype ExperienceUpdate = ExperienceUpdate(
    companyName: Edit<Option<string>>,
    role: Edit<Option<string>>,
    packageOffered: Edit<Option<real>>,
    interviewRounds: Edit<Js>,
    questionsAsked: Edit<Js>,
    preparationStrategy: Edit<Option<string>>,
    resourcesFollowed: Edit<Js>,
    rejectionReasons: Edit<Option<string>>,
    finalResult: Edit<Option<string>>,
    isAnonymous: Edit<bool>)

  /** One `(field, value)` item of `request.dict(exclude_unset=True)`. */
  datatype Assignment =
    | CompanyName(Option<string>)
    | Role(Option<string>)
    | PackageOffered(Option<real>)
    | InterviewRounds(Js)
    | QuestionsAsked(Js)
    | PreparationStrategy(Option<string>)
    | ResourcesFollowed(Js)
    | RejectionReasons(Option<string>)
    | FinalResult(Option<string>)
    | IsAnonymous(bool)

  /** Each field's item: present exactly when the request sets the field. */
  function CompanyNameItem(req: ExperienceUpdate): seq<Assignment> {
    if req.companyName.SetTo? then [CompanyName(req.companyName.value)] else []
  }

  function RoleItem(req: ExperienceUpdate): seq<Assignment> {
    if req.role.SetTo? then [Role(req.role.value)] else []
  }

  function PackageOfferedItem(req: ExperienceUpdate): seq<Assignment> {
    if req.packageOffered.SetTo? then [PackageOffered(req.packageOffered.value)] else []
  }

  function InterviewRoundsItem(req: ExperienceUpdate): seq<Assignment> {
    if req.interviewRounds.SetTo? then [InterviewRounds(req.interviewRounds.value)] else []
  }

  function QuestionsAskedItem(req: ExperienceUpdate): seq<Assignment> {
    if req.questionsAsked.SetTo? then [QuestionsAsked(req.questionsAsked.value)] else []
  }

  function PreparationStrategyItem(req: ExperienceUpdate): seq<Assignment> {
    if req.preparationStrategy.SetTo? then [PreparationStrategy(req.preparationStrategy.value)] else []
  }

  function ResourcesFollowedItem(req: ExperienceUpdate): seq<Assignment> {
    if req.resourcesFollowed.SetTo? then [ResourcesFollowed(req.resourcesFollowed.value)] else []
  }

  function RejectionReasonsItem(req: ExperienceUpdate): seq<Assignment> {
    if req.rejectionReasons.SetTo? then [RejectionReasons(req.rejectionReasons.value)] else []
  }

  function FinalResultItem(req: ExperienceUpdate): seq<Assignment> {
    if req.finalResult.SetTo? then [FinalResult(req.finalResult.value)] else []
  }

  function IsAnonymousItem(req: ExperienceUpdate): seq<Assignment> {
    if req.isAnonymous.SetTo? then [IsAnonymous(req.isAnonymous.value)] else []
  }

  /** `request.dict(exclude_unset=True).items()`: the set fields, in declaration order. */
  function UpdateData(req: ExperienceUpdate): seq<Assignment> {
    CompanyNameItem(req) + RoleItem(req) + PackageOfferedItem(req) + InterviewRoundsItem(req) +
    QuestionsAskedItem(req) + PreparationStrategyItem(req) + ResourcesFollowedItem(req) +
    RejectionReasonsItem(req) + FinalResultItem(req) + IsAnonymousItem(req)
  }

  /** `setattr(experience, field, value)`. A `null` for a NOT NULL column is
      left for the commit to refuse. */
  function SetAttr(e: Experience, a: Assignment): Experience {
    match a
    case CompanyName(v) => if v.Some? then e.(companyName := v.value) else e
    case Role(v) => if v.Some? then e.(role := v.value) else e
    case PackageOffered(v) => e.(packageOffered := v)
    case InterviewRounds(v) => e.(interviewRounds := v)
    case QuestionsAsked(v) => e.(questionsAsked := v)
    case PreparationStrategy(v) => e.(preparationStrategy := v)
    case ResourcesFollowed(v) => e.(resourcesFollowed := v)
    case RejectionReasons(v) => e.(rejectionReasons := v)
    case FinalResult(v) => if v.Some? then e.(finalResult := v.value) else e
    case IsAnonymous(v) => e.(isAnonymous := v)
  }

  function SetAll(e: Experience, items: seq<Assignment>): Experience {
    if items == [] then e else SetAttr(SetAll(e, items[..|items| - 1]), items[|items| - 1])
  }

  /** The request read column by column: a sent value replaces the stored
      one, an omitted field keeps it. */
  function Patched(e: Experience, req: ExperienceUpdate): Experience {
    e.(companyName := if req.companyName.SetTo? && req.companyName.value.Some? then req.companyName.value.value else e.companyName,
       role := if req.role.SetTo? && req.role.value.Some? then req.role.value.value else e.role,
       packageOffered := if req.packageOffered.SetTo? then req.packageOffered.value else e.packageOffered,
       interviewRounds := if req.interviewRounds.SetTo? then req.interviewRounds.value else e.interviewRounds,
       questionsAsked := if req.questionsAsked.SetTo? then req.questionsAsked.value else e.questionsAsked,
       preparationStrategy := if req.preparationStrategy.SetTo? then req.preparationStrategy.value else e.preparationStrategy,
       resourcesFollowed := if req.resourcesFollowed.SetTo? then req.resourcesFollowed.value else e.resourcesFollowed,
       rejectionReasons := if req.rejectionReasons.SetTo? then req.rejectionReasons.value else e.rejectionReasons,
       finalResult := if req.finalResult.SetTo? && req.finalResult.value.Some? then req.finalResult.value.value else e.finalResult,
       isAnonymous := if req.isAnonymous.SetTo? then req.isAnonymous.value else e.isAnonymous)
  }

  /** A request that sends `null` for company, role or result. */
  predicate ClearsRequired(req: ExperienceUpdate) {
    req.companyName == SetTo(None) || req.role == SetTo(None) || req.finalResult == SetTo(None)
  }

  function UpdateExperienceOutcome(t: Tables, userId: int, id: int, req: ExperienceUpdate): Transaction<ExperienceView> {
    match ExperienceById(t.experiences, id)
    case None => Transaction(t, Err(ExperienceNotFound))
    case Some(k) =>
      var e := t.experiences[k];
      if e.userId != userId then Transaction(t, Err(NotOwner))
      else if e.isApproved then Transaction(t, Err(AlreadyApproved))
      else if ClearsRequired(req) then Transaction(t, Err(InternalError))
      else
        var e' := SetAll(e, UpdateData(req));
        Transaction(t.(experiences := t.experiences[k := e']), Ok(ExperienceView(e', None)))
  }

  lemma {:induction false} SetAllAppend(e: Experience, a: seq<Assignment>, b: seq<Assignment>)
    ensures SetAll(e, a + b) == SetAll(SetAll(e, a), b)
  {
    if b == [] {
      assert a + b == a;
    } else {
      assert (a + b)[..|a + b| - 1] == a + b[..|b| - 1];
      assert (a + b)[|a + b| - 1] == b[|b| - 1];
      SetAllAppend(e, a, b[..|b| - 1]);
    }
  }

  /** Assigning no item or one. */
  lemma SetAllShort(e: Experience, items: seq<Assignment>)
    requires |items| <= 1
    ensures SetAll(e, items) == if items == [] then e else SetAttr(e, items[0])
  {
    if items != [] {
      assert items[..0] == [];
    }
  }

  /** Appending at most one item assigns it last. */
  lemma SetAllThen(e: Experience, a: seq<Assignment>, b: seq<Assignment>)
    requires |b| <= 1
    ensures SetAll(e, a + b) == if b == [] then SetAll(e, a) else SetAttr(SetAll(e, a), b[0])
  {
    SetAllAppend(e, a, b);
    SetAllShort(SetAll(e, a), b);
  }

  /** Each field's item assigns that column (a NOT NULL column only to a value). */
  lemma CompanyNameStep(e: Experience, a: seq<Assignment>, req: ExperienceUpdate)
    ensures var y := SetAll(e, a);
      SetAll(e, a + CompanyNameItem(req)) == y.(companyName := if req.companyName.SetTo? && req.companyName.value.Some? then req.companyName.value.value else y.companyName)
  {
    SetAllThen(e, a, CompanyNameItem(req));
    if req.companyName.SetTo? {
      assert CompanyNameItem(req) == [CompanyName(req.companyName.value)];
    }
  }

  lemma RoleStep(e: Experience, a: seq<Assignment>, req: ExperienceUpdate)
    ensures var y := SetAll(e, a);
      SetAll(e, a + RoleItem(req)) == y.(role := if req.role.SetTo? && req.role.value.Some? then req.role.value.value else y.role)
  {
    SetAllThen(e, a, RoleItem(req));
    if req.role.SetTo? {
      assert RoleItem(req) == [Role(req.role.value)];
    }
  }

  lemma PackageOfferedStep(e: Experience, a: seq<Assignment>, req: ExperienceUpdate)
    ensures var y := SetAll(e, a);
      SetAll(e, a + PackageOfferedItem(req)) == y.(packageOffered := if req.packageOffered.SetTo? then req.packageOffered.value else y.packageOffered)
  {
    SetAllThen(e, a, PackageOfferedItem(req));
  }

  lemma InterviewRoundsStep(e: Experience, a: seq<Assignment>, req: ExperienceUpdate)
    ensures var y := SetAll(e, a);
      SetAll(e, a + InterviewRoundsItem(req)) == y.(interviewRounds := if req.interviewRounds.SetTo? then req.interviewRounds.value else y.interviewRounds)
  {
    SetAllThen(e, a, InterviewRoundsItem(req));
  }

  lemma QuestionsAskedStep(e: Experience, a: seq<Assignment>, req: ExperienceUpdate)
    ensures var y := SetAll(e, a);
      SetAll(e, a + QuestionsAskedItem(req)) == y.(questionsAsked := if req.questionsAsked.SetTo? then req.questionsAsked.value else y.questionsAsked)
  {
    SetAllThen(e, a, QuestionsAskedItem(req));
  }

  lemma PreparationStrategyStep(e: Experience, a: seq<Assignment>, req: ExperienceUpdate)
    ensures var y := SetAll(e, a);
      SetAll(e, a + PreparationStrategyItem(req)) == y.(preparationStrategy := if req.preparationStrategy.SetTo? then req.preparationStrategy.value else y.preparationStrategy)
  {
    SetAllThen(e, a, PreparationStrategyItem(req));
  }

  lemma ResourcesFollowedStep(e: Experience, a: seq<Assignment>, req: ExperienceUpdate)
    ensures var y := SetAll(e, a);
      SetAll(e, a + ResourcesFollowedItem(req)) == y.(resourcesFollowed := if req.resourcesFollowed.SetTo? then req.resourcesFollowed.value else y.resourcesFollowed)
  {
    SetAllThen(e, a, ResourcesFollowedItem(req));
  }

  lemma RejectionReasonsStep(e: Experience, a: seq<Assignment>, req: ExperienceUpdate)
    ensures var y := SetAll(e, a);
      SetAll(e, a + RejectionReasonsItem(req)) == y.(rejectionReasons := if req.rejectionReasons.SetTo? then req.rejectionReasons.value else y.rejectionReasons)
  {
    SetAllThen(e, a, RejectionReasonsItem(req));
  }

  lemma FinalResultStep(e: Experience, a: seq<Assignment>, req: ExperienceUpdate)
    ensures var y := SetAll(e, a);
      SetAll(e, a + FinalResultItem(req)) == y.(finalResult := if req.finalResult.SetTo? && req.finalResult.value.Some? then req.finalResult.value.value else y.finalResult)
  {
    SetAllThen(e, a, FinalResultItem(req));
    if req.finalResult.SetTo? {
      assert FinalResultItem(req) == [FinalResult(req.finalResult.value)];
    }
  }

  lemma IsAnonymousStep(e: Experience, a: seq<Assignment>, req: ExperienceUpdate)
    ensures var y := SetAll(e, a);
      SetAll(e, a + IsAnonymousItem(req)) == y.(isAnonymous := if req.isAnonymous.SetTo? then req.isAnonymous.value else y.isAnonymous)
  {
    SetAllThen(e, a, IsAnonymousItem(req));
  }

  /** Assigning the items one after the other is the column-by-column patch. */
  lemma SetAllPatched(e: Experience, req: ExperienceUpdate)
    ensures SetAll(e, UpdateData(req)) == Patched(e, req)
  {
    assert [] + CompanyNameItem(req) == CompanyNameItem(req);
    CompanyNameStep(e, [], req);
    var a := CompanyNameItem(req);
    RoleStep(e, a, req);
    a := a + RoleItem(req);
    PackageOfferedStep(e, a, req);
    a := a + PackageOfferedItem(req);
    InterviewRoundsStep(e, a, req);
    a := a + InterviewRoundsItem(req);
    QuestionsAskedStep(e, a, req);
    a := a + QuestionsAskedItem(req);
    PreparationStrategyStep(e, a, req);
    a := a + PreparationStrategyItem(req);
    ResourcesFollowedStep(e, a, req);
    a := a + ResourcesFollowedItem(req);
    RejectionReasonsStep(e, a, req);
    a := a + RejectionReasonsItem(req);
    FinalResultStep(e, a, req);
    a := a + FinalResultItem(req);
    IsAnonymousStep(e, a, req);
    a := a + IsAnonymousItem(req);
    assert a == UpdateData(req);
  }

  /** Refusals, in the order the endpoint checks them; none changes a table. */
  lemma UpdateExperienceRefusals(t: Tables, userId: int, id: int, req: ExperienceUpdate)
    ensures var o := UpdateExperienceOutcome(t, userId, id, req);
      var k := ExperienceById(t.experiences, id);
      (o.result == Err(ExperienceNotFound) <==> k.None?) &&
      (o.result == Err(NotOwner) <==> k.Some? && t.experiences[k.value].userId != userId) &&
      (o.result == Err(AlreadyApproved) <==> k.Some? && t.experiences[k.value].userId == userId && t.experiences[k.value].isApproved) &&
      (o.result.Err? ==> o.after == t)
  {
  }

  /** An accepted update rewrites exactly the owner's row, column by column
      as sent; its id, owner, review flags and date stay. */
  lemma UpdateExperienceEffect(t: Tables, userId: int, id: int, req: ExperienceUpdate)
    requires UpdateExperienceOutcome(t, userId, id, req).result.Ok?
    ensures var o := UpdateExperienceOutcome(t, userId, id, req);
      var k := ExperienceById(t.experiences, id).value;
      var e := t.experiences[k];
      var e' := o.result.value.experience;
      e.userId == userId && !e.isApproved && !ClearsRequired(req) &&
      e' == Patched(e, req) && o.after == t.(experiences := t.experiences[k := e']) &&
      e'.id == e.id && e'.userId == e.userId && e'.isApproved == e.isApproved &&
      e'.isPublished == e.isPublished && e'.createdAt == e.createdAt
  {
    SetAllPatched(t.experiences[ExperienceById(t.experiences, id).value], req);
  }

  /** Approved rows are never edited. */
  lemma ApprovedRowsFrozen(t: Tables, userId: int, id: int, req: ExperienceUpdate, i: int)
    requires 0 <= i < |t.experiences| && t.experiences[i].isApproved
    ensures var o := UpdateExperienceOutcome(t, userId, id, req);
      |o.after.experiences| == |t.experiences| && o.after.experiences[i] == t.experiences[i]
  {
  }

  // ---------------------------------------------------------------------------
  // Bookmarks

  /** The first bookmark of the user on the experience. */
  function FindBookmark(bs: seq<Bookmark>, userId: int, experienceId: int): (r: Option<nat>)
    ensures r.None? <==> forall i :: 0 <= i < |bs| ==> !(bs[i].userId == userId && bs[i].experienceId == experienceId)
    ensures r.Some? ==> (r.value < |bs| && bs[r.value].userId == userId && bs[r.value].experienceId == experienceId &&
                         forall i :: 0 <= i < r.value ==> !(bs[i].userId == userId && bs[i].experienceId == experienceId))
  {
    if bs == [] then None
    else if bs[0].userId == userId && bs[0].experienceId == experienceId then Some(0)
    else match FindBookmark(bs[1..], userId, experienceId)
      case None => None
      case Some(k) => Some(k + 1)
  }

  /** No user bookmarks the same experience twice. */
  predicate UniquePairs(bs: seq<Bookmark>) {
    forall i, j :: 0 <= i < j < |bs| ==> !(bs[i].userId == bs[j].userId && bs[i].experienceId == bs[j].experienceId)
  }

  /** The experiences a user has bookmarked. */
  function BookmarkedIds(bs: seq<Bookmark>, userId: int): set<int> {
    set b | b in bs && b.userId == userId :: b.experienceId
  }

  function BookmarkOutcome(t: Tables, userId: int, experienceId: int): Transaction<string> {
    if ExperienceById(t.experiences, experienceId).None? then Transaction(t, Err(ExperienceNotFound))
    else if FindBookmark(t.bookmarks, userId, experienceId).Some? then Transaction(t, Err(AlreadyBookmarked))
    else
      var b := Bookmark(NextId(BookmarkIds(t.bookmarks)), userId, experienceId);
      Transaction(t.(bookmarks := t.bookmarks + [b]), Ok(Bookmarked))
  }

  /** 404 for a missing experience, then 400 for a pair already stored;
      otherwise exactly one bookmark is added and the pairs stay unique. */
  lemma BookmarkEffect(t: Tables, userId: int, experienceId: int)
    ensures var o := BookmarkOutcome(t, userId, experienceId);
      (o.result == Err(ExperienceNotFound) <==> ExperienceById(t.experiences, experienceId).None?) &&
      (o.result == Err(AlreadyBookmarked) <==>
        ExperienceById(t.experiences, experienceId).Some? && FindBookmark(t.bookmarks, userId, experienceId).Some?) &&
      (o.result.Err? ==> o.after == t) &&
      (o.result.Ok? ==> (o.after.experiences == t.experiences && |o.after.bookmarks| == |t.bookmarks| + 1 &&
                         o.after.bookmarks[..|t.bookmarks|] == t.bookmarks &&
                         o.after.bookmarks[|t.bookmarks|].userId == userId &&
                         o.after.bookmarks[|t.bookmarks|].experienceId == experienceId))
    ensures UniquePairs(t.bookmarks) ==> UniquePairs(BookmarkOutcome(t, userId, experienceId).after.bookmarks)
  {
  }

  /** The user's bookmarked set gains the experience; no other user's changes. */
  lemma BookmarkSet(t: Tables, userId: int, experienceId: int, other: int)
    requires BookmarkOutcome(t, userId, experienceId).result.Ok?
    ensures var bs := BookmarkOutcome(t, userId, experienceId).after.bookmarks;
      BookmarkedIds(bs, userId) == BookmarkedIds(t.bookmarks, userId) + {experienceId} &&
      (other != userId ==> BookmarkedIds(bs, other) == BookmarkedIds(t.bookmarks, other))
  {
    var bs := BookmarkOutcome(t, userId, experienceId).after.bookmarks;
    assert bs[|t.bookmarks|] in bs;
  }

  function RemoveBookmarkOutcome(t: Tables, userId: int, experienceId: int): Transaction<string> {
    match FindBookmark(t.bookmarks, userId, experienceId)
    case None => Transaction(t, Err(BookmarkNotFound))
    case Some(k) => Transaction(t.(bookmarks := t.bookmarks[..k] + t.bookmarks[k + 1..]), Ok(BookmarkRemoved))
  }

  /** 404 exactly when the pair is not stored; otherwise one bookmark goes,
      the rest keep their order, and the pairs stay unique. */
  lemma RemoveBookmarkEffect(t: Tables, userId: int, experienceId: int)
    ensures var o := RemoveBookmarkOutcome(t, userId, experienceId);
      var k := FindBookmark(t.bookmarks, userId, experienceId);
      (o.result == Err(BookmarkNotFound) <==> k.None?) && (o.result.Err? ==> o.after == t) &&
      (o.result.Ok? ==> o.after.experiences == t.experiences && o.after.bookmarks == t.bookmarks[..k.value] + t.bookmarks[k.value + 1..])
    ensures UniquePairs(t.bookmarks) ==> UniquePairs(RemoveBookmarkOutcome(t, userId, experienceId).after.bookmarks)
  {
    var k := FindBookmark(t.bookmarks, userId, experienceId);
    if k.Some? && UniquePairs(t.bookmarks) {
      RemovedUnique(t.bookmarks, k.value);
    }
  }

  /** Taking one bookmark out keeps the rest unique. */
  lemma RemovedUnique(bs: seq<Bookmark>, k: nat)
    requires k < |bs| && UniquePairs(bs)
    ensures UniquePairs(bs[..k] + bs[k + 1..])
  {
    var rest := bs[..k] + bs[k + 1..];
    forall i, j | 0 <= i < j < |rest|
      ensures !(rest[i].userId == rest[j].userId && rest[i].experienceId == rest[j].experienceId)
    {
      RemovedAt(bs, k, i);
      RemovedAt(bs, k, j);
    }
  }

  /** Position `i` after the removal is `i` or `i + 1` before it. */
  lemma RemovedAt(bs: seq<Bookmark>, k: nat, i: nat)
    requires k < |bs| && i < |bs| - 1
    ensures (bs[..k] + bs[k + 1..])[i] == bs[if i < k then i else i + 1]
  {
    if i < k {
      assert (bs[..k] + bs[k + 1..])[i] == bs[..k][i];
    } else {
      assert (bs[..k] + bs[k + 1..])[i] == bs[k + 1..][i - k];
    }
  }

  /** With unique pairs, removing takes the experience out of the user's set
      and leaves every other user's set alone. */
  lemma RemoveBookmarkSet(t: Tables, userId: int, experienceId: int, other: int)
    requires UniquePairs(t.bookmarks)
    requires RemoveBookmarkOutcome(t, userId, experienceId).result.Ok?
    ensures var bs := RemoveBookmarkOutcome(t, userId, experienceId).after.bookmarks;
      BookmarkedIds(bs, userId) == BookmarkedIds(t.bookmarks, userId) - {experienceId} &&
      (other != userId ==> BookmarkedIds(bs, other) == BookmarkedIds(t.bookmarks, other))
  {
    var k := FindBookmark(t.bookmarks, userId, experienceId).value;
    var bs := RemoveBookmarkOutcome(t, userId, experienceId).after.bookmarks;
    forall b | b in t.bookmarks && b != t.bookmarks[k]
      ensures b in bs
    {
      RemovedKeeps(t.bookmarks, k, b);
    }
    forall b | b in bs
      ensures b in t.bookmarks && !(b.userId == userId && b.experienceId == experienceId)
    {
      RemovedFrom(t.bookmarks, k, b);
    }
  }

  lemma RemovedKeeps(bs: seq<Bookmark>, k: nat, b: Bookmark)
    requires k < |bs| && b in bs && b != bs[k]
    ensures b in bs[..k] + bs[k + 1..]
  {
    var i :| 0 <= i < |bs| && bs[i] == b;
    if i < k {
      assert (bs[..k] + bs[k + 1..])[i] == b;
    } else {
      assert (bs[..k] + bs[k + 1..])[i - 1] == b;
    }
  }

  lemma RemovedFrom(bs: seq<Bookmark>, k: nat, b: Bookmark)
    requires k < |bs| && UniquePairs(bs) && b in bs[..k] + bs[k + 1..]
    ensures b in bs && !(b.userId == bs[k].userId && b.experienceId == bs[k].experienceId)
  {
    var rest := bs[..k] + bs[k + 1..];
    var i :| 0 <= i < |rest| && rest[i] == b;
    if i < k {
      assert rest[i] == bs[..k][i] == bs[i];
    } else {
      assert rest[i] == bs[k + 1..][i - k] == bs[i + 1];
    }
  }

  /** Bookmarking and then removing the bookmark restores the table. */
  lemma BookmarkThenRemove(t: Tables, userId: int, experienceId: int)
    requires BookmarkOutcome(t, userId, experienceId).result.Ok?
    ensures var o := BookmarkOutcome(t, userId, experienceId);
      RemoveBookmarkOutcome(o.after, userId, experienceId) == Transaction(t, Ok(BookmarkRemoved))
  {
    var b := Bookmark(NextId(BookmarkIds(t.bookmarks)), userId, experienceId);
    var bs := t.bookmarks + [b];
    assert BookmarkOutcome(t, userId, experienceId).after.bookmarks == bs;
    FindAppended(t.bookmarks, b);
    assert bs[..|t.bookmarks|] + bs[|t.bookmarks| + 1..] == t.bookmarks;
  }

  /** A bookmark appended to a table without its pair is found at the end. */
  lemma {:induction false} FindAppended(bs: seq<Bookmark>, b: Bookmark)
    requires FindBookmark(bs, b.userId, b.experienceId).None?
    ensures FindBookmark(bs + [b], b.userId, b.experienceId) == Some(|bs|)
  {
    if bs != [] {
      assert (bs + [b])[1..] == bs[1..] + [b];
      FindAppended(bs[1..], b);
    }
  }

  /** `GET /experiences/bookmarks/all`: the stored rows (in table order)
      whose id the user has bookmarked, with author names. */
  function BookmarkedOutcome(t: Tables, userId: int): seq<ExperienceView> {
    var ids := BookmarkedIds(t.bookmarks, userId);
    Views(FilterSeq(t.experiences, (e: Experience) => e.id in ids), t.users)
  }

  /** A row is listed exactly when the user has a bookmark on its id; no
      anonymous author is named. */
  lemma BookmarkedMembers(t: Tables, userId: int, e: Experience)
    ensures var vs := BookmarkedOutcome(t, userId);
      NamesHidden(vs) &&
      (e in Rows(vs) <==> e in t.experiences && exists b :: b in t.bookmarks && b.userId == userId && b.experienceId == e.id)
  {
    var ids := BookmarkedIds(t.bookmarks, userId);
    var f := FilterSeq(t.experiences, (x: Experience) => x.id in ids);
    ViewsHideAnonymous(f, t.users);
    if e in t.experiences && e.id in ids {
      var i :| 0 <= i < |t.experiences| && t.experiences[i] == e;
      assert e in f;
    }
  }

  // ---------------------------------------------------------------------------
  // The endpoints over the database

  method CreateExperience(db: Db, current: User, req: ExperienceCreate, now: int) returns (r: Result<ExperienceView>)
    modifies db
    ensures Transaction(db.Contents(), r) == CreateExperienceOutcome(old(db.Contents()), current, req, now)
  {
    var experience := NewExperience(db.Contents(), current, req, now);
    db.experiences := db.experiences + [experience];
    var userName := None;
    if !experience.isAnonymous {
      userName := Some(current.fullName);
    }
    r := Ok(ExperienceView(experience, userName));
  }

  method UpdateExperience(db: Db, userId: int, id: int, req: ExperienceUpdate) returns (r: Result<ExperienceView>)
    modifies db
    ensures Transaction(db.Contents(), r) == UpdateExperienceOutcome(old(db.Contents()), userId, id, req)
  {
    var found := ExperienceById(db.experiences, id);
    if found.None? {
      return Err(ExperienceNotFound);
    }
    var k := found.value;
    var experience := db.experiences[k];
    if experience.userId != userId {
      return Err(NotOwner);
    }
    if experience.isApproved {
      return Err(AlreadyApproved);
    }
    var updateData := UpdateData(req);
    var refused;
    experience, refused := AssignAll(experience, updateData);
    RefusedIffClears(req);
    if refused {
      return Err(InternalError);
    }
    db.experiences := db.experiences[k := experience];
    r := Ok(ExperienceView(experience, None));
  }

  /** The `setattr` loop, noting whether an item puts `null` in a NOT NULL column. */
  method AssignAll(e: Experience, items: seq<Assignment>) returns (e': Experience, refused: bool)
    ensures e' == SetAll(e, items)
    ensures refused <==> CompanyName(None) in items || Role(None) in items || FinalResult(None) in items
  {
    e', refused := e, false;
    var i := 0;
    while i < |items|
      invariant 0 <= i <= |items|
      invariant e' == SetAll(e, items[..i])
      invariant refused <==> CompanyName(None) in items[..i] || Role(None) in items[..i] || FinalResult(None) in items[..i]
    {
      assert items[..i + 1] == items[..i] + [items[i]];
      assert items[..i + 1][..i] == items[..i];
      if items[i] == CompanyName(None) || items[i] == Role(None) || items[i] == FinalResult(None) {
        refused := true;
      }
      e' := SetAttr(e', items[i]);
      i := i + 1;
    }
    assert items[..|items|] == items;
  }

  /** The commit fails exactly when some item puts `null` in a NOT NULL column. */
  lemma RefusedIffClears(req: ExperienceUpdate)
    ensures CompanyName(None) in UpdateData(req) || Role(None) in UpdateData(req) || FinalResult(None) in UpdateData(req)
      <==> ClearsRequired(req)
  {
    NullCompanyIn(req);
    NullRoleIn(req);
    NullResultIn(req);
  }

  lemma NullCompanyIn(req: ExperienceUpdate)
    ensures CompanyName(None) in UpdateData(req) <==> req.companyName == SetTo(None)
  {
    var x := CompanyName(None);
    assert x !in RoleItem(req) && x !in PackageOfferedItem(req) && x !in InterviewRoundsItem(req);
    assert x !in QuestionsAskedItem(req) && x !in PreparationStrategyItem(req) && x !in ResourcesFollowedItem(req);
    assert x !in RejectionReasonsItem(req) && x !in FinalResultItem(req) && x !in IsAnonymousItem(req);
  }

  lemma NullRoleIn(req: ExperienceUpdate)
    ensures Role(None) in UpdateData(req) <==> req.role == SetTo(None)
  {
    var x := Role(None);
    assert x !in CompanyNameItem(req) && x !in PackageOfferedItem(req) && x !in InterviewRoundsItem(req);
    assert x !in QuestionsAskedItem(req) && x !in PreparationStrategyItem(req) && x !in ResourcesFollowedItem(req);
    assert x !in RejectionReasonsItem(req) && x !in FinalResultItem(req) && x !in IsAnonymousItem(req);
  }

  lemma NullResultIn(req: ExperienceUpdate)
    ensures FinalResult(None) in UpdateData(req) <==> req.finalResult == SetTo(None)
  {
    var x := FinalResult(None);
    assert x !in CompanyNameItem(req) && x !in RoleItem(req) && x !in PackageOfferedItem(req);
    assert x !in InterviewRoundsItem(req) && x !in QuestionsAskedItem(req) && x !in PreparationStrategyItem(req);
    assert x !in ResourcesFollowedItem(req) && x !in RejectionReasonsItem(req) && x !in IsAnonymousItem(req);
  }

  method BookmarkExperience(db: Db, userId: int, experienceId: int) returns (r: Result<string>)
    modifies db
    ensures Transaction(db.Contents(), r) == BookmarkOutcome(old(db.Contents()), userId, experienceId)
  {
    if ExperienceById(db.experiences, experienceId).None? {
      return Err(ExperienceNotFound);
    }
    var existing := FindBookmark(db.bookmarks, userId, experienceId);
    if existing.Some? {
      return Err(AlreadyBookmarked);
    }
    db.bookmarks := db.bookmarks + [Bookmark(NextId(BookmarkIds(db.bookmarks)), userId, experienceId)];
    r := Ok(Bookmarked);
  }

  method RemoveBookmark(db: Db, userId: int, experienceId: int) returns (r: Result<string>)
    modifies db
    ensures Transaction(db.Contents(), r) == RemoveBookmarkOutcome(old(db.Contents()), userId, experienceId)
  {
    var bookmark := FindBookmark(db.bookmarks, userId, experienceId);
    if bookmark.None? {
      return Err(BookmarkNotFound);
    }
    var k := bookmark.value;
    db.bookmarks := db.bookmarks[..k] + db.bookmarks[k + 1..];
    r := Ok(BookmarkRemoved);
  }

  /** `get_bookmarked_experiences`: the ids list, the rows whose id is in it,
      and the loop that attaches names. */
  method GetBookmarkedExperiences(db: Db, userId: int) returns (results: seq<ExperienceView>)
    ensures results == BookmarkedOutcome(db.Contents(), userId)
  {
    var ids := BookmarkedIds(db.bookmarks, userId);
    var experiences := FilterSeq(db.experiences, (e: Experience) => e.id in ids);
    results := [];
    var i := 0;
    while i < |experiences|
      invariant 0 <= i <= |experiences|
      invariant results == Views(experiences[..i], db.users)
    {
      assert experiences[..i + 1][..i] == experiences[..i];
      results := results + [ViewOf(experiences[i], db.users)];
      i := i + 1;
    }
    assert experiences[..|experiences|] == experiences;
  }
}
