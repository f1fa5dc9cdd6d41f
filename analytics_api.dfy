/** The counting parts of the analytics endpoints
    (`backend/app/api/v1/analytics.py`): totals, selected counts, `Counter`
    tallies with `most_common`, the rejection count, the difficulty
    distribution and the per-college totals. The float rates and averages
    are not part of this model; the selected count they are computed from
    is. */
module AnalyticsApi {
  import opened Util
  import opened Json
  import opened Models
  import opened PyDict

  // ---------------------------------------------------------------------------
  // Counter

  /** How often `x` occurs in `xs`. */
  function Occurrences<T(==)>(xs: seq<T>, x: T): (n: nat)
    ensures n <= |xs|
    ensures n > 0 <==> x in xs
  {
    if xs == [] then 0
    else
      assert xs == xs[..|xs| - 1] + [xs[|xs| - 1]];
      Occurrences(xs[..|xs| - 1], x) + (if xs[|xs| - 1] == x then 1 else 0)
  }

  /** `Counter(xs)`: each distinct value once, in order of first
      occurrence, with its count. */
  function Tally<T(==)>(xs: seq<T>): seq<(T, nat)> {
    var keys := Dedup(xs);
    seq(|keys|, i requires 0 <= i < |keys| => (keys[i], Occurrences(xs, keys[i])))
  }

  predicate ByCountDesc<T>(items: seq<(T, nat)>) {
    forall i, j :: 0 <= i < j < |items| ==> items[i].1 >= items[j].1
  }

  /** `x` placed after every item counted at least as often. */
  function InsertByCount<T(==)>(sorted: seq<(T, nat)>, x: (T, nat)): (r: seq<(T, nat)>)
    requires ByCountDesc(sorted)
    ensures ByCountDesc(r) && multiset(r) == multiset(sorted) + multiset{x}
    ensures forall i :: 0 <= i < |r| ==> r[i] == x || r[i] in sorted
  {
    if sorted == [] || sorted[|sorted| - 1].1 >= x.1 then
      CountAtEnd(sorted, x, sorted + [x]);
      sorted + [x]
    else
      var front := InsertByCount(sorted[..|sorted| - 1], x);
      CountBeforeLast(sorted, x, front, front + [sorted[|sorted| - 1]]);
      front + [sorted[|sorted| - 1]]
  }

  /** An item counted no more often than the last goes last. */
  lemma CountAtEnd<T>(sorted: seq<(T, nat)>, x: (T, nat), r: seq<(T, nat)>)
    requires ByCountDesc(sorted) && (sorted == [] || sorted[|sorted| - 1].1 >= x.1) && r == sorted + [x]
    ensures ByCountDesc(r) && multiset(r) == multiset(sorted) + multiset{x}
    ensures forall i :: 0 <= i < |r| ==> r[i] == x || r[i] in sorted
  {
    forall i, j | 0 <= i < j < |r| ensures r[i].1 >= r[j].1 {
      assert r[i] == sorted[i];
      if j < |sorted| { assert r[j] == sorted[j]; } else if i < |sorted| - 1 { assert sorted[i].1 >= sorted[|sorted| - 1].1; }
    }
    forall i | 0 <= i < |r| ensures r[i] == x || r[i] in sorted {
      if i < |sorted| { assert r[i] == sorted[i]; }
    }
  }

  /** Otherwise it goes among the others, all counted at least as often as the last. */
  lemma CountBeforeLast<T>(sorted: seq<(T, nat)>, x: (T, nat), front: seq<(T, nat)>, r: seq<(T, nat)>)
    requires sorted != [] && ByCountDesc(sorted) && sorted[|sorted| - 1].1 < x.1
    requires ByCountDesc(front) && multiset(front) == multiset(sorted[..|sorted| - 1]) + multiset{x}
    requires forall i :: 0 <= i < |front| ==> front[i] == x || front[i] in sorted[..|sorted| - 1]
    requires r == front + [sorted[|sorted| - 1]]
    ensures ByCountDesc(r) && multiset(r) == multiset(sorted) + multiset{x}
    ensures forall i :: 0 <= i < |r| ==> r[i] == x || r[i] in sorted
  {
    var init := sorted[..|sorted| - 1];
    var last := sorted[|sorted| - 1];
    assert sorted == init + [last];
    forall i | 0 <= i < |front| ensures front[i].1 >= last.1 {
      if front[i] != x {
        var k :| 0 <= k < |init| && init[k] == front[i];
        assert sorted[k] == init[k];
      }
    }
    forall i, j | 0 <= i < j < |r| ensures r[i].1 >= r[j].1 {
      assert r[i] == front[i];
      if j < |front| { assert r[j] == front[j]; }
    }
    forall i | 0 <= i < |r| ensures r[i] == x || r[i] in sorted {
      if i < |front| { assert r[i] == front[i]; }
    }
  }

  /** `sorted(items, key=count, reverse=True)`: a stable sort, so ties keep
      their order. */
  function SortByCount<T(==)>(items: seq<(T, nat)>): (r: seq<(T, nat)>)
    ensures ByCountDesc(r) && multiset(r) == multiset(items)
  {
    if items == [] then []
    else
      assert items == items[..|items| - 1] + [items[|items| - 1]];
      InsertByCount(SortByCount(items[..|items| - 1]), items[|items| - 1])
  }

  /** `Counter.most_common(n)`, which `heapq.nlargest` computes as the sort
      above cut to its first `n`. */
  function MostCommon<T(==)>(items: seq<(T, nat)>, n: nat): (r: seq<(T, nat)>)
    ensures |r| <= n && ByCountDesc(r)
    ensures forall i :: 0 <= i < |r| ==> r[i] in items
  {
    var s := SortByCount(items);
    var r := Take(s, n);
    assert forall i :: 0 <= i < |r| ==> r[i] in multiset(s);
    r
  }

  // ---------------------------------------------------------------------------
  // Counter properties

  /** A tally entry is a value that occurs, with its number of occurrences. */
  lemma TallyMembers<T>(xs: seq<T>, x: T, n: nat)
    ensures (x, n) in Tally(xs) <==> x in xs && n == Occurrences(xs, x)
  {
    var keys := Dedup(xs);
    if x in xs {
      var i :| 0 <= i < |keys| && keys[i] == x;
      assert Tally(xs)[i] == (x, Occurrences(xs, x));
    }
  }

  /** A value left out of `most_common(n)` is counted no more often than
      any value kept, and then `n` values were kept. */
  lemma TopRanked<T>(items: seq<(T, nat)>, n: nat, x: (T, nat))
    requires x in items && x !in MostCommon(items, n)
    ensures |MostCommon(items, n)| == n
    ensures forall i :: 0 <= i < n ==> MostCommon(items, n)[i].1 >= x.1
  {
    var s := SortByCount(items);
    assert x in multiset(s);
    var j :| 0 <= j < |s| && s[j] == x;
    assert j >= n;
  }

  /** An entry of `most_common(n)` of a tally is a value that occurs, with
      its number of occurrences. */
  lemma MostCommonCounts<T>(xs: seq<T>, n: nat, i: nat)
    requires i < |MostCommon(Tally(xs), n)|
    ensures var e := MostCommon(Tally(xs), n)[i];
      e.0 in xs && e.1 == Occurrences(xs, e.0)
  {
    var e := MostCommon(Tally(xs), n)[i];
    TallyMembers(xs, e.0, e.1);
  }

  // ---------------------------------------------------------------------------
  // Columns and counts

  function CompanyNames(es: seq<Experience>): (r: seq<string>)
    ensures |r| == |es| && forall i :: 0 <= i < |es| ==> r[i] == es[i].companyName
  {
    seq(|es|, i requires 0 <= i < |es| => es[i].companyName)
  }

  function RoleNames(es: seq<Experience>): (r: seq<string>)
    ensures |r| == |es| && forall i :: 0 <= i < |es| ==> r[i] == es[i].role
  {
    seq(|es|, i requires 0 <= i < |es| => es[i].role)
  }

  /** `sum(1 for exp in es if exp.final_result == "Selected")`. */
  function Selected(es: seq<Experience>): (n: nat)
    ensures n <= |es|
  {
    CountIf(es, (e: Experience) => e.finalResult == "Selected")
  }

  // ---------------------------------------------------------------------------
  // GET /analytics/company-stats

  datatype CompanyStats = CompanyStats(
    totalExperiences: nat,
    /** The numerator of `selection_rate`. */
    selected: nat,
    companies: seq<(string, nat)>,
    roles: seq<(string, nat)>,
    /** `top_questions`, absent from the answer for no match. */
    topQuestions: Option<seq<(Js, nat)>>)

  /** Published rows, narrowed by the company name when one is given. */
  function CompanyQuery(experiences: seq<Experience>, companyName: Option<string>): seq<Experience> {
    FilterSeq(experiences, (e: Experience) => e.isPublished && (!FilterOn(companyName) || ILike(e.companyName, companyName.value)))
  }

  /** The list values of a dict of questions, concatenated in order. */
  function ListValues(fields: seq<Field>): seq<Js> {
    if fields == [] then []
    else
      var f := fields[|fields| - 1];
      ListValues(fields[..|fields| - 1]) + (if f.value.Arr? then f.value.items else [])
  }

  function ListedQuestions(e: Experience): seq<Js> {
    if PyTruthy(e.questionsAsked) && e.questionsAsked.Obj? then ListValues(e.questionsAsked.fields) else []
  }

  function CompanyStatsOutcome(t: Tables, companyName: Option<string>): Result<CompanyStats> {
    var es := CompanyQuery(t.experiences, companyName);
    if es == [] then Ok(CompanyStats(0, 0, [], [], None))
    else if exists i :: 0 <= i < |es| && !QuestionsReadable(es[i]) then Err(InternalError)
    else
      var questions := Gather(es, ListedQuestions);
      if !AllHashable(questions) then Err(InternalError)
      else Ok(CompanyStats(|es|, Selected(es), MostCommon(Tally(CompanyNames(es)), 10),
                           MostCommon(Tally(RoleNames(es)), 10), Some(MostCommon(Tally(questions), 10))))
  }

  /** No match gives zeros and empty lists, and only no match does. */
  lemma CompanyStatsEmpty(t: Tables, companyName: Option<string>)
    ensures (forall i :: 0 <= i < |t.experiences| ==>
               !(t.experiences[i].isPublished && (!FilterOn(companyName) || ILike(t.experiences[i].companyName, companyName.value)))) <==>
      CompanyStatsOutcome(t, companyName) == Ok(CompanyStats(0, 0, [], [], None))
  {
    var es := CompanyQuery(t.experiences, companyName);
    if es != [] {
      assert es[0] in t.experiences;
    }
  }

  /** With a match: the total is the number of matching rows, no more
      selected than that, and at most ten companies, roles and questions,
      each with its number of occurrences, most frequent first. */
  lemma CompanyStatsCounts(t: Tables, companyName: Option<string>)
    requires CompanyStatsOutcome(t, companyName).Ok?
    requires CompanyQuery(t.experiences, companyName) != []
    ensures var r := CompanyStatsOutcome(t, companyName).value;
      var es := CompanyQuery(t.experiences, companyName);
      r.totalExperiences == |es| && r.selected <= r.totalExperiences &&
      |r.companies| <= 10 && |r.roles| <= 10 && r.topQuestions.Some? && |r.topQuestions.value| <= 10 &&
      ByCountDesc(r.companies) && ByCountDesc(r.roles) && ByCountDesc(r.topQuestions.value) &&
      (forall i :: 0 <= i < |r.companies| ==> r.companies[i].1 == Occurrences(CompanyNames(es), r.companies[i].0)) &&
      (forall i :: 0 <= i < |r.roles| ==> r.roles[i].1 == Occurrences(RoleNames(es), r.roles[i].0)) &&
      (forall i :: 0 <= i < |r.topQuestions.value| ==>
         r.topQuestions.value[i].1 == Occurrences(Gather(es, ListedQuestions), r.topQuestions.value[i].0))
  {
    var es := CompanyQuery(t.experiences, companyName);
    var questions := Gather(es, ListedQuestions);
    forall i | 0 <= i < |MostCommon(Tally(CompanyNames(es)), 10)| {
      MostCommonCounts(CompanyNames(es), 10, i);
    }
    forall i | 0 <= i < |MostCommon(Tally(RoleNames(es)), 10)| {
      MostCommonCounts(RoleNames(es), 10, i);
    }
    forall i | 0 <= i < |MostCommon(Tally(questions), 10)| {
      MostCommonCounts(questions, 10, i);
    }
  }

  /** The handler raises exactly when some matching row's questions are a
      truthy non-dict, or some listed question is a list or a dict. */
  lemma CompanyStatsRaises(t: Tables, companyName: Option<string>)
    requires CompanyQuery(t.experiences, companyName) != []
    ensures var es := CompanyQuery(t.experiences, companyName);
      CompanyStatsOutcome(t, companyName).Err? <==>
        (exists e :: e in es && !QuestionsReadable(e)) || !AllHashable(Gather(es, ListedQuestions))
  {
  }

  // ---------------------------------------------------------------------------
  // GET /analytics/role-stats

  datatype RoleStats = RoleStats(role: string, totalExperiences: nat, selected: nat, companies: seq<(string, nat)>)

  function RoleQuery(experiences: seq<Experience>, role: string): seq<Experience> {
    FilterSeq(experiences, (e: Experience) => ILike(e.role, role) && e.isPublished)
  }

  function RoleStatsOutcome(t: Tables, role: string): RoleStats {
    var es := RoleQuery(t.experiences, role);
    if es == [] then RoleStats(role, 0, 0, [])
    else RoleStats(role, |es|, Selected(es), MostCommon(Tally(CompanyNames(es)), 10))
  }

  /** The total counts the published rows whose role matches; at most ten
      companies, most frequent first, each with its count among them. */
  lemma RoleStatsCounts(t: Tables, role: string)
    ensures var r := RoleStatsOutcome(t, role);
      var es := RoleQuery(t.experiences, role);
      r.role == role && r.totalExperiences == |es| && r.selected <= r.totalExperiences &&
      |r.companies| <= 10 && ByCountDesc(r.companies) &&
      (es == [] <==> r.companies == []) &&
      (forall i :: 0 <= i < |r.companies| ==> r.companies[i].1 == Occurrences(CompanyNames(es), r.companies[i].0))
  {
    var es := RoleQuery(t.experiences, role);
    if es != [] {
      var names := CompanyNames(es);
      assert names[0] in Dedup(names);
      assert |Tally(names)| > 0;
      var s := SortByCount(Tally(names));
      assert Tally(names)[0] in multiset(s);
      forall i | 0 <= i < |MostCommon(Tally(names), 10)| {
        MostCommonCounts(names, 10, i);
      }
    }
  }

  /** A company left out of the role's top ten is no more frequent than
      any listed one. */
  lemma RoleTopCompanies(t: Tables, role: string, c: string)
    requires var es := RoleQuery(t.experiences, role);
      c in CompanyNames(es) && (c, Occurrences(CompanyNames(es), c)) !in RoleStatsOutcome(t, role).companies
    ensures var es := RoleQuery(t.experiences, role);
      var top := RoleStatsOutcome(t, role).companies;
      |top| == 10 && forall i :: 0 <= i < 10 ==> top[i].1 >= Occurrences(CompanyNames(es), c)
  {
    var es := RoleQuery(t.experiences, role);
    var names := CompanyNames(es);
    TallyMembers(names, c, Occurrences(names, c));
    TopRanked(Tally(names), 10, (c, Occurrences(names, c)));
  }

  // ---------------------------------------------------------------------------
  // GET /analytics/trends

  datatype Trends = Trends(
    topResources: seq<(Js, nat)>,
    rejectionReasonsCount: nat,
    difficultyDistribution: seq<(Js, nat)>,
    totalExperiences: nat)

  function PublishedRows(experiences: seq<Experience>): seq<Experience> {
    FilterSeq(experiences, (e: Experience) => e.isPublished)
  }

  /** `exp.resources_followed` when it is a non-empty list. */
  function ResourcesOf(e: Experience): seq<Js> {
    if PyTruthy(e.resourcesFollowed) && e.resourcesFollowed.Arr? then e.resourcesFollowed.items else []
  }

  /** Counted among the rejection reasons. */
  predicate RejectedWithReasons(e: Experience) {
    e.rejectionReasons.Some? && e.rejectionReasons.value != "" && e.finalResult == "Rejected"
  }

  predicate HasKey(fields: seq<Field>, key: string) {
    exists i :: 0 <= i < |fields| && fields[i].key == key
  }

  /** `round_data["difficulty"]` of each dict round that has the key. */
  function Difficulties(rounds: seq<Js>): seq<Js> {
    if rounds == [] then []
    else
      var round := rounds[|rounds| - 1];
      Difficulties(rounds[..|rounds| - 1]) +
        (if round.Obj? && HasKey(round.fields, "difficulty") then [Lookup(round.fields, "difficulty")] else [])
  }

  /** Only a list yields dicts: a dict's keys and a string's characters are strings. */
  function DifficultiesOf(e: Experience): seq<Js> {
    if PyTruthy(e.interviewRounds) && e.interviewRounds.Arr? then Difficulties(e.interviewRounds.items) else []
  }

  function TrendsOutcome(t: Tables): Result<Trends> {
    var es := PublishedRows(t.experiences);
    var resources := Gather(es, ResourcesOf);
    if !AllHashable(resources) then Err(InternalError)
    else if exists i :: 0 <= i < |es| && !RoundsIterable(es[i]) then Err(InternalError)
    else
      var levels := Gather(es, DifficultiesOf);
      if !AllHashable(levels) then Err(InternalError)
      else Ok(Trends(MostCommon(Tally(resources), 10), CountIf(es, RejectedWithReasons), Tally(levels), |es|))
  }

  /** A dict round with a `difficulty` key rated `d`. */
  predicate RatedRound(round: Js, d: Js) {
    round.Obj? && HasKey(round.fields, "difficulty") && Lookup(round.fields, "difficulty") == d
  }

  /** Some round of the experience's list is rated `d`. */
  predicate RatedIn(e: Experience, d: Js) {
    e.interviewRounds.Arr? && exists round :: round in e.interviewRounds.items && RatedRound(round, d)
  }

  lemma {:induction false} DifficultiesMembers(rounds: seq<Js>, d: Js)
    ensures d in Difficulties(rounds) <==> exists round :: round in rounds && RatedRound(round, d)
  {
    if rounds != [] {
      var init := rounds[..|rounds| - 1];
      var last := rounds[|rounds| - 1];
      DifficultiesMembers(init, d);
      assert rounds == init + [last];
      if d in Difficulties(rounds) && d !in Difficulties(init) {
        assert RatedRound(last, d);
      }
      forall round | round in rounds && RatedRound(round, d)
        ensures d in Difficulties(rounds)
      {
        if round !in init {
          assert round == last;
        }
      }
    }
  }

  /** The levels collected are exactly the ratings of the rounds. */
  lemma LevelsMembers(es: seq<Experience>, d: Js)
    ensures d in Gather(es, DifficultiesOf) <==> exists e :: e in es && RatedIn(e, d)
  {
    GatherMembers(es, DifficultiesOf, d);
    forall e | e in es
      ensures d in DifficultiesOf(e) <==> RatedIn(e, d)
    {
      if e.interviewRounds.Arr? {
        DifficultiesMembers(e.interviewRounds.items, d);
      }
    }
  }

  /** The trends: the published total, the rejection count, and at most
      ten resources, most frequent first, with their counts. */
  lemma TrendsCounts(t: Tables)
    requires TrendsOutcome(t).Ok?
    ensures var r := TrendsOutcome(t).value;
      var es := PublishedRows(t.experiences);
      r.totalExperiences == |es| &&
      r.rejectionReasonsCount == CountIf(es, RejectedWithReasons) &&
      |r.topResources| <= 10 && ByCountDesc(r.topResources) &&
      (forall i :: 0 <= i < |r.topResources| ==> r.topResources[i].1 == Occurrences(Gather(es, ResourcesOf), r.topResources[i].0))
  {
    var es := PublishedRows(t.experiences);
    var resources := Gather(es, ResourcesOf);
    forall i | 0 <= i < |MostCommon(Tally(resources), 10)| {
      MostCommonCounts(resources, 10, i);
    }
  }

  /** Every level of the distribution is the rating of some dict round
      that has the key, with the number of such rounds, and every such
      rating is there. */
  lemma DifficultyDistribution(t: Tables, d: Js, n: nat)
    requires TrendsOutcome(t).Ok?
    ensures var es := PublishedRows(t.experiences);
      (d, n) in TrendsOutcome(t).value.difficultyDistribution <==>
        n == Occurrences(Gather(es, DifficultiesOf), d) && exists e :: e in es && RatedIn(e, d)
  {
    var es := PublishedRows(t.experiences);
    var levels := Gather(es, DifficultiesOf);
    assert TrendsOutcome(t).value.difficultyDistribution == Tally(levels);
    TallyMembers(levels, d, n);
    LevelsMembers(es, d);
  }

  /** A rejection with no reason, or a reason on another result, is not counted. */
  lemma RejectionCountBounded(t: Tables)
    requires TrendsOutcome(t).Ok?
    ensures TrendsOutcome(t).value.rejectionReasonsCount <= TrendsOutcome(t).value.totalExperiences
    ensures TrendsOutcome(t).value.rejectionReasonsCount <=
      CountIf(PublishedRows(t.experiences), (e: Experience) => e.finalResult == "Rejected")
  {
    CountIfMono(PublishedRows(t.experiences), RejectedWithReasons, (e: Experience) => e.finalResult == "Rejected");
  }

  // ---------------------------------------------------------------------------
  // GET /analytics/college-stats

  /** `selected` is the numerator of the college's `selection_rate`. */
  datatype CollegeStat = CollegeStat(totalExperiences: nat, selected: nat)

  /** The user passes both `college_name IS NOT NULL` and `if user.college_name`. */
  predicate InCollege(u: User, c: string) {
    u.collegeName == Some(c) && c != ""
  }

  predicate HasCollege(users: seq<User>, c: string) {
    exists u :: u in users && InCollege(u, c)
  }

  /** The user's published experiences, in table order. */
  function UserPublished(es: seq<Experience>, userId: int): seq<Experience> {
    FilterSeq(es, (e: Experience) => e.userId == userId && e.isPublished)
  }

  /** One pass of the grouping loop: add the college if new, then extend
      its list with the user's published experiences. */
  function GroupUser(groups: seq<(string, seq<Experience>)>, u: User, es: seq<Experience>): seq<(string, seq<Experience>)> {
    if u.collegeName.Some? && u.collegeName.value != "" then
      var c := u.collegeName.value;
      var g := Ensure(groups, c, []);
      var k := Find(g, c).value;
      g[k := (c, g[k].1 + UserPublished(es, u.id))]
    else groups
  }

  function CollegeGroups(users: seq<User>, es: seq<Experience>): seq<(string, seq<Experience>)> {
    if users == [] then [] else GroupUser(CollegeGroups(users[..|users| - 1], es), users[|users| - 1], es)
  }

  /** Reference: the published experiences of the college's users, user by user. */
  function CollegeRows(users: seq<User>, es: seq<Experience>, c: string): seq<Experience> {
    if users == [] then []
    else
      var u := users[|users| - 1];
      CollegeRows(users[..|users| - 1], es, c) + (if InCollege(u, c) then UserPublished(es, u.id) else [])
  }

  /** The colleges with at least one experience, each with its totals. */
  function StatsOf(groups: seq<(string, seq<Experience>)>): seq<(string, CollegeStat)> {
    if groups == [] then []
    else
      var g := groups[|groups| - 1];
      StatsOf(groups[..|groups| - 1]) + (if g.1 != [] then [(g.0, CollegeStat(|g.1|, Selected(g.1)))] else [])
  }

  function CollegeStatsOutcome(t: Tables): seq<(string, CollegeStat)> {
    StatsOf(CollegeGroups(t.users, t.experiences))
  }

  lemma {:induction false} NoCollegeRows(users: seq<User>, es: seq<Experience>, c: string)
    requires !HasCollege(users, c)
    ensures CollegeRows(users, es, c) == []
  {
    if users != [] {
      var init := users[..|users| - 1];
      assert forall u :: u in init ==> u in users;
      NoCollegeRows(init, es, c);
      assert users[|users| - 1] in users;
    }
  }

  /** One user adds their published rows to their college's entry and
      leaves the others alone. */
  lemma GroupUserStep(g0: seq<(string, seq<Experience>)>, u: User, es: seq<Experience>, c: string)
    requires NoDuplicates(Keys(g0))
    ensures NoDuplicates(Keys(GroupUser(g0, u, es)))
    ensures Entry(GroupUser(g0, u, es), c) ==
      if InCollege(u, c) then Some(Entry(g0, c).GetOr([]) + UserPublished(es, u.id)) else Entry(g0, c)
  {
    if u.collegeName.Some? && u.collegeName.value != "" {
      var name := u.collegeName.value;
      var g1 := Ensure(g0, name, []);
      var k := Find(g1, name).value;
      if name in Keys(g0) {
        assert g1 == g0;
      } else {
        assert k == |g0|;
      }
      assert g1[k].1 == Entry(g0, name).GetOr([]);
      UpsertFacts(g0, name, [], g1[k].1 + UserPublished(es, u.id), c);
    }
  }

  lemma HasCollegeStep(init: seq<User>, u: User, c: string)
    ensures HasCollege(init + [u], c) <==> HasCollege(init, c) || InCollege(u, c)
  {
    if HasCollege(init + [u], c) && !InCollege(u, c) {
      var w :| w in init + [u] && InCollege(w, c);
      assert w in init;
    }
    if HasCollege(init, c) {
      var w :| w in init && InCollege(w, c);
      assert w in init + [u];
    }
  }

  /** The grouping keeps one entry per college, holding the college's rows. */
  lemma {:induction false} CollegeGroupsEntry(users: seq<User>, es: seq<Experience>, c: string)
    ensures NoDuplicates(Keys(CollegeGroups(users, es)))
    ensures Entry(CollegeGroups(users, es), c) == if HasCollege(users, c) then Some(CollegeRows(users, es, c)) else None
  {
    if users != [] {
      var init := users[..|users| - 1];
      var u := users[|users| - 1];
      assert users == init + [u];
      var g0 := CollegeGroups(init, es);
      CollegeGroupsEntry(init, es, c);
      GroupUserStep(g0, u, es, c);
      assert CollegeGroups(users, es) == GroupUser(g0, u, es);
      assert CollegeRows(users, es, c) == CollegeRows(init, es, c) + (if InCollege(u, c) then UserPublished(es, u.id) else []);
      HasCollegeStep(init, u, c);
      if InCollege(u, c) {
        if !HasCollege(init, c) {
          NoCollegeRows(init, es, c);
        }
        var prev := Entry(g0, c).GetOr([]);
        assert prev == CollegeRows(init, es, c);
        assert Entry(CollegeGroups(users, es), c) == Some(prev + UserPublished(es, u.id));
      } else {
        assert Entry(CollegeGroups(users, es), c) == Entry(g0, c);
        assert CollegeRows(users, es, c) == CollegeRows(init, es, c) + [];
        assert CollegeRows(init, es, c) + [] == CollegeRows(init, es, c);
        assert HasCollege(users, c) == HasCollege(init, c);
      }
    } else {
      assert Keys(CollegeGroups(users, es)) == [];
    }
  }

  lemma {:induction false} StatsOfAt(groups: seq<(string, seq<Experience>)>, c: string, s: CollegeStat)
    ensures (c, s) in StatsOf(groups) <==>
      exists k :: 0 <= k < |groups| && groups[k].0 == c && groups[k].1 != [] && s == CollegeStat(|groups[k].1|, Selected(groups[k].1))
    ensures forall i :: 0 <= i < |StatsOf(groups)| ==> StatsOf(groups)[i].0 in Keys(groups)
  {
    if groups != [] {
      var init := groups[..|groups| - 1];
      StatsOfAt(init, c, s);
      assert Keys(groups) == Keys(init) + [groups[|groups| - 1].0];
      if (c, s) in StatsOf(groups) && (c, s) !in StatsOf(init) {
        assert groups[|groups| - 1].0 == c;
      }
    }
  }

  lemma {:induction false} StatsOfDistinct(groups: seq<(string, seq<Experience>)>)
    requires NoDuplicates(Keys(groups))
    ensures NoDuplicates(Keys(StatsOf(groups)))
  {
    if groups != [] {
      var init := groups[..|groups| - 1];
      var g := groups[|groups| - 1];
      assert Keys(groups) == Keys(init) + [g.0];
      StatsOfDistinct(init);
      var c := CollegeStat(0, 0);
      StatsOfAt(init, g.0, c);
      assert g.0 !in Keys(init);
      assert g.0 !in Keys(StatsOf(init));
      if g.1 != [] {
        assert Keys(StatsOf(groups)) == Keys(StatsOf(init)) + [g.0];
      }
    }
  }

  /** Each college appears once, and a college is listed exactly when its
      users have published experiences, with their number and the
      selected among them. */
  lemma CollegeStatsMembers(t: Tables, c: string, s: CollegeStat)
    ensures NoDuplicates(Keys(CollegeStatsOutcome(t)))
    ensures var rows := CollegeRows(t.users, t.experiences, c);
      (c, s) in CollegeStatsOutcome(t) <==> rows != [] && s == CollegeStat(|rows|, Selected(rows))
  {
    var groups := CollegeGroups(t.users, t.experiences);
    var rows := CollegeRows(t.users, t.experiences, c);
    CollegeGroupsEntry(t.users, t.experiences, c);
    StatsOfDistinct(groups);
    StatsOfAt(groups, c, s);
    if (c, s) in CollegeStatsOutcome(t) {
      var k :| 0 <= k < |groups| && groups[k].0 == c && groups[k].1 != [] && s == CollegeStat(|groups[k].1|, Selected(groups[k].1));
      EntryAt(groups, k);
    }
    if rows != [] && s == CollegeStat(|rows|, Selected(rows)) {
      if !HasCollege(t.users, c) {
        NoCollegeRows(t.users, t.experiences, c);
      }
      var k := Find(groups, c).value;
      assert groups[k].1 == rows;
    }
  }

  /** The rows of a college are the published experiences of its users. */
  lemma {:induction false} CollegeRowsMembers(users: seq<User>, es: seq<Experience>, c: string, e: Experience)
    ensures e in CollegeRows(users, es, c) <==>
      e in es && e.isPublished && exists u :: u in users && InCollege(u, c) && u.id == e.userId
  {
    if users != [] {
      var init := users[..|users| - 1];
      var u := users[|users| - 1];
      assert users == init + [u];
      CollegeRowsMembers(init, es, c, e);
    }
  }

  // ---------------------------------------------------------------------------
  // The handlers, loop by loop

  /** `get_company_statistics`. */
  method CompanyStatistics(db: Db, companyName: Option<string>) returns (r: Result<CompanyStats>)
    ensures r == CompanyStatsOutcome(db.Contents(), companyName)
  {
    var experiences := CompanyQuery(db.experiences, companyName);
    if experiences == [] {
      return Ok(CompanyStats(0, 0, [], [], None));
    }
    var total := |experiences|;
    var selected := Selected(experiences);
    var allQuestions, raised := CollectQuestions(experiences);
    if raised || !AllHashable(allQuestions) {
      return Err(InternalError);
    }
    r := Ok(CompanyStats(total, selected, MostCommon(Tally(CompanyNames(experiences)), 10),
                         MostCommon(Tally(RoleNames(experiences)), 10), Some(MostCommon(Tally(allQuestions), 10))));
  }

  /** The loop over `questions_asked`; `raised` when `.items()` fails on a row. */
  method CollectQuestions(experiences: seq<Experience>) returns (allQuestions: seq<Js>, raised: bool)
    ensures raised <==> exists i :: 0 <= i < |experiences| && !QuestionsReadable(experiences[i])
    ensures !raised ==> allQuestions == Gather(experiences, ListedQuestions)
  {
    allQuestions := [];
    var i := 0;
    while i < |experiences|
      invariant 0 <= i <= |experiences|
      invariant allQuestions == Gather(experiences[..i], ListedQuestions)
      invariant forall j :: 0 <= j < i ==> QuestionsReadable(experiences[j])
    {
      var exp := experiences[i];
      assert experiences[..i + 1][..i] == experiences[..i];
      assert Gather(experiences[..i + 1], ListedQuestions) == Gather(experiences[..i], ListedQuestions) + ListedQuestions(exp);
      if PyTruthy(exp.questionsAsked) {
        if !exp.questionsAsked.Obj? {
          assert !QuestionsReadable(experiences[i]);
          return allQuestions, true;
        }
        allQuestions := ExtendListValues(allQuestions, exp.questionsAsked.fields);
      }
      i := i + 1;
    }
    assert experiences[..|experiences|] == experiences;
    raised := false;
  }

  /** `for category, questions in items(): if isinstance(questions, list): extend`. */
  method ExtendListValues(acc: seq<Js>, fields: seq<Field>) returns (r: seq<Js>)
    ensures r == acc + ListValues(fields)
  {
    r := acc;
    var j := 0;
    while j < |fields|
      invariant 0 <= j <= |fields|
      invariant r == acc + ListValues(fields[..j])
    {
      assert fields[..j + 1][..j] == fields[..j];
      if fields[j].value.Arr? {
        r := r + fields[j].value.items;
      }
      j := j + 1;
    }
    assert fields[..|fields|] == fields;
  }

  /** `get_trends`. */
  method GetTrends(db: Db) returns (r: Result<Trends>)
    ensures r == TrendsOutcome(db.Contents())
  {
    var experiences := PublishedRows(db.experiences);
    var allResources := CollectResources(experiences);
    if !AllHashable(allResources) {
      return Err(InternalError);
    }
    var rejectionReasons := CollectRejections(experiences);
    var levels, raised := CollectLevels(experiences);
    if raised || !AllHashable(levels) {
      return Err(InternalError);
    }
    r := Ok(Trends(MostCommon(Tally(allResources), 10), |rejectionReasons|, Tally(levels), |experiences|));
  }

  /** The loop over `resources_followed`. */
  method CollectResources(experiences: seq<Experience>) returns (allResources: seq<Js>)
    ensures allResources == Gather(experiences, ResourcesOf)
  {
    allResources := [];
    var i := 0;
    while i < |experiences|
      invariant 0 <= i <= |experiences|
      invariant allResources == Gather(experiences[..i], ResourcesOf)
    {
      var exp := experiences[i];
      assert experiences[..i + 1][..i] == experiences[..i];
      assert Gather(experiences[..i + 1], ResourcesOf) == Gather(experiences[..i], ResourcesOf) + ResourcesOf(exp);
      if PyTruthy(exp.resourcesFollowed) && exp.resourcesFollowed.Arr? {
        allResources := allResources + exp.resourcesFollowed.items;
      }
      i := i + 1;
    }
    assert experiences[..|experiences|] == experiences;
  }

  /** The loop over the rejections: one reason per counted row. */
  method CollectRejections(experiences: seq<Experience>) returns (rejectionReasons: seq<string>)
    ensures |rejectionReasons| == CountIf(experiences, RejectedWithReasons)
  {
    rejectionReasons := [];
    var i := 0;
    while i < |experiences|
      invariant 0 <= i <= |experiences|
      invariant |rejectionReasons| == CountIf(experiences[..i], RejectedWithReasons)
    {
      var exp := experiences[i];
      assert experiences[..i + 1][..i] == experiences[..i];
      if exp.rejectionReasons.Some? && exp.rejectionReasons.value != "" && exp.finalResult == "Rejected" {
        rejectionReasons := rejectionReasons + [exp.rejectionReasons.value];
      }
      i := i + 1;
    }
    assert experiences[..|experiences|] == experiences;
  }

  /** The loop over the rounds; `raised` when a row's rounds are not iterable. */
  method CollectLevels(experiences: seq<Experience>) returns (levels: seq<Js>, raised: bool)
    ensures raised <==> exists i :: 0 <= i < |experiences| && !RoundsIterable(experiences[i])
    ensures !raised ==> levels == Gather(experiences, DifficultiesOf)
  {
    levels := [];
    var i := 0;
    while i < |experiences|
      invariant 0 <= i <= |experiences|
      invariant levels == Gather(experiences[..i], DifficultiesOf)
      invariant forall j :: 0 <= j < i ==> RoundsIterable(experiences[j])
    {
      var exp := experiences[i];
      assert experiences[..i + 1][..i] == experiences[..i];
      assert Gather(experiences[..i + 1], DifficultiesOf) == Gather(experiences[..i], DifficultiesOf) + DifficultiesOf(exp);
      if PyTruthy(exp.interviewRounds) {
        if exp.interviewRounds.Arr? {
          levels := CollectDifficulties(levels, exp.interviewRounds.items);
        } else if !exp.interviewRounds.Obj? && !exp.interviewRounds.Str? {
          assert !RoundsIterable(experiences[i]);
          return levels, true;
        }
      }
      i := i + 1;
    }
    assert experiences[..|experiences|] == experiences;
    raised := false;
  }

  /** The inner loop over one experience's rounds. */
  method CollectDifficulties(acc: seq<Js>, rounds: seq<Js>) returns (r: seq<Js>)
    ensures r == acc + Difficulties(rounds)
  {
    r := acc;
    var j := 0;
    while j < |rounds|
      invariant 0 <= j <= |rounds|
      invariant r == acc + Difficulties(rounds[..j])
    {
      assert rounds[..j + 1][..j] == rounds[..j];
      var roundData := rounds[j];
      if roundData.Obj? && HasKey(roundData.fields, "difficulty") {
        r := r + [Lookup(roundData.fields, "difficulty")];
      }
      j := j + 1;
    }
    assert rounds[..|rounds|] == rounds;
  }

  /** `get_college_statistics`. */
  method CollegeStatistics(db: Db) returns (r: seq<(string, CollegeStat)>)
    ensures r == CollegeStatsOutcome(db.Contents())
  {
    var collegeExperiences := GroupByCollege(db.users, db.experiences);
    r := CollegeTotals(collegeExperiences);
  }

  /** The loop over the users; the query's `IS NOT NULL` and the loop's
      `if user.college_name` are one test here. */
  method GroupByCollege(users: seq<User>, es: seq<Experience>) returns (collegeExperiences: seq<(string, seq<Experience>)>)
    ensures collegeExperiences == CollegeGroups(users, es)
  {
    collegeExperiences := [];
    var i := 0;
    while i < |users|
      invariant 0 <= i <= |users|
      invariant collegeExperiences == CollegeGroups(users[..i], es)
    {
      var user := users[i];
      assert users[..i + 1][..i] == users[..i];
      assert CollegeGroups(users[..i + 1], es) == GroupUser(CollegeGroups(users[..i], es), user, es);
      if user.collegeName.Some? && user.collegeName.value != "" {
        var college := user.collegeName.value;
        if college !in Keys(collegeExperiences) {
          collegeExperiences := collegeExperiences + [(college, [])];
        }
        assert collegeExperiences == Ensure(CollegeGroups(users[..i], es), college, []);
        var userExps := UserPublished(es, user.id);
        var k := Find(collegeExperiences, college).value;
        collegeExperiences := collegeExperiences[k := (college, collegeExperiences[k].1 + userExps)];
      }
      i := i + 1;
    }
    assert users[..|users|] == users;
  }

  /** The loop over the groups. */
  method CollegeTotals(collegeExperiences: seq<(string, seq<Experience>)>) returns (r: seq<(string, CollegeStat)>)
    ensures r == StatsOf(collegeExperiences)
  {
    r := [];
    var j := 0;
    while j < |collegeExperiences|
      invariant 0 <= j <= |collegeExperiences|
      invariant r == StatsOf(collegeExperiences[..j])
    {
      assert collegeExperiences[..j + 1][..j] == collegeExperiences[..j];
      var (college, exps) := collegeExperiences[j];
      if exps != [] {
        var selected := Selected(exps);
        r := r + [(college, CollegeStat(|exps|, selected))];
      }
      j := j + 1;
    }
    assert collegeExperiences[..|collegeExperiences|] == collegeExperiences;
  }
}
