/** The company page (`frontend/src/pages/CompanyDetailPage.tsx`): the
    company name decoded from the URL, the published experiences of exactly
    that company, the header statistics, and the icon and colour chosen for
    each experience's role. */
module CompanyDetail {
  import opened Util
  import Uri
  import Dashboard

  type Listing = Dashboard.Listing

  // ---------------------------------------------------------------------------
  // The company in the URL

  /** The router hands `useParams` the decoded segment; a segment that does
      not decode is handed over as it is. */
  function RouterParam(segment: string): string {
    match Uri.DecodeComponent(segment)
    case None => segment
    case Some(v) => v
  }

  /** `companyName ? decodeURIComponent(companyName) : ''`; `None` is the
      `URIError` the decoder throws. */
  function DecodedName(param: Option<string>): Option<string> {
    if param.None? || param.value == "" then Some("") else Uri.DecodeComponent(param.value)
  }

  /** The name the page works with when the card links to
      `/company/${encodeURIComponent(name)}`: the router decodes the segment
      and line 38 decodes it a second time. */
  function PageName(name: string): Option<string> {
    DecodedName(Some(RouterParam(Uri.EncodeComponent(name))))
  }

  /** The router gives back the card's name, so the page decodes the name
      itself: names without `%` read back exactly, the empty name included. */
  lemma LinkRoundTrip(name: string)
    ensures PageName(name) == (if name == "" then Some("") else Uri.DecodeComponent(name))
    ensures '%' !in name ==> PageName(name) == Some(name)
  {
    Uri.RoundTrip(name);
    assert RouterParam(Uri.EncodeComponent(name)) == name;
    if '%' !in name {
      Uri.NoEscapeUnchanged(name);
    }
  }

  /** The second decoding breaks names with `%`: `100%` makes the page throw
      a `URIError`, and `%41` is read as `A`. */
  lemma DoubleDecoding()
    ensures PageName("100%") == None
    ensures PageName("%41") == Some("A")
  {
    LinkRoundTrip("100%");
    LinkRoundTrip("%41");
    Uri.Malformed();
    Uri.EscapedLetter();
  }

  /** The name the page evidently means to read: the router's parameter
      as it is, which is the card's name for every name. */
  function IntendedPageName(name: string): (r: string)
    ensures r == name
  {
    Uri.RoundTrip(name);
    RouterParam(Uri.EncodeComponent(name))
  }

  // ---------------------------------------------------------------------------
  // Role icon and colour

  datatype Icon = Code | BarChart | UserCog | Users | GraduationCap | Briefcase

  predicate AnyOf(s: string, words: seq<string>) {
    exists w :: w in words && Contains(s, w)
  }

  /** `getRoleIcon`. */
  function RoleIcon(role: string): Icon {
    var r := Lower(role);
    if Contains(r, "sde") || Contains(r, "software") || Contains(r, "developer") then Code
    else if Contains(r, "analyst") || Contains(r, "data") then BarChart
    else if Contains(r, "manager") || Contains(r, "product") then UserCog
    else if Contains(r, "hr") || Contains(r, "human") then Users
    else if Contains(r, "intern") then GraduationCap
    else Briefcase
  }

  /** `getRoleColor`. */
  function RoleColor(role: string): string {
    var r := Lower(role);
    if Contains(r, "sde") || Contains(r, "software") || Contains(r, "developer") then "from-blue-500 to-cyan-500"
    else if Contains(r, "analyst") || Contains(r, "data") then "from-purple-500 to-pink-500"
    else if Contains(r, "manager") || Contains(r, "product") then "from-orange-500 to-red-500"
    else if Contains(r, "hr") || Contains(r, "human") then "from-green-500 to-emerald-500"
    else if Contains(r, "intern") then "from-yellow-500 to-orange-500"
    else "from-primary-500 to-blue-500"
  }

  /** The keyword tiers, first match wins, and the icon and colour of each. */
  datatype Tier = Tier(words: seq<string>, icon: Icon, color: string)

  const Tiers: seq<Tier> := [
    Tier(["sde", "software", "developer"], Code, "from-blue-500 to-cyan-500"),
    Tier(["analyst", "data"], BarChart, "from-purple-500 to-pink-500"),
    Tier(["manager", "product"], UserCog, "from-orange-500 to-red-500"),
    Tier(["hr", "human"], Users, "from-green-500 to-emerald-500"),
    Tier(["intern"], GraduationCap, "from-yellow-500 to-orange-500")
  ]

  const Default: Tier := Tier([], Briefcase, "from-primary-500 to-blue-500")

  /** The first tier with a keyword inside the lower-cased role. */
  function FirstTier(r: string, tiers: seq<Tier>): (t: Tier)
    ensures t == Default || t in tiers
    ensures t != Default ==> AnyOf(r, t.words)
  {
    if tiers == [] then Default
    else if AnyOf(r, tiers[0].words) then tiers[0]
    else FirstTier(r, tiers[1..])
  }

  lemma AnyOfThree(r: string, a: string, b: string, c: string)
    ensures AnyOf(r, [a, b, c]) <==> Contains(r, a) || Contains(r, b) || Contains(r, c)
  {
    if Contains(r, a) { assert a in [a, b, c]; }
    if Contains(r, b) { assert b in [a, b, c]; }
    if Contains(r, c) { assert c in [a, b, c]; }
  }

  lemma AnyOfTwo(r: string, a: string, b: string)
    ensures AnyOf(r, [a, b]) <==> Contains(r, a) || Contains(r, b)
  {
    if Contains(r, a) { assert a in [a, b]; }
    if Contains(r, b) { assert b in [a, b]; }
  }

  lemma AnyOfOne(r: string, a: string)
    ensures AnyOf(r, [a]) <==> Contains(r, a)
  {
    if Contains(r, a) { assert a in [a]; }
  }

  /** Icon and colour always come from the same tier, the first whose
      keyword the role contains, ignoring case. */
  lemma RoleFollowsTier(role: string)
    ensures var t := FirstTier(Lower(role), Tiers);
      RoleIcon(role) == t.icon && RoleColor(role) == t.color
  {
    var r := Lower(role);
    var t1 := Tiers[1..];
    var t2 := t1[1..];
    var t3 := t2[1..];
    var t4 := t3[1..];
    assert t4 == [Tiers[4]] && t4[1..] == [];
    AnyOfThree(r, "sde", "software", "developer");
    if !AnyOf(r, Tiers[0].words) {
      assert FirstTier(r, Tiers) == FirstTier(r, t1);
      AnyOfTwo(r, "analyst", "data");
      if !AnyOf(r, t1[0].words) {
        assert FirstTier(r, t1) == FirstTier(r, t2);
        AnyOfTwo(r, "manager", "product");
        if !AnyOf(r, t2[0].words) {
          assert FirstTier(r, t2) == FirstTier(r, t3);
          AnyOfTwo(r, "hr", "human");
          if !AnyOf(r, t3[0].words) {
            assert FirstTier(r, t3) == FirstTier(r, t4);
            AnyOfOne(r, "intern");
          }
        }
      }
    }
  }

  /** A role naming two tiers takes the earlier one. */
  lemma EarlierTierWins(role: string)
    requires Contains(Lower(role), "data") && Contains(Lower(role), "intern")
    requires !Contains(Lower(role), "sde") && !Contains(Lower(role), "software") && !Contains(Lower(role), "developer")
    ensures RoleIcon(role) == BarChart
  {
  }

  // ---------------------------------------------------------------------------
  // Header statistics

  datatype Stats = Stats(total: nat, selected: nat, rejected: nat, avgPackage: real, selectionRate: real)

  /** `companyExperiences`: loaded rows of exactly this company that are
      published; no data yet gives none. */
  function CompanyExperiences(experiences: Option<seq<Listing>>, name: string): (r: seq<Listing>)
    ensures experiences.None? ==> r == []
    ensures experiences.Some? ==>
      forall e :: e in r <==> e in experiences.value && e.companyName == name && e.isPublished
  {
    if experiences.None? then [] else Dashboard.PublishedOf(experiences.value, name)
  }

  /** `stats`: the package average divides by the packaged count `|| 1`. */
  function CompanyStats(experiences: Option<seq<Listing>>, name: string): Stats {
    var mine := CompanyExperiences(experiences, name);
    var packaged := FilterSeq(mine, Dashboard.HasPackage);
    Stats(
      |mine|,
      CountIf(mine, (e: Listing) => e.finalResult == "Selected"),
      CountIf(mine, (e: Listing) => e.finalResult == "Rejected"),
      Dashboard.PackageSum(packaged) / (if |packaged| == 0 then 1 else |packaged|) as real,
      Dashboard.SelectionRate(mine))
  }

  /** Summing the packaged rows is summing the packages of all rows. */
  lemma {:induction false} PackagedSum(es: seq<Listing>)
    ensures Dashboard.PackageSum(FilterSeq(es, Dashboard.HasPackage)) == Dashboard.PackageSum(es)
  {
    if es != [] {
      var init := es[..|es| - 1];
      var last := es[|es| - 1];
      PackagedSum(init);
      var f := FilterSeq(init, Dashboard.HasPackage);
      if Dashboard.HasPackage(last) {
        assert FilterSeq(es, Dashboard.HasPackage) == f + [last];
        assert (f + [last])[..|f + [last]| - 1] == f;
      } else {
        assert FilterSeq(es, Dashboard.HasPackage) == f + [];
        assert f + [] == f;
      }
    }
  }

  /** Outcomes are counted apart, so together they never exceed the total;
      with no rows the rate and the average are 0, the divisor never being 0. */
  lemma StatsBounds(experiences: Option<seq<Listing>>, name: string)
    ensures var s := CompanyStats(experiences, name);
      s.selected + s.rejected <= s.total &&
      (s.total == 0 ==> s.selectionRate == 0.0 && s.avgPackage == 0.0)
  {
    var mine := CompanyExperiences(experiences, name);
    CountIfDisjoint(mine, (e: Listing) => e.finalResult == "Selected", (e: Listing) => e.finalResult == "Rejected");
  }

  /** With no packaged row the `|| 1` divisor gives an average of 0; otherwise
      it is the packages' sum over their number. */
  lemma AveragePackage(experiences: Option<seq<Listing>>, name: string)
    ensures var mine := CompanyExperiences(experiences, name);
      var n := CountIf(mine, Dashboard.HasPackage);
      CompanyStats(experiences, name).avgPackage == if n == 0 then 0.0 else Dashboard.PackageSum(mine) / n as real
  {
    var mine := CompanyExperiences(experiences, name);
    PackagedSum(mine);
  }

  /** The page's header agrees with the company's dashboard card. */
  lemma MatchesCard(es: seq<Listing>, name: string)
    ensures var s := CompanyStats(Some(es), name);
      var card := Dashboard.CardOf(es, name);
      s.total == card.experienceCount && s.selectionRate == card.selectionRate && s.avgPackage == card.avgPackage
  {
    AveragePackage(Some(es), name);
  }
}
