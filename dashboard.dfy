/** The dashboard (`frontend/src/pages/Dashboard.tsx`): one card per company
    named in the loaded experiences, with counts over the published ones,
    sorted to put the major companies first and busier companies before
    quieter ones; and the message shown when the list fails to load, which
    a health probe of the back end can replace. The probe's outcome is an
    input. Rates and averages are exact reals here. */
module Dashboard {
  import opened Util
  import opened Json
  import opened ErrorMessages

  /** The columns of a listed experience the dashboard reads. */
  datatype Listing = Listing(companyName: string, isPublished: bool, finalResult: string, packageOffered: Option<real>)

  datatype CompanyCard = CompanyCard(
    name: string,
    experienceCount: nat,
    selectionRate: real,
    avgPackage: real,
    isMajor: bool)

  const MajorCompanies: seq<string> := ["Amazon", "Google", "Microsoft", "IBM", "Oracle", "Accenture", "Apple"]

  /** `majorCompanies.some(mc => name.toLowerCase().includes(mc.toLowerCase()))`. */
  predicate IsMajor(name: string) {
    exists mc :: mc in MajorCompanies && Contains(Lower(name), Lower(mc))
  }

  /** The company's published experiences, by exact name. */
  function PublishedOf(es: seq<Listing>, name: string): (r: seq<Listing>)
    ensures forall e :: e in r <==> e in es && e.companyName == name && e.isPublished
  {
    FilterSeq(es, (e: Listing) => e.companyName == name && e.isPublished)
  }

  /** A package in a condition: absent and 0 are falsy. */
  predicate HasPackage(e: Listing) {
    e.packageOffered.Some? && e.packageOffered.value != 0.0
  }

  function PackageSum(es: seq<Listing>): real {
    if es == [] then 0.0
    else PackageSum(es[..|es| - 1]) + (if HasPackage(es[|es| - 1]) then es[|es| - 1].packageOffered.value else 0.0)
  }

  function SelectionRate(mine: seq<Listing>): (r: real)
    ensures mine == [] ==> r == 0.0
  {
    if |mine| > 0 then (CountIf(mine, (e: Listing) => e.finalResult == "Selected") as real / |mine| as real) * 100.0 else 0.0
  }

  function AvgPackage(mine: seq<Listing>): (r: real)
    ensures CountIf(mine, HasPackage) == 0 ==> r == 0.0
  {
    var n := CountIf(mine, HasPackage);
    if n == 0 then 0.0 else PackageSum(mine) / n as real
  }

  function CardOf(es: seq<Listing>, name: string): CompanyCard {
    var mine := PublishedOf(es, name);
    CompanyCard(name, |mine|, SelectionRate(mine), AvgPackage(mine), IsMajor(name))
  }

  function Names(es: seq<Listing>): (r: seq<string>)
    ensures |r| == |es| && forall i :: 0 <= i < |es| ==> r[i] == es[i].companyName
  {
    seq(|es|, i requires 0 <= i < |es| => es[i].companyName)
  }

  /** `allCompanies`: `Array.from(new Set(names))`, so first-occurrence
      order, then a card each; no data yet gives no cards. */
  function AllCompanies(experiences: Option<seq<Listing>>): seq<CompanyCard> {
    if experiences.None? then []
    else
      var es := experiences.value;
      var names := Dedup(Names(es));
      seq(|names|, i requires 0 <= i < |names| => CardOf(es, names[i]))
  }

  /** The comparator returns no more than 0: majors first, then the larger count. */
  predicate Precedes(a: CompanyCard, b: CompanyCard) {
    (a.isMajor && !b.isMajor) || (a.isMajor == b.isMajor && a.experienceCount >= b.experienceCount)
  }

  predicate InOrder(cards: seq<CompanyCard>) {
    forall i, j :: 0 <= i < j < |cards| ==> Precedes(cards[i], cards[j])
  }

  lemma PrecedesTransitive(a: CompanyCard, b: CompanyCard, c: CompanyCard)
    requires Precedes(a, b) && Precedes(b, c)
    ensures Precedes(a, c)
  {
  }

  /** One card placed after every card that may precede it, which keeps the
      sort stable. */
  function InsertCard(sorted: seq<CompanyCard>, x: CompanyCard): (r: seq<CompanyCard>)
    requires InOrder(sorted)
    ensures InOrder(r) && multiset(r) == multiset(sorted) + multiset{x}
    ensures forall i :: 0 <= i < |r| ==> r[i] == x || r[i] in sorted
  {
    if sorted == [] || Precedes(sorted[|sorted| - 1], x) then
      InsertAtEnd(sorted, x, sorted + [x]);
      sorted + [x]
    else
      var front := InsertCard(sorted[..|sorted| - 1], x);
      InsertBeforeLast(sorted, x, front, front + [sorted[|sorted| - 1]]);
      front + [sorted[|sorted| - 1]]
  }

  /** A card that every sorted card may precede goes last. */
  lemma InsertAtEnd(sorted: seq<CompanyCard>, x: CompanyCard, r: seq<CompanyCard>)
    requires InOrder(sorted) && (sorted == [] || Precedes(sorted[|sorted| - 1], x)) && r == sorted + [x]
    ensures InOrder(r) && multiset(r) == multiset(sorted) + multiset{x}
    ensures forall i :: 0 <= i < |r| ==> r[i] == x || r[i] in sorted
  {
    forall i | 0 <= i < |sorted|
      ensures Precedes(sorted[i], x)
    {
      if i < |sorted| - 1 {
        PrecedesTransitive(sorted[i], sorted[|sorted| - 1], x);
      }
    }
    forall i, j | 0 <= i < j < |r| ensures Precedes(r[i], r[j]) {
      assert r[i] == sorted[i];
      if j < |sorted| { assert r[j] == sorted[j]; }
    }
    forall i | 0 <= i < |r| ensures r[i] == x || r[i] in sorted {
      if i < |sorted| { assert r[i] == sorted[i]; }
    }
  }

  /** Otherwise it goes among the others, which all may precede the last card. */
  lemma InsertBeforeLast(sorted: seq<CompanyCard>, x: CompanyCard, front: seq<CompanyCard>, r: seq<CompanyCard>)
    requires sorted != [] && InOrder(sorted) && !Precedes(sorted[|sorted| - 1], x)
    requires InOrder(front) && multiset(front) == multiset(sorted[..|sorted| - 1]) + multiset{x}
    requires forall i :: 0 <= i < |front| ==> front[i] == x || front[i] in sorted[..|sorted| - 1]
    requires r == front + [sorted[|sorted| - 1]]
    ensures InOrder(r) && multiset(r) == multiset(sorted) + multiset{x}
    ensures forall i :: 0 <= i < |r| ==> r[i] == x || r[i] in sorted
  {
    var init := sorted[..|sorted| - 1];
    var last := sorted[|sorted| - 1];
    assert sorted == init + [last];
    forall i | 0 <= i < |front|
      ensures Precedes(front[i], last)
    {
      if front[i] != x {
        var k :| 0 <= k < |init| && init[k] == front[i];
        assert sorted[k] == init[k];
      }
    }
    forall i, j | 0 <= i < j < |r| ensures Precedes(r[i], r[j]) {
      assert r[i] == front[i];
      if j < |front| { assert r[j] == front[j]; }
    }
    forall i | 0 <= i < |r| ensures r[i] == x || r[i] in sorted {
      if i < |front| { assert r[i] == front[i]; }
    }
  }

  /** `allCompanies.sort(comparator)`: `Array.prototype.sort` is stable. */
  function SortCompanies(cards: seq<CompanyCard>): (r: seq<CompanyCard>)
    ensures InOrder(r) && multiset(r) == multiset(cards)
  {
    if cards == [] then []
    else
      assert cards == cards[..|cards| - 1] + [cards[|cards| - 1]];
      InsertCard(SortCompanies(cards[..|cards| - 1]), cards[|cards| - 1])
  }

  function Companies(experiences: Option<seq<Listing>>): seq<CompanyCard> {
    SortCompanies(AllCompanies(experiences))
  }

  // ---------------------------------------------------------------------------
  // Properties of the cards

  /** One card per distinct company name of the list, unpublished-only names
      included, and none for any other name. */
  lemma CardsPerName(es: seq<Listing>, c: string)
    ensures var cards := AllCompanies(Some(es));
      (exists i :: 0 <= i < |cards| && cards[i].name == c) <==> exists e :: e in es && e.companyName == c
  {
    var names := Dedup(Names(es));
    var cards := AllCompanies(Some(es));
    if exists e :: e in es && e.companyName == c {
      var e :| e in es && e.companyName == c;
      var k :| 0 <= k < |es| && es[k] == e;
      assert Names(es)[k] == c;
      assert c in names;
      var i :| 0 <= i < |names| && names[i] == c;
      assert cards[i].name == c;
    }
    if exists i :: 0 <= i < |cards| && cards[i].name == c {
      var i :| 0 <= i < |cards| && cards[i].name == c;
      assert names[i] == c;
      assert c in Names(es);
      var k :| 0 <= k < |es| && Names(es)[k] == c;
      assert es[k] in es && es[k].companyName == c;
    }
  }

  /** No company gets two cards. */
  lemma CardsDistinct(es: seq<Listing>)
    ensures var cards := AllCompanies(Some(es));
      forall i, j :: 0 <= i < j < |cards| ==> cards[i].name != cards[j].name
  {
    var names := Dedup(Names(es));
    var cards := AllCompanies(Some(es));
    forall i, j | 0 <= i < j < |cards|
      ensures cards[i].name != cards[j].name
    {
      assert cards[i].name == names[i] && cards[j].name == names[j];
    }
  }

  /** A card's count is its company's published experiences, so it is 0 for
      a company seen only unpublished; rate and average are 0 with nothing
      to average. */
  lemma CardCounts(es: seq<Listing>, i: nat)
    requires i < |AllCompanies(Some(es))|
    ensures var card := AllCompanies(Some(es))[i];
      card.experienceCount == CountIf(es, (e: Listing) => e.companyName == card.name && e.isPublished) &&
      (card.experienceCount == 0 ==> card.selectionRate == 0.0 && card.avgPackage == 0.0) &&
      (card.isMajor <==> IsMajor(card.name))
  {
    var card := AllCompanies(Some(es))[i];
    if card.experienceCount == 0 {
      assert PublishedOf(es, card.name) == [];
    }
  }

  /** The sorted list keeps every card and puts every major company before
      every other, and within each group the larger count first. */
  lemma SortedCompanies(experiences: Option<seq<Listing>>)
    ensures var sorted := Companies(experiences);
      multiset(sorted) == multiset(AllCompanies(experiences)) &&
      (forall i, j :: 0 <= i < j < |sorted| && sorted[j].isMajor ==> sorted[i].isMajor) &&
      (forall i, j :: 0 <= i < j < |sorted| && sorted[i].isMajor == sorted[j].isMajor ==>
         sorted[i].experienceCount >= sorted[j].experienceCount)
  {
    var sorted := Companies(experiences);
    forall i, j | 0 <= i < j < |sorted|
      ensures Precedes(sorted[i], sorted[j])
    {
    }
  }

  /** The test ignores the case of the company's name. */
  lemma MajorIgnoresCase(name: string)
    ensures IsMajor(Lower(name)) == IsMajor(name)
  {
    LowerIdempotent(name);
  }

  /** A major company's name in another case counts. */
  lemma UpperCaseIsMajor()
    ensures IsMajor("GOOGLE")
  {
    assert MajorCompanies[1] == "Google";
    assert Lower("GOOGLE") == "google";
    assert Lower("Google") == "google";
    ContainsSelf("google");
  }

  /** A major company's name inside a longer one counts, whatever the case
      of the text around it ('IBM India', 'amazon web services'). */
  lemma LongerNameIsMajor(before: string, mc: string, after: string)
    requires mc in MajorCompanies
    ensures IsMajor(before + mc + after)
  {
    LowerAppend(before + mc, after);
    LowerAppend(before, mc);
    ContainsMiddle(Lower(before), Lower(mc), Lower(after));
  }

  // ---------------------------------------------------------------------------
  // The load error

  const LoadFailed: string := "Failed to load experiences"
  const ConnectionIssue: string := "Connection issue. Please refresh the page (Ctrl + Shift + R)"
  const Unreachable: string := "Unable to connect to server. Please check if the backend is running."

  /** `String(err.message)`; an `Error` without its own message inherits `''`. */
  function MessageText(m: Js): string {
    if m.Undefined? then "" else ToString(m)
  }

  /** The catch block's first half. `None` is a TypeError (a `null` item of
      a rendered detail list). */
  function LoadMessage(err: Js, stringify: Stringify): Option<Js> {
    var message := OptMember(err, "message");
    if err.ErrorObj? then Some(Str(MessageText(Prop(err, "message"))))
    else if Truthy(message) then Some(Str(ToString(message)))
    else if Truthy(ExtractedOf(err)) then Some(ExtractedOf(err))
    else if Truthy(DetailOf(err)) && DetailOf(err).Str? then Some(DetailOf(err))
    else if Truthy(DetailOf(err)) && DetailOf(err).Arr? then JoinDetail(DetailOf(err).items, stringify)
    else Some(Str(LoadFailed))
  }

  /** How `fetch('/health')` went. */
  datatype Probe = HealthOk | HealthNotOk | HealthUnreachable

  /** Line 61's test: the probe runs for network wording or a missing
      response. `None` is a TypeError from `includes` on a message that is
      neither a string nor a list. */
  function ProbeWanted(message: Js, err: Js): Option<bool> {
    match Includes(message, "Network")
    case None => None
    case Some(network) =>
      if network then Some(true)
      else match Includes(message, "Failed to fetch")
        case None => None
        case Some(failed) => Some(failed || !Truthy(OptMember(err, "response")))
  }

  /** The message stored by the catch block (`None` when it raised instead). */
  function ShownMessage(err: Js, probe: Probe, stringify: Stringify): Option<Js> {
    match LoadMessage(err, stringify)
    case None => None
    case Some(m) =>
      match ProbeWanted(m, err)
      case None => None
      case Some(wanted) =>
        if !wanted then Some(m)
        else if probe == HealthOk then Some(Str(ConnectionIssue))
        else Some(Str(Unreachable))
  }

  /** The probe runs exactly for a string message with network wording, or
      for an error without a response. */
  lemma ProbeCondition(err: Js, s: string)
    ensures ProbeWanted(Str(s), err) ==
      Some(Contains(s, "Network") || Contains(s, "Failed to fetch") || !Truthy(OptMember(err, "response")))
  {
  }

  /** An error with no response always ends in one of the two connection
      messages, according to the probe alone. */
  lemma NoResponseProbes(err: Js, probe: Probe, stringify: Stringify)
    requires !Truthy(OptMember(err, "response"))
    requires LoadMessage(err, stringify).Some? && LoadMessage(err, stringify).value.Str?
    ensures ShownMessage(err, probe, stringify) == Some(Str(if probe == HealthOk then ConnectionIssue else Unreachable))
  {
  }

  /** A plain message from a server that answered passes through unchanged. */
  lemma AnsweredPassesThrough(err: Js, probe: Probe, stringify: Stringify, s: string)
    requires Truthy(OptMember(err, "response"))
    requires LoadMessage(err, stringify) == Some(Str(s))
    requires !Contains(s, "Network") && !Contains(s, "Failed to fetch")
    ensures ShownMessage(err, probe, stringify) == Some(Str(s))
  {
  }

  /** Errors the HTTP client rejects carry a string message, which is what
      the dashboard reads first, even when empty. */
  lemma ErrorMessageFirst(message: string, stringify: Stringify)
    ensures LoadMessage(NewErrorJs(message), stringify) == Some(Str(message))
  {
  }

  // ---------------------------------------------------------------------------
  // The component's error state

  class Page {
    var hasError: bool
    var errorMessage: Option<Js>

    constructor ()
      ensures !hasError && errorMessage.None?
    {
      hasError, errorMessage := false, None;
    }

    /** The error card shows when the flag is set and the message is truthy. */
    function ShowsError(): bool
      reads this
    {
      hasError && errorMessage.Some? && Truthy(errorMessage.value)
    }

    /** The `queryFn` catch block; `raised` when it throws a TypeError before
        storing a message. */
    method LoadFailedWith(err: Js, probe: Probe, stringify: Stringify) returns (raised: bool)
      modifies this
      ensures hasError
      ensures raised <==> ShownMessage(err, probe, stringify).None?
      ensures !raised ==> errorMessage == ShownMessage(err, probe, stringify)
      ensures raised ==> errorMessage == old(errorMessage)
    {
      hasError := true;
      var message := LoadMessage(err, stringify);
      if message.None? {
        return true;
      }
      var wanted := ProbeWanted(message.value, err);
      if wanted.None? {
        return true;
      }
      var m := message.value;
      if wanted.value {
        m := if probe == HealthOk then Str(ConnectionIssue) else Str(Unreachable);
      }
      errorMessage := Some(m);
      raised := false;
    }
  }
}
