/** The admin router (`backend/app/api/v1/admin.py`): the single-password
    admin login that creates its admin row on first use, the approve and
    reject endpoints for experiences and user profiles with their audit
    records, and the profile eligibility score. The configured
    `ADMIN_PASSWORD`, bcrypt and the salt are parameters. */
module AdminBackend {
  import opened Util
  import opened Json
  import opened Models
  import opened Security
  import AuthApi

  const InvalidAdmin: string := "Invalid admin credentials"
  const AdminAuthenticated: string := "Admin authenticated"
  const ExperienceNotFound: string := "Experience not found"
  const UserNotFound: string := "User not found"
  const InvalidAction: string := "Invalid action. Use 'approve' or 'reject'"
  const SuperAdmin: string := "super_admin"
  /** `max_score`. */
  const MaxScore: nat := 100

  datatype AdminAuthResponse = AdminAuthResponse(message: string, adminId: int)

  /** `ApprovalRequest`; `reason` defaults to `None`. */
  datatype ApprovalRequest = ApprovalRequest(experienceId: int, action: string, reason: Option<string>)

  /** `ProfileApprovalRequest`. */
  datatype ProfileApprovalRequest = ProfileApprovalRequest(userId: int, action: string, reason: Option<string>)

  predicate KnownAction(action: string) {
    action == "approve" || action == "reject"
  }

  /** The audit record's `reason`: a string, or JSON `null`. */
  function ReasonJs(reason: Option<string>): Js {
    if reason.Some? then Str(reason.value) else Null
  }

  // ---------------------------------------------------------------------------
  // Admin login

  /** `POST /admin/login`: the truncated passwords must agree; the admin row
      for the address is reused, or created with the hash of the truncated
      password and the role `super_admin`. */
  function AdminLoginOutcome(t: Tables, email: string, password: string, configured: string,
                             salt: Salt, hashpw: HashPw): Transaction<AdminAuthResponse>
    requires BcryptDomain(hashpw)
  {
    var requestPassword := TruncateTo72Bytes(password);
    if requestPassword != TruncateTo72Bytes(configured) then Transaction(t, Err(HttpError(401, InvalidAdmin)))
    else match AdminByEmail(t.admins, email)
      case Some(k) => Transaction(t, Ok(AdminAuthResponse(AdminAuthenticated, t.admins[k].id)))
      case None =>
        var admin := Admin(NextId(AdminIds(t.admins)), email, GetPasswordHash(requestPassword, salt, hashpw), SuperAdmin, true);
        Transaction(t.(admins := t.admins + [admin]), Ok(AdminAuthResponse(AdminAuthenticated, admin.id)))
  }

  /** The login is refused, with 401 and no change, exactly when the two
      truncated passwords differ. */
  lemma AdminLoginRefusal(t: Tables, email: string, password: string, configured: string, salt: Salt, hashpw: HashPw)
    requires BcryptDomain(hashpw)
    ensures var o := AdminLoginOutcome(t, email, password, configured, salt, hashpw);
      (o.result.Err? <==> TruncateTo72Bytes(password) != TruncateTo72Bytes(configured)) &&
      (o.result.Err? ==> o.after == t && o.result.error == HttpError(401, InvalidAdmin))
  {
  }

  /** A password that shares its first 72 bytes' worth of characters with the
      configured one is as good as the configured one. */
  lemma AdminLoginLongPassword(t: Tables, email: string, password: string, configured: string, salt: Salt, hashpw: HashPw)
    requires BcryptDomain(hashpw)
    requires TruncateTo72Bytes(password) == TruncateTo72Bytes(configured)
    ensures AdminLoginOutcome(t, email, password, configured, salt, hashpw) ==
            AdminLoginOutcome(t, email, configured, configured, salt, hashpw)
  {
  }

  /** An existing row for the address is reused and nothing changes. */
  lemma AdminLoginReuses(t: Tables, email: string, password: string, configured: string, salt: Salt, hashpw: HashPw)
    requires BcryptDomain(hashpw)
    requires TruncateTo72Bytes(password) == TruncateTo72Bytes(configured)
    requires AdminByEmail(t.admins, email).Some?
    ensures var o := AdminLoginOutcome(t, email, password, configured, salt, hashpw);
      o.after == t && o.result.Ok? &&
      exists k :: 0 <= k < |t.admins| && t.admins[k].email == email && o.result.value.adminId == t.admins[k].id
  {
  }

  /** Otherwise exactly one row is added: a fresh id, the address, the role
      `super_admin`, active, hashed from at most 72 bytes of the password. */
  lemma AdminLoginCreates(t: Tables, email: string, password: string, configured: string, salt: Salt, hashpw: HashPw)
    requires BcryptDomain(hashpw)
    requires TruncateTo72Bytes(password) == TruncateTo72Bytes(configured)
    requires AdminByEmail(t.admins, email).None?
    ensures var o := AdminLoginOutcome(t, email, password, configured, salt, hashpw);
      o.result.Ok? && |o.after.admins| == |t.admins| + 1 && o.after.admins[..|t.admins|] == t.admins &&
      o.after == t.(admins := o.after.admins) &&
      var a := o.after.admins[|t.admins|];
      a.email == email && a.role == SuperAdmin && a.isActive && a.id == o.result.value.adminId &&
      a.id !in AdminIds(t.admins) &&
      a.hashedPassword == GetPasswordHash(TruncateTo72Bytes(password), salt, hashpw)
  {
  }

  /** Logging in again with the same address adds nothing and answers the same id. */
  lemma {:induction false} AdminLoginIdempotent(t: Tables, email: string, password: string, configured: string,
                                                salt: Salt, hashpw: HashPw)
    requires BcryptDomain(hashpw)
    ensures var o := AdminLoginOutcome(t, email, password, configured, salt, hashpw);
      AdminLoginOutcome(o.after, email, password, configured, salt, hashpw) == o
  {
    var o := AdminLoginOutcome(t, email, password, configured, salt, hashpw);
    if TruncateTo72Bytes(password) == TruncateTo72Bytes(configured) && AdminByEmail(t.admins, email).None? {
      var a := o.after.admins[|t.admins|];
      FirstAdminFound(t.admins, a, email);
    }
  }

  /** Below a table with no row for an address, the appended row is the one found. */
  lemma {:induction false} FirstAdminFound(as_: seq<Admin>, a: Admin, email: string)
    requires AdminByEmail(as_, email).None? && a.email == email
    ensures AdminByEmail(as_ + [a], email) == Some(|as_|)
  {
    if as_ != [] {
      assert (as_ + [a])[1..] == as_[1..] + [a];
      FirstAdminFound(as_[1..], a, email);
    }
  }

  // ---------------------------------------------------------------------------
  // Approving experiences

  /** The response message as the endpoint writes it: the action with a `d`
      appended. */
  function ExperienceMessageAsWritten(action: string): string {
    "Experience " + action + "d successfully"
  }

  /** For `reject` that gives a misspelt past tense. */
  lemma RejectMessageMisspelt()
    ensures ExperienceMessageAsWritten("reject") == "Experience rejectd successfully"
    ensures ExperienceMessageAsWritten("reject") != "Experience rejected successfully"
  {
    assert ExperienceMessageAsWritten("reject")[17] == 'd';
    assert "Experience rejected successfully"[17] == 'e';
  }

  /** The message the format string is evidently meant to give: the action's
      past tense. */
  function ExperienceMessage(action: string): (m: string)
    requires KnownAction(action)
    ensures action == "approve" ==> m == "Experience approved successfully"
    ensures action == "reject" ==> m == "Experience rejected successfully"
  {
    "Experience " + (if action == "approve" then "approved" else "rejected") + " successfully"
  }

  /** The two agree on `approve`. */
  lemma ApproveMessageUnchanged()
    ensures ExperienceMessage("approve") == ExperienceMessageAsWritten("approve")
  {
  }

  /** The row recorded for a decision. */
  function Audit(logs: seq<AuditLog>, adminId: int, action: string, entityType: string, entityId: int, details: Js): AuditLog {
    AuditLog(NextId(AuditIds(logs)), Some(adminId), action, entityType, entityId, details)
  }

  /** `POST /admin/experiences/approve`: a missing experience is 404, an
      unknown action 400; otherwise both flags take the decision and one
      audit row is recorded. `adminId` is the query parameter, 1 by default. */
  function ApproveExperienceOutcome(t: Tables, req: ApprovalRequest, adminId: int): Transaction<string> {
    match ExperienceById(t.experiences, req.experienceId)
    case None => Transaction(t, Err(HttpError(404, ExperienceNotFound)))
    case Some(k) =>
      if !KnownAction(req.action) then Transaction(t, Err(HttpError(400, InvalidAction)))
      else
        var approve := req.action == "approve";
        var e := t.experiences[k].(isApproved := approve, isPublished := approve);
        var log := Audit(t.auditLogs, adminId, req.action, "experience", e.id, Obj([Field("reason", ReasonJs(req.reason))]));
        Transaction(t.(experiences := t.experiences[k := e], auditLogs := t.auditLogs + [log]), Ok(ExperienceMessage(req.action)))
  }

  /** Refusals: 404 for a missing experience (checked first), 400 for an
      unknown action; neither changes anything or records an audit row. */
  lemma ApproveExperienceRefusals(t: Tables, req: ApprovalRequest, adminId: int)
    ensures var o := ApproveExperienceOutcome(t, req, adminId);
      (o.result.Err? ==> o.after == t) &&
      (ExperienceById(t.experiences, req.experienceId).None? ==> o.result == Err(HttpError(404, ExperienceNotFound))) &&
      (ExperienceById(t.experiences, req.experienceId).Some? && !KnownAction(req.action) ==>
         o.result == Err(HttpError(400, InvalidAction))) &&
      (o.result.Ok? <==> ExperienceById(t.experiences, req.experienceId).Some? && KnownAction(req.action))
  {
  }

  /** A decision sets `is_approved` and `is_published` both to whether it is
      `approve`, touches no other row or column, and appends exactly one
      audit row naming the admin, the action and the experience. */
  lemma ApproveExperienceEffect(t: Tables, req: ApprovalRequest, adminId: int)
    requires ApproveExperienceOutcome(t, req, adminId).result.Ok?
    ensures var o := ApproveExperienceOutcome(t, req, adminId);
      var k := ExperienceById(t.experiences, req.experienceId).value;
      |o.after.experiences| == |t.experiences| &&
      o.after.experiences[k].isApproved == (req.action == "approve") &&
      o.after.experiences[k].isPublished == (req.action == "approve") &&
      o.after.experiences[k] == t.experiences[k].(isApproved := o.after.experiences[k].isApproved,
                                                  isPublished := o.after.experiences[k].isPublished) &&
      (forall i :: 0 <= i < |t.experiences| && i != k ==> o.after.experiences[i] == t.experiences[i]) &&
      |o.after.auditLogs| == |t.auditLogs| + 1 && o.after.auditLogs[..|t.auditLogs|] == t.auditLogs &&
      var log := o.after.auditLogs[|t.auditLogs|];
      log.adminId == Some(adminId) && log.action == req.action && log.entityType == "experience" &&
      log.entityId == req.experienceId && log.id !in AuditIds(t.auditLogs) &&
      o.after.users == t.users && o.after.bookmarks == t.bookmarks && o.after.admins == t.admins
  {
  }

  // ---------------------------------------------------------------------------
  // Profile eligibility

  /** One of the score's checks: the points it adds when it passes, the
      strength it then reports, and the issue it reports otherwise (the
      approved-experience check reports none). */
  datatype Check = Check(points: nat, passed: bool, strength: string, issue: Option<string>)

  datatype Tallied = Tallied(score: nat, issues: seq<string>, strengths: seq<string>)

  /** A column that is set and not only whitespace. */
  predicate Filled(o: Option<string>) {
    o.Some? && |Trim(o.value)| > 0
  }

  /** The texts the checks report. */
  const NameGiven: string := "Full name provided"
  const NameMissing: string := "Full name is missing"
  const EmailGiven: string := "Email verified"
  const EmailMissing: string := "Email not verified"
  const CollegeGiven: string := "College information provided"
  const CollegeMissing: string := "College name missing"
  const BranchGiven: string := "Branch information provided"
  const BranchMissing: string := "Branch information missing"
  const LinkedInGiven: string := "LinkedIn profile linked"
  const LinkedInMissing: string := "LinkedIn profile not linked"
  const GitHubGiven: string := "GitHub profile linked"
  const GitHubMissing: string := "GitHub profile not linked"
  const SharedTail: string := " experience(s) shared"
  const NoneShared: string := "No experiences shared yet"
  const ApprovedTail: string := " approved experience(s)"
  const CompleteGiven: string := "Profile 100% complete"
  const IncompleteHead: string := "Profile only "
  const IncompleteTail: string := "% complete"

  function NameCheck(u: User): Check {
    Check(10, |Trim(u.fullName)| > 0, NameGiven, Some(NameMissing))
  }

  function EmailCheck(u: User): Check {
    Check(10, u.email != "", EmailGiven, Some(EmailMissing))
  }

  function CollegeCheck(u: User): Check {
    Check(10, Filled(u.collegeName), CollegeGiven, Some(CollegeMissing))
  }

  function BranchCheck(u: User): Check {
    Check(5, Filled(u.branch), BranchGiven, Some(BranchMissing))
  }

  function LinkedInCheck(u: User): Check {
    Check(15, Filled(u.linkedinId), LinkedInGiven, Some(LinkedInMissing))
  }

  function GitHubCheck(u: User): Check {
    Check(15, Filled(u.githubId), GitHubGiven, Some(GitHubMissing))
  }

  /** Five points per shared experience, at most 20; none for none. */
  function ExperiencePoints(n: nat): (p: nat)
    ensures n == 0 ==> p == 0
  {
    Min(20, n * 5)
  }

  function SharedCheck(count: nat): Check {
    Check(ExperiencePoints(count), count > 0, IntToString(count) + SharedTail, Some(NoneShared))
  }

  function ApprovedCheck(approved: nat): Check {
    Check(10, approved > 0, IntToString(approved) + ApprovedTail, None)
  }

  function CompleteCheck(u: User): Check {
    Check(10, u.profileCompletionPercentage >= 100, CompleteGiven,
          Some(IncompleteHead + IntToString(u.profileCompletionPercentage) + IncompleteTail))
  }

  /** The checks in the order the score takes them. */
  function Checks(u: User, count: nat, approved: nat): seq<Check> {
    [NameCheck(u), EmailCheck(u), CollegeCheck(u), BranchCheck(u), LinkedInCheck(u), GitHubCheck(u),
     SharedCheck(count), ApprovedCheck(approved), CompleteCheck(u)]
  }

  /** One check's contribution. */
  function Apply(t: Tallied, c: Check): Tallied {
    if c.passed then Tallied(t.score + c.points, t.issues, t.strengths + [c.strength])
    else Tallied(t.score, t.issues + (if c.issue.Some? then [c.issue.value] else []), t.strengths)
  }

  /** The checks taken in order from zero. */
  function Tally(cs: seq<Check>): Tallied {
    if cs == [] then Tallied(0, [], []) else Apply(Tally(cs[..|cs| - 1]), cs[|cs| - 1])
  }

  function TotalPoints(cs: seq<Check>): nat {
    if cs == [] then 0 else TotalPoints(cs[..|cs| - 1]) + cs[|cs| - 1].points
  }

  function PassedPoints(cs: seq<Check>): nat {
    if cs == [] then 0 else PassedPoints(cs[..|cs| - 1]) + (if cs[|cs| - 1].passed then cs[|cs| - 1].points else 0)
  }

  predicate Passed(c: Check) { c.passed }
  predicate Flagged(c: Check) { !c.passed && c.issue.Some? }

  lemma TallyPrefix(cs: seq<Check>, k: nat)
    requires k < |cs|
    ensures Tally(cs[..k + 1]) == Apply(Tally(cs[..k]), cs[k])
  {
    assert cs[..k + 1][..k] == cs[..k];
  }

  /** The score is the points of the passing checks; one strength per
      passing check and one issue per failing check that has one. */
  lemma {:induction false} TallyCounts(cs: seq<Check>)
    ensures Tally(cs).score == PassedPoints(cs) <= TotalPoints(cs)
    ensures |Tally(cs).strengths| == CountIf(cs, Passed)
    ensures |Tally(cs).issues| == CountIf(cs, Flagged)
  {
    if cs != [] {
      TallyCounts(cs[..|cs| - 1]);
    }
  }

  /** Every passing check's strength is reported, every failing check's issue
      is reported, and nothing else is. */
  lemma {:induction false} TallyMembers(cs: seq<Check>)
    ensures forall k :: 0 <= k < |cs| && cs[k].passed ==> cs[k].strength in Tally(cs).strengths
    ensures forall k :: 0 <= k < |cs| && !cs[k].passed && cs[k].issue.Some? ==> cs[k].issue.value in Tally(cs).issues
    ensures forall s :: s in Tally(cs).strengths ==> exists k :: 0 <= k < |cs| && cs[k].passed && cs[k].strength == s
    ensures forall s :: s in Tally(cs).issues ==> exists k :: 0 <= k < |cs| && !cs[k].passed && cs[k].issue == Some(s)
  {
    if cs != [] {
      var init := cs[..|cs| - 1];
      TallyMembers(init);
      forall s | s in Tally(cs).strengths
        ensures exists k :: 0 <= k < |cs| && cs[k].passed && cs[k].strength == s
      {
        if s in Tally(init).strengths {
          var k :| 0 <= k < |init| && init[k].passed && init[k].strength == s;
          assert cs[k] == init[k];
        } else {
          assert cs[|cs| - 1].passed && cs[|cs| - 1].strength == s;
        }
      }
      forall s | s in Tally(cs).issues
        ensures exists k :: 0 <= k < |cs| && !cs[k].passed && cs[k].issue == Some(s)
      {
        if s in Tally(init).issues {
          var k :| 0 <= k < |init| && !init[k].passed && init[k].issue == Some(s);
          assert cs[k] == init[k];
        } else {
          assert !cs[|cs| - 1].passed && cs[|cs| - 1].issue == Some(s);
        }
      }
      forall k | 0 <= k < |cs| - 1
        ensures cs[k] == init[k]
      {
      }
    }
  }

  /** The user's experiences (`Experience.user_id == user.id`), in table order. */
  function OwnExperiences(es: seq<Experience>, userId: int): (r: seq<Experience>)
    ensures |r| <= |es|
    ensures forall e :: e in r <==> e in es && e.userId == userId
  {
    if es == [] then []
    else OwnExperiences(es[..|es| - 1], userId) + (if es[|es| - 1].userId == userId then [es[|es| - 1]] else [])
  }

  /** How many of them are approved. */
  function ApprovedCount(es: seq<Experience>): (n: nat)
    ensures n <= |es|
    ensures n > 0 <==> exists e :: e in es && e.isApproved
  {
    if es == [] then 0
    else
      var rest := ApprovedCount(es[..|es| - 1]);
      assert forall e :: e in es <==> e in es[..|es| - 1] || e == es[|es| - 1];
      rest + (if es[|es| - 1].isApproved then 1 else 0)
  }

  /** `int((score / max_score) * 100)` capped at 100; the division is exact
      here (see `PercentageIsScore`). */
  function Percentage(score: nat): int {
    Min(100, (((score as real) / (MaxScore as real)) * 100.0).Floor)
  }

  lemma PercentageIsScore(score: nat)
    ensures Percentage(score) == Min(100, score)
  {
  }

  /** The status and the recommendation for a percentage. */
  function Tier(p: int): (string, string) {
    if p >= 80 then ("Highly Eligible", "approve")
    else if p >= 60 then ("Eligible", "approve")
    else if p >= 40 then ("Needs Improvement", "review")
    else ("Not Eligible", "reject")
  }

  /** The tiers partition the percentages at 40, 60 and 80. */
  lemma TierThresholds(p: int)
    ensures Tier(p).1 == "approve" <==> p >= 60
    ensures Tier(p).1 == "review" <==> 40 <= p < 60
    ensures Tier(p).1 == "reject" <==> p < 40
    ensures Tier(p).0 == "Highly Eligible" <==> p >= 80
    ensures Tier(p).0 == "Not Eligible" <==> p < 40
  {
  }

  datatype Eligibility = Eligibility(
    percentage: int,
    score: nat,
    maxScore: nat,
    status: string,
    recommendation: string,
    issues: seq<string>,
    strengths: seq<string>,
    experienceCount: nat,
    approvedCount: nat)

  /** `calculate_profile_eligibility` for a user over the experience table. */
  function EligibilityOf(u: User, es: seq<Experience>): Eligibility {
    var mine := OwnExperiences(es, u.id);
    var approved := ApprovedCount(mine);
    var t := Tally(Checks(u, |mine|, approved));
    var p := Percentage(t.score);
    Eligibility(p, t.score, MaxScore, Tier(p).0, Tier(p).1, t.issues, t.strengths, |mine|, approved)
  }

  /** The dictionary the endpoint stores in the audit record. */
  function EligibilityJs(e: Eligibility): Js {
    Obj([ Field("eligibility_percentage", Num(e.percentage)),
          Field("score", Num(e.score)),
          Field("max_score", Num(e.maxScore)),
          Field("status", Str(e.status)),
          Field("recommendation", Str(e.recommendation)),
          Field("issues", Arr(StrItems(e.issues))),
          Field("strengths", Arr(StrItems(e.strengths))),
          Field("experience_count", Num(e.experienceCount)),
          Field("approved_experience_count", Num(e.approvedCount)) ])
  }

  function StrItems(ss: seq<string>): (r: seq<Js>)
    ensures |r| == |ss| && forall i :: 0 <= i < |ss| ==> r[i] == Str(ss[i])
  {
    if ss == [] then [] else StrItems(ss[..|ss| - 1]) + [Str(ss[|ss| - 1])]
  }

  /** Nine checks' tally, step by step. */
  lemma TallyNine(cs: seq<Check>)
    requires |cs| == 9
    ensures Tally(cs) == Apply(Apply(Apply(Apply(Apply(Apply(Apply(Apply(Apply(Tallied(0, [], []),
                     cs[0]), cs[1]), cs[2]), cs[3]), cs[4]), cs[5]), cs[6]), cs[7]), cs[8])
  {
    assert cs[..0] == [];
    TallyPrefix(cs, 0); TallyPrefix(cs, 1); TallyPrefix(cs, 2); TallyPrefix(cs, 3); TallyPrefix(cs, 4);
    TallyPrefix(cs, 5); TallyPrefix(cs, 6); TallyPrefix(cs, 7); TallyPrefix(cs, 8);
    assert cs[..9] == cs;
  }

  function Points(passed: bool, points: nat): nat { if passed then points else 0 }

  /** Nine checks score the points of those that pass. */
  lemma PassedNine(cs: seq<Check>)
    requires |cs| == 9
    ensures PassedPoints(cs) == Points(cs[0].passed, cs[0].points) + Points(cs[1].passed, cs[1].points) +
      Points(cs[2].passed, cs[2].points) + Points(cs[3].passed, cs[3].points) + Points(cs[4].passed, cs[4].points) +
      Points(cs[5].passed, cs[5].points) + Points(cs[6].passed, cs[6].points) + Points(cs[7].passed, cs[7].points) +
      Points(cs[8].passed, cs[8].points)
  {
    assert cs[..0] == [];
    forall k | 0 <= k < 9
      ensures PassedPoints(cs[..k + 1]) == PassedPoints(cs[..k]) + Points(cs[k].passed, cs[k].points)
    {
      assert cs[..k + 1][..k] == cs[..k];
    }
    assert cs[..9] == cs;
  }

  function One(b: bool): nat { if b then 1 else 0 }

  /** How many of nine checks satisfy a test. */
  lemma CountNine(cs: seq<Check>, p: Check -> bool)
    requires |cs| == 9
    ensures CountIf(cs, p) == One(p(cs[0])) + One(p(cs[1])) + One(p(cs[2])) + One(p(cs[3])) + One(p(cs[4])) +
                              One(p(cs[5])) + One(p(cs[6])) + One(p(cs[7])) + One(p(cs[8]))
  {
    assert cs[..0] == [];
    forall k | 0 <= k < 9
      ensures CountIf(cs[..k + 1], p) == CountIf(cs[..k], p) + One(p(cs[k]))
    {
      assert cs[..k + 1][..k] == cs[..k];
    }
    assert cs[..9] == cs;
  }

  /** The score in closed form: name 10, email 10, college 10, branch 5,
      LinkedIn 15, GitHub 15, min(20, 5n) for n experiences, 10 for any
      approved one and 10 for a complete profile. */
  function ComponentScore(name: bool, email: bool, college: bool, branch: bool, linkedin: bool, github: bool,
                          n: nat, approved: bool, complete: bool): nat {
    Points(name, 10) + Points(email, 10) + Points(college, 10) + Points(branch, 5) + Points(linkedin, 15) +
    Points(github, 15) + ExperiencePoints(n) + Points(approved, 10) + Points(complete, 10)
  }

  /** The closed form is a multiple of 5 of at most 105. */
  lemma ComponentScoreRange(name: bool, email: bool, college: bool, branch: bool, linkedin: bool, github: bool,
                            n: nat, approved: bool, complete: bool)
    ensures var s := ComponentScore(name, email, college, branch, linkedin, github, n, approved, complete);
      s <= 105 && s % 5 == 0
  {
    ExperiencePointsFive(n);
    var q := Points(name, 2) + Points(email, 2) + Points(college, 2) + Points(branch, 1) + Points(linkedin, 3) +
             Points(github, 3) + Min(4, n) + Points(approved, 2) + Points(complete, 2);
    assert ComponentScore(name, email, college, branch, linkedin, github, n, approved, complete) == 5 * q;
    MultipleOfFive(q);
  }

  lemma ExperiencePointsFive(n: nat)
    ensures ExperiencePoints(n) == 5 * Min(4, n)
  {
  }

  lemma MultipleOfFive(q: int)
    ensures (5 * q) % 5 == 0
  {
  }

  /** The score is the closed form over the user's columns, the number of
      the user's experiences and whether any of them is approved. */
  lemma EligibilityScore(u: User, es: seq<Experience>)
    ensures var e := EligibilityOf(u, es);
      e.experienceCount == |OwnExperiences(es, u.id)| &&
      (e.approvedCount > 0 <==> exists x :: x in es && x.userId == u.id && x.isApproved) &&
      e.score == ComponentScore(|Trim(u.fullName)| > 0, u.email != "", Filled(u.collegeName), Filled(u.branch),
                                Filled(u.linkedinId), Filled(u.githubId), e.experienceCount, e.approvedCount > 0,
                                u.profileCompletionPercentage >= 100)
  {
    var mine := OwnExperiences(es, u.id);
    ChecksScore(u, |mine|, ApprovedCount(mine));
    forall x | x in es && x.userId == u.id && x.isApproved
      ensures x in mine
    {
    }
  }

  /** The nine checks' tally scores the closed form. */
  lemma ChecksScore(u: User, count: nat, approved: nat)
    ensures Tally(Checks(u, count, approved)).score ==
      ComponentScore(|Trim(u.fullName)| > 0, u.email != "", Filled(u.collegeName), Filled(u.branch),
                     Filled(u.linkedinId), Filled(u.githubId), count, approved > 0,
                     u.profileCompletionPercentage >= 100)
  {
    var cs := Checks(u, count, approved);
    TallyCounts(cs);
    NineScore(cs, |Trim(u.fullName)| > 0, u.email != "", Filled(u.collegeName), Filled(u.branch),
              Filled(u.linkedinId), Filled(u.githubId), count, approved > 0, u.profileCompletionPercentage >= 100);
  }

  /** Nine checks with the score's points and outcomes sum to the closed form. */
  lemma NineScore(cs: seq<Check>, name: bool, email: bool, college: bool, branch: bool, linkedin: bool, github: bool,
                  n: nat, approved: bool, complete: bool)
    requires |cs| == 9
    requires cs[0].points == 10 && cs[0].passed == name && cs[1].points == 10 && cs[1].passed == email
    requires cs[2].points == 10 && cs[2].passed == college && cs[3].points == 5 && cs[3].passed == branch
    requires cs[4].points == 15 && cs[4].passed == linkedin && cs[5].points == 15 && cs[5].passed == github
    requires cs[6].points == ExperiencePoints(n) && cs[6].passed == (n > 0)
    requires cs[7].points == 10 && cs[7].passed == approved && cs[8].points == 10 && cs[8].passed == complete
    ensures PassedPoints(cs) == ComponentScore(name, email, college, branch, linkedin, github, n, approved, complete)
  {
    PassedNine(cs);
  }

  /** So the score is a multiple of 5 of at most 105. */
  lemma EligibilityScoreRange(u: User, es: seq<Experience>)
    ensures EligibilityOf(u, es).score <= 105 && EligibilityOf(u, es).score % 5 == 0
  {
    EligibilityScore(u, es);
    var e := EligibilityOf(u, es);
    ComponentScoreRange(|Trim(u.fullName)| > 0, u.email != "", Filled(u.collegeName), Filled(u.branch),
                        Filled(u.linkedinId), Filled(u.githubId), e.experienceCount, e.approvedCount > 0,
                        u.profileCompletionPercentage >= 100);
  }

  /** The percentage is the score capped at 100. */
  lemma EligibilityPercentage(u: User, es: seq<Experience>)
    ensures var e := EligibilityOf(u, es);
      e.percentage == Min(100, e.score) && 0 <= e.percentage <= 100
  {
    PercentageIsScore(EligibilityOf(u, es).score);
  }

  /** Every check reports exactly one of its strength or its issue, except
      that no approved experience reports nothing: eight or nine entries. */
  lemma EligibilityReportCount(u: User, es: seq<Experience>)
    ensures var e := EligibilityOf(u, es);
      |e.issues| + |e.strengths| == if e.approvedCount > 0 then 9 else 8
  {
    var mine := OwnExperiences(es, u.id);
    var cs := Checks(u, |mine|, ApprovedCount(mine));
    TallyCounts(cs);
    ReportNine(cs);
  }

  /** Nine checks of which all but the eighth carry an issue report eight
      entries, plus one when the eighth passes. */
  lemma ReportNine(cs: seq<Check>)
    requires |cs| == 9 && cs[7].issue.None?
    requires forall k :: 0 <= k < 9 && k != 7 ==> cs[k].issue.Some?
    ensures CountIf(cs, Passed) + CountIf(cs, Flagged) == 8 + One(cs[7].passed)
  {
    ReportedPrefix(cs, 9);
    assert cs[..9] == cs;
  }

  /** The first `n` of those checks report `n` entries, less one once the
      eighth has failed. */
  lemma {:induction false} ReportedPrefix(cs: seq<Check>, n: nat)
    requires n <= |cs| == 9 && cs[7].issue.None?
    requires forall k :: 0 <= k < 9 && k != 7 ==> cs[k].issue.Some?
    ensures CountIf(cs[..n], Passed) + CountIf(cs[..n], Flagged) == n - (if n > 7 && !cs[7].passed then 1 else 0)
  {
    if n > 0 {
      ReportedPrefix(cs, n - 1);
      assert cs[..n][..n - 1] == cs[..n - 1];
    }
  }

  /** Each passing check's strength and each failing check's issue is
      reported, and every issue reported is a failing check's. */
  lemma EligibilityReportMembers(u: User, es: seq<Experience>)
    ensures var e := EligibilityOf(u, es);
      var cs := Checks(u, e.experienceCount, e.approvedCount);
      (forall k :: 0 <= k < |cs| && cs[k].passed ==> cs[k].strength in e.strengths) &&
      (forall k :: 0 <= k < |cs| && !cs[k].passed && cs[k].issue.Some? ==> cs[k].issue.value in e.issues) &&
      (forall s :: s in e.issues ==> exists k :: 0 <= k < |cs| && !cs[k].passed && cs[k].issue == Some(s))
  {
    var mine := OwnExperiences(es, u.id);
    TallyMembers(Checks(u, |mine|, ApprovedCount(mine)));
  }

  /** A complete profile with four experiences, one approved, scores 105,
      reports no issue and is highly eligible. */
  lemma CompleteProfileHighlyEligible(u: User, es: seq<Experience>)
    requires |Trim(u.fullName)| > 0 && u.email != ""
    requires Filled(u.collegeName) && Filled(u.branch) && Filled(u.linkedinId) && Filled(u.githubId)
    requires u.profileCompletionPercentage >= 100
    requires |OwnExperiences(es, u.id)| >= 4
    requires exists x :: x in es && x.userId == u.id && x.isApproved
    ensures var e := EligibilityOf(u, es);
      e.score == 105 && e.percentage == 100 && e.status == "Highly Eligible" && e.recommendation == "approve" &&
      e.issues == []
  {
    var mine := OwnExperiences(es, u.id);
    var x :| x in es && x.userId == u.id && x.isApproved;
    assert x in mine;
    var cs := Checks(u, |mine|, ApprovedCount(mine));
    TallyCounts(cs);
    PassedNine(cs);
    CountNine(cs, Flagged);
    PercentageIsScore(105);
  }

  /** One step of the accumulation: a passing check adds its points and its
      strength, a failing one its issue, if it has one. */
  method Credit(c: Check, score: nat, issues: seq<string>, strengths: seq<string>)
    returns (score': nat, issues': seq<string>, strengths': seq<string>)
    ensures Tallied(score', issues', strengths') == Apply(Tallied(score, issues, strengths), c)
  {
    score', issues', strengths' := score, issues, strengths;
    if c.passed {
      score' := score + c.points;
      strengths' := strengths + [c.strength];
    } else if c.issue.Some? {
      issues' := issues + [c.issue.value];
    }
  }

  /** The status and recommendation thresholds, in the endpoint's order. */
  method Classify(percentage: int) returns (status: string, recommendation: string)
    ensures (status, recommendation) == Tier(percentage)
  {
    if percentage >= 80 {
      status, recommendation := "Highly Eligible", "approve";
    } else if percentage >= 60 {
      status, recommendation := "Eligible", "approve";
    } else if percentage >= 40 {
      status, recommendation := "Needs Improvement", "review";
    } else {
      status, recommendation := "Not Eligible", "reject";
    }
  }

  /** The step-by-step computation: the score and the two lists grow check by
      check, as the endpoint's helper does. */
  method CalculateEligibility(db: Db, u: User) returns (r: Eligibility)
    ensures r == EligibilityOf(u, db.experiences)
  {
    var score: nat := 0;
    var issues: seq<string> := [];
    var strengths: seq<string> := [];
    // Basic information
    score, issues, strengths := Credit(NameCheck(u), score, issues, strengths);
    score, issues, strengths := Credit(EmailCheck(u), score, issues, strengths);
    score, issues, strengths := Credit(CollegeCheck(u), score, issues, strengths);
    score, issues, strengths := Credit(BranchCheck(u), score, issues, strengths);
    // Professional profiles
    score, issues, strengths := Credit(LinkedInCheck(u), score, issues, strengths);
    score, issues, strengths := Credit(GitHubCheck(u), score, issues, strengths);
    // Experience quality
    var experiences := OwnExperiences(db.experiences, u.id);
    var experienceCount := |experiences|;
    score, issues, strengths := Credit(SharedCheck(experienceCount), score, issues, strengths);
    var approvedCount := ApprovedCount(experiences);
    score, issues, strengths := Credit(ApprovedCheck(approvedCount), score, issues, strengths);
    score, issues, strengths := Credit(CompleteCheck(u), score, issues, strengths);
    TallyNine(Checks(u, experienceCount, approvedCount));
    assert Tallied(score, issues, strengths) == Tally(Checks(u, experienceCount, approvedCount));

    var percentage := Min(100, (((score as real) / (MaxScore as real)) * 100.0).Floor);
    var status, recommendation := Classify(percentage);
    r := Eligibility(percentage, score, MaxScore, status, recommendation, issues, strengths, experienceCount, approvedCount);
  }

  // ---------------------------------------------------------------------------
  // Approving user profiles

  /** `POST /admin/users/approve`: a missing user is 404, an unknown action
      400; otherwise both `is_verified` and `is_active` take the decision and
      one audit row records the reason and the user's eligibility. */
  function ApproveUserProfileOutcome(t: Tables, req: ProfileApprovalRequest, adminId: int): Transaction<string> {
    match UserById(t.users, req.userId)
    case None => Transaction(t, Err(HttpError(404, UserNotFound)))
    case Some(k) =>
      if !KnownAction(req.action) then Transaction(t, Err(HttpError(400, InvalidAction)))
      else
        var approve := req.action == "approve";
        var message := if approve then "User profile approved" else "User profile rejected";
        var u := t.users[k].(isVerified := approve, isActive := approve);
        var details := Obj([Field("reason", ReasonJs(req.reason)), Field("eligibility", EligibilityJs(EligibilityOf(u, t.experiences)))]);
        var log := Audit(t.auditLogs, adminId, req.action, "user", u.id, details);
        Transaction(t.(users := t.users[k := u], auditLogs := t.auditLogs + [log]), Ok(message))
  }

  /** Refusals: 404 for a missing user (checked first), 400 for an unknown
      action; neither changes anything. */
  lemma ApproveUserProfileRefusals(t: Tables, req: ProfileApprovalRequest, adminId: int)
    ensures var o := ApproveUserProfileOutcome(t, req, adminId);
      (o.result.Err? ==> o.after == t) &&
      (UserById(t.users, req.userId).None? ==> o.result == Err(HttpError(404, UserNotFound))) &&
      (UserById(t.users, req.userId).Some? && !KnownAction(req.action) ==> o.result == Err(HttpError(400, InvalidAction))) &&
      (o.result.Ok? <==> UserById(t.users, req.userId).Some? && KnownAction(req.action))
  {
  }

  /** A decision sets both flags to whether it is `approve`, changes no other
      column or row, answers the matching message, and appends one audit row
      for the user. */
  lemma ApproveUserProfileEffect(t: Tables, req: ProfileApprovalRequest, adminId: int)
    requires ApproveUserProfileOutcome(t, req, adminId).result.Ok?
    ensures var o := ApproveUserProfileOutcome(t, req, adminId);
      var k := UserById(t.users, req.userId).value;
      var approve := req.action == "approve";
      |o.after.users| == |t.users| &&
      o.after.users[k] == t.users[k].(isVerified := approve, isActive := approve) &&
      (forall i :: 0 <= i < |t.users| && i != k ==> o.after.users[i] == t.users[i]) &&
      o.result.value == (if approve then "User profile approved" else "User profile rejected") &&
      |o.after.auditLogs| == |t.auditLogs| + 1 && o.after.auditLogs[..|t.auditLogs|] == t.auditLogs &&
      var log := o.after.auditLogs[|t.auditLogs|];
      log.adminId == Some(adminId) && log.action == req.action && log.entityType == "user" &&
      log.entityId == req.userId && log.id !in AuditIds(t.auditLogs) &&
      o.after.experiences == t.experiences && o.after.bookmarks == t.bookmarks && o.after.admins == t.admins
  {
  }

  /** Rewriting a row without changing its address leaves every address lookup as it was. */
  lemma {:induction false} EmailLookupKept(users: seq<User>, k: nat, v: User, email: string)
    requires k < |users| && v.email == users[k].email
    ensures UserByEmail(users[k := v], email) == UserByEmail(users, email)
  {
    if k > 0 {
      assert users[k := v][1..] == users[1..][k - 1 := v];
      EmailLookupKept(users[1..], k - 1, v, email);
    }
  }

  /** A rejected user whose address is theirs alone can no longer log in:
      whatever the password, the login is refused. */
  lemma RejectedUserLocked(t: Tables, req: ProfileApprovalRequest, adminId: int, b: AuthApi.Backend,
                           password: string, now: int, crypto: AuthApi.Crypto)
    requires req.action == "reject"
    requires UserById(t.users, req.userId).Some?
    requires UserByEmail(t.users, t.users[UserById(t.users, req.userId).value].email) == UserById(t.users, req.userId)
    requires b.users == ApproveUserProfileOutcome(t, req, adminId).after.users
    ensures AuthApi.LoginOutcome(b, t.users[UserById(t.users, req.userId).value].email, password, now, crypto).Err?
  {
    var k := UserById(t.users, req.userId).value;
    var u := t.users[k].(isVerified := false, isActive := false);
    EmailLookupKept(t.users, k, u, u.email);
  }

  // ---------------------------------------------------------------------------
  // The endpoints as they run

  method AdminLogin(db: Db, email: string, password: string, configured: string, salt: Salt, hashpw: HashPw)
    returns (r: Result<AdminAuthResponse>)
    requires BcryptDomain(hashpw)
    modifies db
    ensures Transaction(db.Contents(), r) == AdminLoginOutcome(old(db.Contents()), email, password, configured, salt, hashpw)
  {
    var requestPassword := TruncateTo72Bytes(password);
    var adminPassword := TruncateTo72Bytes(configured);
    if requestPassword != adminPassword {
      return Err(HttpError(401, InvalidAdmin));
    }
    var k := AdminByEmail(db.admins, email);
    var admin;
    if k.Some? {
      admin := db.admins[k.value];
    } else {
      admin := Admin(NextId(AdminIds(db.admins)), email, GetPasswordHash(requestPassword, salt, hashpw), SuperAdmin, true);
      db.admins := db.admins + [admin];
    }
    r := Ok(AdminAuthResponse(AdminAuthenticated, admin.id));
  }

  method ApproveExperience(db: Db, req: ApprovalRequest, adminId: int) returns (r: Result<string>)
    modifies db
    ensures Transaction(db.Contents(), r) == ApproveExperienceOutcome(old(db.Contents()), req, adminId)
  {
    var k := ExperienceById(db.experiences, req.experienceId);
    if k.None? {
      return Err(HttpError(404, ExperienceNotFound));
    }
    var experience := db.experiences[k.value];
    if req.action == "approve" {
      experience := experience.(isApproved := true, isPublished := true);
    } else if req.action == "reject" {
      experience := experience.(isApproved := false, isPublished := false);
    } else {
      return Err(HttpError(400, InvalidAction));
    }
    var log := Audit(db.auditLogs, adminId, req.action, "experience", experience.id, Obj([Field("reason", ReasonJs(req.reason))]));
    db.experiences := db.experiences[k.value := experience];
    db.auditLogs := db.auditLogs + [log];
    r := Ok(ExperienceMessage(req.action));
  }

  method ApproveUserProfile(db: Db, req: ProfileApprovalRequest, adminId: int) returns (r: Result<string>)
    modifies db
    ensures Transaction(db.Contents(), r) == ApproveUserProfileOutcome(old(db.Contents()), req, adminId)
  {
    var k := UserById(db.users, req.userId);
    if k.None? {
      return Err(HttpError(404, UserNotFound));
    }
    var user := db.users[k.value];
    var message;
    if req.action == "approve" {
      user := user.(isVerified := true, isActive := true);
      message := "User profile approved";
    } else if req.action == "reject" {
      user := user.(isVerified := false, isActive := false);
      message := "User profile rejected";
    } else {
      return Err(HttpError(400, InvalidAction));
    }
    assert user == db.users[k.value].(isVerified := req.action == "approve", isActive := req.action == "approve");
    RecordDecision(db, k.value, user, req, adminId);
    r := Ok(message);
  }

  /** The commit of a decision: the updated user row, then the audit row
      with the reason and the user's eligibility. */
  method RecordDecision(db: Db, k: nat, user: User, req: ProfileApprovalRequest, adminId: int)
    requires k < |db.users|
    modifies db
    ensures db.Contents() == old(db.Contents()).(users := old(db.users)[k := user],
      auditLogs := old(db.auditLogs) + [Audit(old(db.auditLogs), adminId, req.action, "user", user.id,
        Obj([Field("reason", ReasonJs(req.reason)), Field("eligibility", EligibilityJs(EligibilityOf(user, old(db.experiences))))]))])
  {
    db.users := db.users[k := user];
    var eligibility := CalculateEligibility(db, user);
    var details := Obj([Field("reason", ReasonJs(req.reason)), Field("eligibility", EligibilityJs(eligibility))]);
    db.auditLogs := db.auditLogs + [Audit(db.auditLogs, adminId, req.action, "user", user.id, details)];
  }
}
