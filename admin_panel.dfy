/** The administrator's review page (`frontend/src/pages/AdminPanel.tsx`):
    the colour tiers of the eligibility score, the reject dialog shared by
    experiences and user profiles, and what each mutation's callbacks reset.
    The selected experience and the selected profile are kept by their ids;
    the mutations' outcomes are inputs. */
module AdminPanel {
  import opened Util
  import opened Json
  import opened ErrorMessages
  import AdminBackend

  // ---------------------------------------------------------------------------
  // Eligibility colours

  datatype Hue = Green | Blue | Yellow | Red

  /** The tier both colour helpers and the progress bar test for. */
  function HueOf(percentage: int): (h: Hue)
    ensures h == Green <==> percentage >= 80
    ensures h == Blue <==> 60 <= percentage < 80
    ensures h == Yellow <==> 40 <= percentage < 60
    ensures h == Red <==> percentage < 40
  {
    if percentage >= 80 then Green
    else if percentage >= 60 then Blue
    else if percentage >= 40 then Yellow
    else Red
  }

  function TextClass(h: Hue): string {
    match h
    case Green => "text-green-600 dark:text-green-400"
    case Blue => "text-blue-600 dark:text-blue-400"
    case Yellow => "text-yellow-600 dark:text-yellow-400"
    case Red => "text-red-600 dark:text-red-400"
  }

  function BgClass(h: Hue): string {
    match h
    case Green => "bg-green-100 dark:bg-green-900/20"
    case Blue => "bg-blue-100 dark:bg-blue-900/20"
    case Yellow => "bg-yellow-100 dark:bg-yellow-900/20"
    case Red => "bg-red-100 dark:bg-red-900/20"
  }

  function BarClass(h: Hue): string {
    match h
    case Green => "bg-green-500"
    case Blue => "bg-blue-500"
    case Yellow => "bg-yellow-500"
    case Red => "bg-red-500"
  }

  /** `getEligibilityColor`. */
  function EligibilityColor(percentage: int): string {
    if percentage >= 80 then "text-green-600 dark:text-green-400"
    else if percentage >= 60 then "text-blue-600 dark:text-blue-400"
    else if percentage >= 40 then "text-yellow-600 dark:text-yellow-400"
    else "text-red-600 dark:text-red-400"
  }

  /** `getEligibilityBgColor`. */
  function EligibilityBgColor(percentage: int): string {
    if percentage >= 80 then "bg-green-100 dark:bg-green-900/20"
    else if percentage >= 60 then "bg-blue-100 dark:bg-blue-900/20"
    else if percentage >= 40 then "bg-yellow-100 dark:bg-yellow-900/20"
    else "bg-red-100 dark:bg-red-900/20"
  }

  /** The progress bar's inline conditional. */
  function EligibilityBarColor(percentage: int): string {
    if percentage >= 80 then "bg-green-500"
    else if percentage >= 60 then "bg-blue-500"
    else if percentage >= 40 then "bg-yellow-500"
    else "bg-red-500"
  }

  /** Text, background and bar always show the same tier. */
  lemma ColoursAgree(percentage: int)
    ensures EligibilityColor(percentage) == TextClass(HueOf(percentage))
    ensures EligibilityBgColor(percentage) == BgClass(HueOf(percentage))
    ensures EligibilityBarColor(percentage) == BarClass(HueOf(percentage))
  {
  }

  /** The colour tiers are the back end's status tiers: green is "Highly
      Eligible", blue "Eligible", yellow "Needs Improvement" and red "Not
      Eligible". */
  lemma ColoursFollowStatus(percentage: int)
    ensures HueOf(percentage) == Green <==> AdminBackend.Tier(percentage).0 == "Highly Eligible"
    ensures HueOf(percentage) == Blue <==> AdminBackend.Tier(percentage).0 == "Eligible"
    ensures HueOf(percentage) == Yellow <==> AdminBackend.Tier(percentage).0 == "Needs Improvement"
    ensures HueOf(percentage) == Red <==> AdminBackend.Tier(percentage).0 == "Not Eligible"
  {
  }

  // ---------------------------------------------------------------------------
  // The page state as a value

  datatype Tab = ExperiencesTab | UsersTab

  datatype PanelState = PanelState(
    activeTab: Tab,
    selectedExperience: Option<int>,
    selectedUser: Option<int>,
    rejectReason: string,
    showRejectModal: bool,
    experienceToReject: Option<int>,
    userToReject: Option<int>,
    isRejectingUser: bool)

  const Start: PanelState := PanelState(ExperiencesTab, None, None, "", false, None, None, false)

  /** The page renders only for an administrator; anyone else gets nothing
      and is sent to the admin login. */
  datatype View = Rendered | Redirected(to: string)

  function ViewFor(isAdmin: bool): (v: View)
    ensures v == Rendered <==> isAdmin
    ensures !isAdmin ==> v == Redirected("/admin/login")
  {
    if isAdmin then Rendered else Redirected("/admin/login")
  }

  /** A reject call `confirmReject` makes; `reason` is `rejectReason || undefined`. */
  datatype Call = NoCall | RejectExperience(id: int, reason: Option<string>) | RejectUser(id: int, reason: Option<string>)

  /** A JavaScript number in a condition: `null` and 0 are falsy. */
  predicate TruthyId(id: Option<int>) {
    id.Some? && id.value != 0
  }

  function ReasonArg(reason: string): (r: Option<string>)
    ensures r.None? <==> reason == ""
    ensures r.Some? ==> r.value == reason
  {
    if reason == "" then None else Some(reason)
  }

  /** `handleReject(id)`. */
  function AfterHandleReject(p: PanelState, id: int): PanelState {
    p.(experienceToReject := Some(id), userToReject := None, isRejectingUser := false, showRejectModal := true)
  }

  /** `handleRejectUser(id)`. */
  function AfterHandleRejectUser(p: PanelState, id: int): PanelState {
    p.(userToReject := Some(id), experienceToReject := None, isRejectingUser := true, showRejectModal := true)
  }

  /** `confirmReject`: the experience first, then the user. */
  function ConfirmCall(p: PanelState): Call {
    if TruthyId(p.experienceToReject) then RejectExperience(p.experienceToReject.value, ReasonArg(p.rejectReason))
    else if TruthyId(p.userToReject) then RejectUser(p.userToReject.value, ReasonArg(p.rejectReason))
    else NoCall
  }

  /** The dialog's Cancel button. */
  function AfterCancel(p: PanelState): PanelState {
    p.(showRejectModal := false, rejectReason := "", experienceToReject := None)
  }

  /** `rejectMutation`'s `onSuccess`. */
  function AfterRejectSuccess(p: PanelState): PanelState {
    p.(showRejectModal := false, rejectReason := "", experienceToReject := None, selectedExperience := None)
  }

  /** `rejectUserMutation`'s `onSuccess`. */
  function AfterRejectUserSuccess(p: PanelState): PanelState {
    p.(showRejectModal := false, rejectReason := "", userToReject := None, isRejectingUser := false, selectedUser := None)
  }

  /** `approveMutation`'s `onSuccess`. */
  function AfterApproveSuccess(p: PanelState): PanelState {
    p.(selectedExperience := None)
  }

  /** `approveUserMutation`'s `onSuccess`. */
  function AfterApproveUserSuccess(p: PanelState): PanelState {
    p.(selectedUser := None)
  }

  /** A tab button: it switches the tab and clears that tab's selection. */
  function AfterTab(p: PanelState, tab: Tab): PanelState {
    match tab
    case ExperiencesTab => p.(activeTab := ExperiencesTab, selectedExperience := None)
    case UsersTab => p.(activeTab := UsersTab, selectedUser := None)
  }

  /** The defaults of the four `onError` callbacks, which toast
      `HandlerMessage(error, default, ...)` and change no state. */
  const ApproveFailed: string := "Failed to approve experience"
  const RejectFailed: string := "Failed to reject experience"
  const ApproveUserFailed: string := "Failed to approve user profile"
  const RejectUserFailed: string := "Failed to reject user profile"

  // ---------------------------------------------------------------------------
  // Properties

  /** While the dialog is open exactly one target is set, and the title's
      flag names which one. */
  predicate DialogConsistent(p: PanelState) {
    p.showRejectModal ==>
      (p.experienceToReject.Some? != p.userToReject.Some?) && (p.isRejectingUser <==> p.userToReject.Some?)
  }

  /** Every transition keeps the dialog consistent. */
  lemma TransitionsKeepDialog(p: PanelState, id: int, tab: Tab)
    requires DialogConsistent(p)
    ensures DialogConsistent(AfterHandleReject(p, id)) && DialogConsistent(AfterHandleRejectUser(p, id))
    ensures DialogConsistent(AfterCancel(p)) && DialogConsistent(AfterRejectSuccess(p)) &&
      DialogConsistent(AfterRejectUserSuccess(p))
    ensures DialogConsistent(AfterApproveSuccess(p)) && DialogConsistent(AfterApproveUserSuccess(p)) &&
      DialogConsistent(AfterTab(p, tab))
    ensures DialogConsistent(Start)
  {
  }

  /** Opening the dialog for an experience targets it alone, and confirming
      rejects it with the typed reason, an empty one sent as absent. */
  lemma ConfirmAfterHandleReject(p: PanelState, id: int)
    requires id != 0
    ensures var q := AfterHandleReject(p, id);
      q.showRejectModal && !q.isRejectingUser && q.userToReject.None? &&
      ConfirmCall(q) == RejectExperience(id, if p.rejectReason == "" then None else Some(p.rejectReason))
  {
  }

  /** The mirror image for a user profile. */
  lemma ConfirmAfterHandleRejectUser(p: PanelState, id: int)
    requires id != 0
    ensures var q := AfterHandleRejectUser(p, id);
      q.showRejectModal && q.isRejectingUser && q.experienceToReject.None? &&
      ConfirmCall(q) == RejectUser(id, if p.rejectReason == "" then None else Some(p.rejectReason))
  {
  }

  /** With the dialog open and a non-zero id, confirming rejects the entity
      the dialog's title names. */
  lemma ConfirmMatchesTitle(p: PanelState)
    requires DialogConsistent(p) && p.showRejectModal
    requires p.experienceToReject != Some(0) && p.userToReject != Some(0)
    ensures p.isRejectingUser ==> ConfirmCall(p) == RejectUser(p.userToReject.value, ReasonArg(p.rejectReason))
    ensures !p.isRejectingUser ==> ConfirmCall(p) == RejectExperience(p.experienceToReject.value, ReasonArg(p.rejectReason))
  {
  }

  /** A zero id is falsy, so confirming sends nothing. */
  lemma ZeroIdSendsNothing(p: PanelState)
    ensures ConfirmCall(AfterHandleReject(p, 0)) == NoCall
    ensures ConfirmCall(AfterHandleRejectUser(p, 0)) == NoCall
  {
  }

  /** Cancel closes the dialog and clears the reason and the experience
      target only: the user target and the title's flag survive. */
  lemma CancelKeepsUserTarget(p: PanelState)
    ensures var q := AfterCancel(p);
      !q.showRejectModal && q.rejectReason == "" && q.experienceToReject.None? &&
      q.userToReject == p.userToReject && q.isRejectingUser == p.isRejectingUser &&
      q.activeTab == p.activeTab && q.selectedExperience == p.selectedExperience && q.selectedUser == p.selectedUser
  {
  }

  /** A user target left behind by Cancel never leaks into a later
      experience rejection: `handleReject` clears it. */
  lemma StaleUserTargetCleared(p: PanelState, userId: int, id: int)
    requires id != 0
    ensures var q := AfterHandleReject(AfterCancel(AfterHandleRejectUser(p, userId)), id);
      q.userToReject.None? && ConfirmCall(q) == RejectExperience(id, None)
  {
  }

  /** A successful rejection closes the dialog and clears the reason, the
      target and the selection, and nothing else; confirming again sends
      no second rejection of that kind. */
  lemma RejectSuccessResets(p: PanelState)
    ensures var q := AfterRejectSuccess(p);
      !q.showRejectModal && q.rejectReason == "" && q.experienceToReject.None? && q.selectedExperience.None? &&
      q.userToReject == p.userToReject && q.selectedUser == p.selectedUser && q.activeTab == p.activeTab
    ensures var q := AfterRejectUserSuccess(p);
      !q.showRejectModal && q.rejectReason == "" && q.userToReject.None? && !q.isRejectingUser &&
      q.selectedUser.None? && q.experienceToReject == p.experienceToReject &&
      q.selectedExperience == p.selectedExperience && q.activeTab == p.activeTab
    ensures !ConfirmCall(AfterRejectSuccess(p)).RejectExperience?
    ensures !ConfirmCall(AfterRejectUserSuccess(p)).RejectUser?
  {
  }

  // ---------------------------------------------------------------------------
  // The component

  class Page {
    var activeTab: Tab
    var selectedExperience: Option<int>
    var selectedUser: Option<int>
    var rejectReason: string
    var showRejectModal: bool
    var experienceToReject: Option<int>
    var userToReject: Option<int>
    var isRejectingUser: bool

    function State(): PanelState
      reads this
    {
      PanelState(activeTab, selectedExperience, selectedUser, rejectReason, showRejectModal,
                 experienceToReject, userToReject, isRejectingUser)
    }

    constructor ()
      ensures State() == Start
    {
      activeTab, selectedExperience, selectedUser, rejectReason := ExperiencesTab, None, None, "";
      showRejectModal, experienceToReject, userToReject, isRejectingUser := false, None, None, false;
    }

    method HandleReject(id: int)
      modifies this
      ensures State() == AfterHandleReject(old(State()), id)
    {
      experienceToReject := Some(id);
      userToReject := None;
      isRejectingUser := false;
      showRejectModal := true;
    }

    method HandleRejectUser(id: int)
      modifies this
      ensures State() == AfterHandleRejectUser(old(State()), id)
    {
      userToReject := Some(id);
      experienceToReject := None;
      isRejectingUser := true;
      showRejectModal := true;
    }

    /** The call `confirmReject` makes; the state changes only through that
        call's callbacks. */
    method ConfirmReject() returns (call: Call)
      ensures call == ConfirmCall(State())
      ensures call.RejectExperience? ==> call.id == experienceToReject.value && call.id != 0
      ensures call.RejectUser? ==> call.id == userToReject.value && call.id != 0 && !TruthyId(experienceToReject)
      ensures call.NoCall? <==> !TruthyId(experienceToReject) && !TruthyId(userToReject)
    {
      var reason := if rejectReason == "" then None else Some(rejectReason);
      if experienceToReject.Some? && experienceToReject.value != 0 {
        call := RejectExperience(experienceToReject.value, reason);
      } else if userToReject.Some? && userToReject.value != 0 {
        call := RejectUser(userToReject.value, reason);
      } else {
        call := NoCall;
      }
    }

    method ReasonTyped(value: string)
      modifies this
      ensures State() == old(State()).(rejectReason := value)
    {
      rejectReason := value;
    }

    method Cancel()
      modifies this
      ensures State() == AfterCancel(old(State()))
    {
      showRejectModal := false;
      rejectReason := "";
      experienceToReject := None;
    }

    method RejectSucceeded()
      modifies this
      ensures State() == AfterRejectSuccess(old(State()))
    {
      showRejectModal := false;
      rejectReason := "";
      experienceToReject := None;
      selectedExperience := None;
    }

    method RejectUserSucceeded()
      modifies this
      ensures State() == AfterRejectUserSuccess(old(State()))
    {
      showRejectModal := false;
      rejectReason := "";
      userToReject := None;
      isRejectingUser := false;
      selectedUser := None;
    }

    method ApproveSucceeded()
      modifies this
      ensures State() == AfterApproveSuccess(old(State()))
    {
      selectedExperience := None;
    }

    method ApproveUserSucceeded()
      modifies this
      ensures State() == AfterApproveUserSuccess(old(State()))
    {
      selectedUser := None;
    }

    method SelectTab(tab: Tab)
      modifies this
      ensures State() == AfterTab(old(State()), tab)
    {
      activeTab := tab;
      if tab == ExperiencesTab {
        selectedExperience := None;
      } else {
        selectedUser := None;
      }
    }
  }
}
