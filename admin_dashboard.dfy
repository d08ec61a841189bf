/**
 * The admin panel: the user list, and the status and role toggles. Each
 * toggle issues one mutation request and re-fetches the list only when that
 * request succeeds; an admin cannot demote themselves.
 */
module AdminDashboard {
  import opened Wrappers
  import App

  const ActiveStatus := "Active"
  const InactiveStatus := "Inactive"
  const UserListLimit: nat := 50
  const FetchUsersError := "Failed to fetch users"

  /** The requests this page issues. */
  datatype Request =
    | GetUsers(limit: nat)
    | UpdateStatus(userId: int, status: string)
    | ChangeRole(userId: int, role: string)

  // ---------------------------------------------------------------------
  // Toggles, button labels and the self-demotion guard
  // ---------------------------------------------------------------------

  /** The status a row's status button asks for: 'Active' becomes 'Inactive', anything else 'Active'. */
  function ToggledStatus(status: string): (next: string)
    ensures next == ActiveStatus || next == InactiveStatus
    ensures next == InactiveStatus <==> status == ActiveStatus
  {
    if status == ActiveStatus then InactiveStatus else ActiveStatus
  }

  /** The role a row's role button asks for: 'User' becomes 'Admin', anything else 'User'. */
  function ToggledRole(role: string): (next: string)
    ensures next == App.AdminRole || next == App.UserRole
    ensures next == App.AdminRole <==> role == App.UserRole
  {
    if role == App.UserRole then App.AdminRole else App.UserRole
  }

  /** On the two values the server uses, each toggle undoes itself. */
  lemma TogglesAreInvolutions(status: string, role: string)
    requires status == ActiveStatus || status == InactiveStatus
    requires role == App.UserRole || role == App.AdminRole
    ensures ToggledStatus(status) != status && ToggledStatus(ToggledStatus(status)) == status
    ensures ToggledRole(role) != role && ToggledRole(ToggledRole(role)) == role
  {
  }

  /** The status button's caption names the change it makes. */
  function StatusButtonLabel(status: string): (caption: string)
    ensures caption == "Deactivate" || caption == "Activate"
    ensures caption == "Deactivate" <==> status == ActiveStatus
    ensures caption == "Deactivate" <==> ToggledStatus(status) == InactiveStatus
  {
    if status == ActiveStatus then "Deactivate" else "Activate"
  }

  /** The role button's caption names the change it makes. */
  function RoleButtonLabel(role: string): (caption: string)
    ensures caption == "Make Admin" || caption == "Remove Admin"
    ensures caption == "Make Admin" <==> role == App.UserRole
    ensures caption == "Make Admin" <==> ToggledRole(role) == App.AdminRole
  {
    if role == App.UserRole then "Make Admin" else "Remove Admin"
  }

  /** The refused case: the acting admin's own row, and the toggle would make it 'User'. */
  predicate IsSelfDemotion(acting: App.Profile, userId: int, currentRole: string) {
    userId == acting.id && ToggledRole(currentRole) == App.UserRole
  }

  lemma SelfDemotionIff(acting: App.Profile, userId: int, currentRole: string)
    ensures IsSelfDemotion(acting, userId, currentRole) <==> userId == acting.id && currentRole != App.UserRole
  {
  }

  // ---------------------------------------------------------------------
  // Page state and its transitions
  // ---------------------------------------------------------------------

  datatype PanelState = PanelState(users: seq<App.Profile>, loading: bool, error: string, sent: seq<Request>)

  /** After mounting: loading, with the list fetch issued. */
  function Mounted(): PanelState {
    PanelState([], true, "", [GetUsers(UserListLimit)])
  }

  /** `fetchUsers` settling. */
  function UsersFetched(s: PanelState, outcome: Outcome<Option<seq<App.Profile>>>): PanelState {
    match outcome
    case Success(data) => s.(users := data.GetOr([]), loading := false)
    case Failure(_) => s.(error := FetchUsersError, loading := false)
  }

  /** `handleStatusChange` up to its awaited update: the request goes out. */
  function StatusChangeStarted(s: PanelState, userId: int, currentStatus: string): PanelState {
    s.(sent := s.sent + [UpdateStatus(userId, ToggledStatus(currentStatus))])
  }

  /** `handleRoleChange` up to its awaited request, or to the early return on self-demotion. */
  function RoleChangeStarted(s: PanelState, acting: App.Profile, userId: int, currentRole: string): PanelState {
    if IsSelfDemotion(acting, userId, currentRole) then s
    else s.(sent := s.sent + [ChangeRole(userId, ToggledRole(currentRole))])
  }

  /** The rest of either toggle handler once its mutation settles: a re-fetch on success; a failure only alerts. */
  function MutationSettled(s: PanelState, outcome: Outcome<App.Profile>): PanelState {
    if outcome.Success? then s.(sent := s.sent + [GetUsers(UserListLimit)]) else s
  }

  /** A whole status change whose request settles before anything else happens. */
  function StatusChanged(s: PanelState, userId: int, currentStatus: string, outcome: Outcome<App.Profile>): PanelState {
    MutationSettled(StatusChangeStarted(s, userId, currentStatus), outcome)
  }

  /** A whole role change; a refused self-demotion awaits nothing. */
  function RoleChanged(s: PanelState, acting: App.Profile, userId: int, currentRole: string, outcome: Outcome<App.Profile>): PanelState {
    if IsSelfDemotion(acting, userId, currentRole) then s
    else MutationSettled(RoleChangeStarted(s, acting, userId, currentRole), outcome)
  }

  /** Loading ends whatever the outcome; success shows the response's rows or none, failure sets the error and keeps the rows. */
  lemma FetchUsersSettles(s: PanelState, outcome: Outcome<Option<seq<App.Profile>>>)
    ensures !UsersFetched(s, outcome).loading
    ensures UsersFetched(s, outcome).sent == s.sent
    ensures outcome.Success? ==> UsersFetched(s, outcome).users == outcome.body.GetOr([])
    ensures outcome.Success? ==> UsersFetched(s, outcome).error == s.error
    ensures outcome.Failure? ==> UsersFetched(s, outcome).users == s.users
    ensures outcome.Failure? ==> UsersFetched(s, outcome).error == FetchUsersError
  {
  }

  /** The re-fetch a settled mutation adds: one list request on success, none on failure. */
  function Refetch(outcome: Outcome<App.Profile>): seq<Request> {
    if outcome.Success? then [GetUsers(UserListLimit)] else []
  }

  /** A status change sends exactly one update, then one re-fetch iff it succeeded; the rows are never edited locally. */
  lemma StatusChangeRefetchesOnlyOnSuccess(s: PanelState, userId: int, currentStatus: string, outcome: Outcome<App.Profile>)
    ensures var r := StatusChanged(s, userId, currentStatus, outcome);
      && r.users == s.users && r.loading == s.loading && r.error == s.error
      && r.sent == s.sent + [UpdateStatus(userId, ToggledStatus(currentStatus))] + Refetch(outcome)
  {
  }

  /** Self-demotion makes no request and leaves everything as it was. */
  lemma SelfDemotionRefused(s: PanelState, acting: App.Profile, currentRole: string, outcome: Outcome<App.Profile>)
    requires currentRole != App.UserRole
    ensures RoleChanged(s, acting, acting.id, currentRole, outcome) == s
  {
  }

  /**
   * Every other role change, demoting another admin or promoting anyone,
   * sends exactly one role request, then one re-fetch iff it succeeded.
   */
  lemma RoleChangeIssuedUnlessSelfDemotion(s: PanelState, acting: App.Profile, userId: int, currentRole: string, outcome: Outcome<App.Profile>)
    ensures var r := RoleChanged(s, acting, userId, currentRole, outcome);
      && r.users == s.users && r.loading == s.loading && r.error == s.error
      && (r.sent == s.sent <==> userId == acting.id && currentRole != App.UserRole)
      && (!IsSelfDemotion(acting, userId, currentRole) ==>
            r.sent == s.sent + [ChangeRole(userId, ToggledRole(currentRole))] + Refetch(outcome))
  {
  }

  /**
   * The toggle buttons stay enabled while a mutation is out, so a second
   * click can send its request before the first settles; each settled
   * success then adds its own re-fetch, and nothing else is sent.
   */
  lemma InterleavedStatusChanges(s: PanelState, a: int, statusA: string, b: int, statusB: string,
                                 outcomeA: Outcome<App.Profile>, outcomeB: Outcome<App.Profile>)
    ensures var r := MutationSettled(MutationSettled(StatusChangeStarted(StatusChangeStarted(s, a, statusA), b, statusB), outcomeA), outcomeB);
      && r.users == s.users && r.loading == s.loading && r.error == s.error
      && r.sent == s.sent + [UpdateStatus(a, ToggledStatus(statusA)), UpdateStatus(b, ToggledStatus(statusB))]
                   + Refetch(outcomeA) + Refetch(outcomeB)
  {
  }

  /** The panel, acting as the signed-in admin `acting`. */
  class AdminPanel {
    const acting: App.Profile
    var users: seq<App.Profile>
    var loading: bool
    var error: string
    var sent: seq<Request>

    function State(): PanelState
      reads this
    {
      PanelState(users, loading, error, sent)
    }

    /** Mounting, including the effect that fetches the list. */
    constructor (acting: App.Profile)
      ensures this.acting == acting && State() == Mounted()
    {
      this.acting := acting;
      users := [];
      loading := true;
      error := "";
      sent := [GetUsers(UserListLimit)];
    }

    /** The try/catch/finally of `fetchUsers` once the list request settles. */
    method OnUsersFetched(outcome: Outcome<Option<seq<App.Profile>>>)
      modifies this
      ensures State() == UsersFetched(old(State()), outcome)
    {
      match outcome {
        case Success(data) => users := data.GetOr([]);
        case Failure(_) => error := FetchUsersError;
      }
      loading := false;
    }

    /** `handleStatusChange` up to its awaited update request. */
    method HandleStatusChange(userId: int, currentStatus: string)
      modifies this
      ensures State() == StatusChangeStarted(old(State()), userId, currentStatus)
    {
      var newStatus := ToggledStatus(currentStatus);
      sent := sent + [UpdateStatus(userId, newStatus)];
    }

    /** `handleRoleChange` up to its awaited request; `requested` says whether it was sent. */
    method HandleRoleChange(userId: int, currentRole: string) returns (requested: bool)
      modifies this
      ensures State() == RoleChangeStarted(old(State()), acting, userId, currentRole)
      ensures requested <==> !IsSelfDemotion(acting, userId, currentRole)
    {
      var newRole := ToggledRole(currentRole);
      if userId == acting.id && newRole == App.UserRole {
        return false;
      }
      sent := sent + [ChangeRole(userId, newRole)];
      requested := true;
    }

    /** The rest of either toggle handler once its mutation request settles. */
    method OnMutationSettled(outcome: Outcome<App.Profile>)
      modifies this
      ensures State() == MutationSettled(old(State()), outcome)
    {
      if outcome.Success? {
        sent := sent + [GetUsers(UserListLimit)];
      }
    }
  }
}
