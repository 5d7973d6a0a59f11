/** The trusted authorization rules: which context, role and approval permits what. */
module Authorization {
  import opened Records
  import Text

  function RoleOperations(role: Role): (operations: set<Operation>) {
    match role
    case HumanMaintainer => {Abandon}
    case DraftingTable => {LifecyclePreflight}
    case Materializer => {Materialize, RefreshDependencies, Revalidate, ResolveBlock}
    case JobSite =>
      {Claim, RenewLease, TestsPass, RaiseSpecQuestion, RefreshActive, ReturnToBuilding, BeginMerge, MergeConflict, RecordMerge}
    case Reconciler => {RecoverLease, MergeConflict, MergeNotApplied, RecordMerge}
    case OtherRole(_) => {}
  }

  predicate RoleAllows(role: Role, operation: Operation) {
    operation in RoleOperations(role)
  }

  /** The roles of the adapter surface, which also covers requests and queries. */
  predicate RoleHasWmsOperation(role: Role, operation: Operation) {
    match role
    case DraftingTable =>
      operation in {RequestCreate, RequestRefine, RequestLinkChangeSet, RequestLinkBuildWorkItem, RequestGet, RequestQuery,
                    WorkItemGet, WorkItemQuery, BlockedWorkQuery, LifecyclePreflight,
                    BlockedWorkSubmitResolution, BlockedWorkAcknowledge}
    case HumanMaintainer => operation in {RequestUpdatePriority, RequestLinkChangeSet}
    case JobSite =>
      operation in {Claim, RenewLease, TestsPass, RaiseSpecQuestion, RefreshActive, ReturnToBuilding, BeginMerge,
                    MergeConflict, RecordMerge, FindingCreate}
    case Materializer => operation in {Materialize, RefreshDependencies, Revalidate, ResolveBlock}
    case Reconciler => operation in {RecoverLease, MergeConflict, MergeNotApplied, RecordMerge}
    case OtherRole(_) => false
  }

  /** `*` and `all` in any case, spaces around them ignored. */
  predicate IsWildcard(value: string) {
    var trimmed := Text.Trim(value);
    || trimmed == "*"
    || (|trimmed| == 3 && trimmed[0] in {'a', 'A'} && trimmed[1] in {'l', 'L'} && trimmed[2] in {'l', 'L'})
  }

  predicate IsWildcardAction(action: Operation) {
    action.OtherOperation? && IsWildcard(action.text)
  }

  function Unauthorized(auth: AuthorizationContext, action: Operation, workItemId: string): (r: Rejection) {
    UnauthorizedAction(action, if workItemId != "" then "work-item" else "project", auth.policyVersion)
  }

  predicate ContextIsValid(auth: AuthorizationContext, projectId: string, workItemId: string, changeSetId: string, now: Time) {
    && now != 0
    && auth.subject != ""
    && !auth.role.OtherRole?
    && auth.projectId != ""
    && auth.projectId == projectId
    && auth.policyVersion != ""
    && auth.expiresAt != 0
    && now < auth.expiresAt
    && auth.allowedActions != []
    && auth.allowedRefs != []
    && (forall action | action in auth.allowedActions :: !IsWildcardAction(action))
    && (forall ref | ref in auth.allowedRefs :: !IsWildcard(ref))
    && (auth.workItemId != "" ==> auth.workItemId == workItemId)
    && (auth.changeSetId != "" ==> auth.changeSetId == changeSetId)
  }

  function AuthorizeContext(
    auth: AuthorizationContext, action: Operation, projectId: string, workItemId: string, changeSetId: string,
    refs: seq<string>, now: Time
  ): (r: Option<Rejection>)
    ensures r.Some? ==> r.value.UnauthorizedAction?
  {
    if && ContextIsValid(auth, projectId, workItemId, changeSetId, now)
       && action in auth.allowedActions
       && "project:" + projectId in auth.allowedRefs
       && forall ref | ref in refs :: ref in auth.allowedRefs
    then None
    else Some(Unauthorized(auth, action, workItemId))
  }

  function AuthorizeLifecycle(
    auth: AuthorizationContext, operation: Operation, projectId: string, workItemId: string, changeSetId: string,
    refs: seq<string>, now: Time
  ): (r: Option<Rejection>)
    ensures r.Some? ==> r.value.UnauthorizedAction?
  {
    var rejection := AuthorizeContext(auth, operation, projectId, workItemId, changeSetId, refs, now);
    if rejection.Some? then rejection
    else if !RoleAllows(auth.role, operation) then Some(Unauthorized(auth, operation, workItemId))
    else None
  }

  function AuthorizePreflight(
    auth: AuthorizationContext, projectId: string, workItemId: string, changeSetId: string, refs: seq<string>, now: Time
  ): (r: Option<Rejection>)
    ensures r.Some? ==> r.value.UnauthorizedAction?
  {
    var rejection := AuthorizeContext(auth, LifecyclePreflight, projectId, workItemId, changeSetId, refs, now);
    if rejection.Some? then rejection
    else if auth.role in {DraftingTable, JobSite, Materializer} then None
    else Some(Unauthorized(auth, LifecyclePreflight, workItemId))
  }

  /** Every binding that makes an approval safe to consume for one mutation; an
      unbound dimension must be unbound on both sides. */
  predicate ApprovalIsValid(approval: Approval, requirement: ApprovalRequirement, now: Time) {
    && approval.approvedSubject != ""
    && approval.delegatedPrincipal != ""
    && approval.delegatedPrincipal == requirement.delegatedPrincipal
    && approval.action == requirement.action
    && approval.digest != NO_DIGEST
    && approval.digest == requirement.digest
    && approval.status == Unused
    && approval.expiresAt != 0
    && now < approval.expiresAt
    && approval.projectId == requirement.projectId
    && approval.workItemId == requirement.workItemId
    && approval.requestId == requirement.requestId
    && approval.changeSetId == requirement.changeSetId
    && approval.resolutionKind == requirement.resolutionKind
    && approval.expectedState == requirement.expectedState
    && approval.expectedVersion == requirement.expectedVersion
    && approval.policyVersion == requirement.policyVersion
  }

  function ValidateApproval(approval: Approval, requirement: ApprovalRequirement, now: Time): (r: Option<Rejection>)
    ensures r.Some? ==> r.value.UnauthorizedAction?
  {
    if ApprovalIsValid(approval, requirement, now) then None
    else
      var targetType :=
        if requirement.workItemId != "" then "work-item" else if requirement.requestId != 0 then "request" else "project";
      Some(UnauthorizedAction(requirement.action, targetType, requirement.policyVersion))
  }
}
