/** The values exchanged by the Validation Rules evaluator and the work-management
    backends.

    Identifiers, keys and digests are strings. Identifiers a backend prints from a
    counter (`request-007`, `fence-7`, `resolution-submission-007`) are represented by
    the number, 0 standing for the empty string. Time is an integer, 0 standing for
    the zero time. A digest is represented by the canonical value it is taken of. */
module Records {

  datatype Option<+T> = None | Some(value: T)

  /** A lifecycle state; `OtherState` covers every text outside the vocabulary,
      the empty one included. */
  datatype State =
    | Initial | Waiting | ReadyForBuilding | Building | Inspecting
    | Blocked | Merging | Completed | Abandoned
    | OtherState(text: string)

  const NO_STATE: State := OtherState("")

  datatype Operation =
    // lifecycle commands
    | Materialize | RefreshDependencies | Revalidate | ResolveBlock
    | Claim | RenewLease | TestsPass | RaiseSpecQuestion | RefreshActive
    | ReturnToBuilding | BeginMerge | MergeConflict | MergeNotApplied
    | RecordMerge | RecoverLease | Abandon
    // other actions
    | LifecyclePreflight
    | RequestCreate | RequestRefine | RequestUpdatePriority
    | RequestLinkChangeSet | RequestLinkBuildWorkItem | RequestGet | RequestQuery
    | WorkItemGet | WorkItemQuery | BlockedWorkQuery
    | BlockedWorkSubmitResolution | BlockedWorkAcknowledge | FindingCreate
    | OtherOperation(text: string)

  datatype Role =
    | HumanMaintainer | DraftingTable | Materializer | JobSite | Reconciler
    | OtherRole(text: string)

  datatype Authority = Preflight | Authoritative

  datatype Outcome = Allowed | Rejected | Omitted

  datatype ApprovalStatus = Unused | Consumed | Revoked | OtherApprovalStatus(text: string)

  const NO_APPROVAL_STATUS: ApprovalStatus := OtherApprovalStatus("")

  datatype SubmissionStatus = Pending | Superseded | SubmissionConsumed

  type Time = int
  type Token = nat
  type RequestId = nat

  const NO_TOKEN: Token := 0

  datatype SubmissionId = NoSubmission | Resolution(n: nat) | Acknowledgement(n: nat)

  /** Trusted Gate output. A wildcard test is part of the operation and reference
      vocabulary, see `Authorization`. */
  datatype AuthorizationContext = AuthorizationContext(
    subject: string,
    role: Role,
    projectId: string,
    workItemId: string,
    changeSetId: string,
    allowedActions: seq<Operation>,
    allowedRefs: seq<string>,
    expiresAt: Time,
    policyVersion: string)

  datatype Dependency = Dependency(id: string, state: State)

  datatype Readiness = Readiness(
    contractComplete: bool,
    sourceImmutable: bool,
    specificationValidated: bool,
    requirementReferencesValid: bool,
    pipelineEntrySatisfied: bool,
    impactDispositioned: bool,
    policyCompatible: bool,
    unresolvedReasons: seq<string>)

  datatype InspectionEvidence = InspectionEvidence(runSealed: bool, findingsTerminal: bool, finalTestsPassed: bool)

  const NO_INSPECTION: InspectionEvidence := InspectionEvidence(false, false, false)
  const FULL_INSPECTION: InspectionEvidence := InspectionEvidence(true, true, true)

  datatype Lease = Lease(owner: string, token: Token, expiresAt: Time)

  datatype MergeEnvelope = MergeEnvelope(
    productTreeDigest: string,
    inspectionRunId: string,
    integrationHead: string,
    target: string,
    contractVersion: nat,
    mergeCommit: string)

  datatype Reconciliation = Reconciliation(status: string, gitMutation: string, envelope: Option<MergeEnvelope>)

  const NO_RECONCILIATION: Reconciliation := Reconciliation("", "", None)

  datatype WorkItem = WorkItem(
    id: string,
    projectId: string,
    state: State,
    version: nat,
    materializationKey: string,
    changeType: string,
    implementationRequired: bool,
    priority: string,
    owner: string,
    lease: Option<Lease>,
    dependencies: seq<Dependency>,
    readiness: Readiness,
    blockReason: string,
    activeSubmission: SubmissionId,
    inspection: InspectionEvidence,
    expectedMerge: Option<MergeEnvelope>,
    reconciliation: Reconciliation)

  /** Command-specific data a caller supplies. */
  datatype Payload = Payload(
    workItem: Option<WorkItem>,
    materializationKey: string,
    changeType: string,
    changeSetId: string,
    humanApprovalId: string,
    approvalDigest: string,
    resolutionKind: string,
    resolutionSubmission: SubmissionId,
    buildTestsPassed: bool,
    question: string,
    inContractDefect: bool,
    finalTestsFailed: bool,
    cancellationConfirmed: bool,
    mergeEnvelope: Option<MergeEnvelope>)

  datatype Request = Request(
    operation: Operation,
    projectId: string,
    workItemId: string,
    materializationKey: string,
    idempotencyKey: string,
    expectedState: State,
    expectedVersion: Option<nat>,
    fencingToken: Token,
    references: seq<string>,
    payload: Payload,
    authorization: AuthorizationContext)

  datatype Approval = Approval(
    approvedSubject: string,
    delegatedPrincipal: string,
    projectId: string,
    workItemId: string,
    requestId: RequestId,
    changeSetId: string,
    digest: Digest,
    action: Operation,
    resolutionKind: string,
    expectedState: State,
    expectedVersion: Option<nat>,
    policyVersion: string,
    expiresAt: Time,
    status: ApprovalStatus)

  /** What an approval's digest was taken of: an opaque resolution text, or the
      refined content of a request. */
  datatype Digest = ResolutionDigest(text: string) | ContentDigest(content: RefinementContent)

  const NO_DIGEST: Digest := ResolutionDigest("")

  datatype ApprovalRequirement = ApprovalRequirement(
    action: Operation,
    delegatedPrincipal: string,
    projectId: string,
    workItemId: string,
    requestId: RequestId,
    changeSetId: string,
    resolutionKind: string,
    digest: Digest,
    expectedState: State,
    expectedVersion: Option<nat>,
    policyVersion: string)

  datatype Submission = Submission(
    id: SubmissionId,
    workItemId: string,
    kind: string,
    changeSetId: string,
    approvalId: string,
    approvalDigest: string,
    approvedHumanSubject: string,
    status: SubmissionStatus,
    plannedDependencyComplete: bool,
    inspectorConfirmed: bool,
    inspectorConfirmationId: string,
    revision: nat)

  datatype Relationship = Relationship(kind: string, target: RequestId)

  /** The content of a refined request, lists up to order as the digest takes them. */
  datatype RefinementContent = RefinementContent(
    intent: string,
    rationale: string,
    owner: string,
    interfaces: multiset<string>,
    scopes: multiset<string>,
    relationships: multiset<Relationship>,
    classification: string,
    refinementState: string)

  datatype ResolutionPreview = ResolutionPreview(
    kind: string,
    changeSetId: string,
    plannedDependencyComplete: bool,
    inspectorConfirmed: bool)

  datatype EvaluationContext = EvaluationContext(
    authority: Authority,
    time: Time,
    nextToken: Token,
    approvals: map<string, Approval>,
    submissions: map<SubmissionId, Submission>,
    preview: Option<ResolutionPreview>,
    refreshReadiness: Option<Readiness>,
    refreshDependencies: Option<seq<Dependency>>)

  datatype StateVersion = StateVersion(state: State, version: nat)

  /** The source contract a materialization key is bound to: the fields
      `SourceFingerprint` digests. */
  datatype Reservation = Reservation(key: string, source: WorkItem, outcome: ReservationOutcome)

  datatype ReservationOutcome = ReservedWaiting | ReservedReady | ReservedBlocked | ReservedOmitted

  datatype Decision = Decision(
    outcome: Outcome,
    replayed: bool,
    authority: Authority,
    policyVersion: string,
    operation: Operation,
    before: Option<StateVersion>,
    after: Option<StateVersion>,
    reservation: Option<Reservation>,
    tokenIssued: Token,
    rejection: Option<Rejection>)

  /** A rule failure, with the details the caller is told. */
  datatype Rejection =
    | UnauthorizedAction(action: Operation, targetType: string, policyVersion: string)
    | InvalidChangeType(provided: string)
    | InvalidTransition(operation: Operation, current: State)
    | PreconditionFailed(reason: string, evidence: string)
    | DependencyIncomplete(dependency: string)
    | StaleState(expectedState: State, currentState: State)
    | StaleContractVersion(expectedVersion: Option<nat>, currentVersion: nat)
    | StaleFencingToken(fence: FenceStatus, currentVersion: nat)
    | DuplicateClaim(current: State, currentVersion: nat)
    | IdempotencyConflict(kind: string, key: string)
    | AlreadyTerminal(current: State, currentVersion: nat)
    | NotFound(targetType: string)
    | InvalidRequest(field: string)
    | WmsUnavailable
    | DuplicateRequest(requestId: RequestId)
    | StaleRequestRevision(expectedRevision: Option<nat>, currentRevision: nat)
    | UnknownMutation

  datatype FenceStatus = FenceMissing | FenceExpired | FenceOwnerMismatch | FenceStale

  // ----- the adapter surface -----

  datatype RequestRecord = RequestRecord(
    id: RequestId,
    intent: string,
    rationale: string,
    createdBy: string,
    owner: string,
    interfaces: seq<string>,
    scopes: seq<string>,
    classification: string,
    refinementState: string,
    businessPriority: string,
    relationships: seq<Relationship>,
    changeSetId: string,
    buildWorkItemId: string,
    revision: nat)

  datatype ChangeSet = ChangeSet(id: string, revision: string, businessPriority: string, buildWorkItemId: string)

  /** The decoded body of a call: one constructor per payload shape, and `Malformed`
      for a body that decodes as none of them. */
  datatype CallPayload =
    | Malformed
    | LifecyclePayload(payload: Payload)
    | PreflightPayload(operation: Operation, payload: Payload)
    | CreatePayload(intent: string, rationale: string, interfaces: seq<string>, scopes: seq<string>)
    | RefinePayload(refinement: Refinement)
    | PriorityPayload(businessPriority: string)
    | ChangeSetLinkPayload(changeSetId: string, targetRevision: string)
    | WorkItemLinkPayload(buildWorkItemId: string)
    | BlockedResolutionPayload(resolutionKind: string, changeSetId: string, approvalDigest: string, reason: string)
    | QueryPayload

  /** A refinement; an absent list leaves the stored one alone. */
  datatype Refinement = Refinement(
    intent: string,
    rationale: string,
    owner: string,
    interfaces: Option<seq<string>>,
    scopes: Option<seq<string>>,
    relationships: Option<seq<Relationship>>,
    classification: string,
    refinementState: string,
    humanApprovalId: string,
    approvalDigest: Digest)

  datatype Call = Call(
    operation: Operation,
    policyVersion: string,
    requestId: RequestId,
    workItemId: string,
    expectedRequestRevision: Option<nat>,
    expectedState: State,
    expectedVersion: Option<nat>,
    fencingToken: Token,
    humanApprovalId: string,
    idempotencyKey: string,
    materializationKey: string,
    payload: CallPayload)

  datatype ResultOutcome = Read | Applied | Replayed | Refused

  datatype Mutation = MutationNone | MutationApplied | MutationUnknown

  datatype Idempotency = NotIdempotent | FreshKey | ReplayedKey

  datatype Result = Result(
    ok: bool,
    operation: Operation,
    outcome: ResultOutcome,
    mutation: Mutation,
    idempotency: Idempotency,
    error: Option<Rejection>,
    decision: Option<Decision>,
    workItemId: string,
    workItemState: State,
    contractVersion: nat,
    item: Option<WorkItem>,
    request: Option<RequestRecord>,
    requestId: RequestId,
    requestRevision: nat,
    approvalStatus: ApprovalStatus,
    submission: string,
    submissionId: SubmissionId,
    submissionRevision: nat,
    priorSubmission: SubmissionId,
    priorSubmissionStatus: Option<SubmissionStatus>,
    priorApprovalStatus: ApprovalStatus,
    plannedDependencyComplete: Option<bool>,
    changeSetPriority: string,
    workItemPriority: string)

  datatype AuditEvent = AuditEvent(
    operation: Operation,
    subject: string,
    authorizedHumanSubject: string,
    requestId: RequestId,
    workItemId: string,
    idempotencyKey: string,
    policyVersion: string,
    before: Option<StateVersion>,
    after: Option<StateVersion>)

  /** What an idempotency key is bound to. The two digests carry different prefixes,
      so they never coincide. */
  datatype Fingerprint =
    | LifecycleFingerprint(request: Request, actions: multiset<Operation>, refs: multiset<string>, references: multiset<string>)
    | RequestFingerprint(call: Call, authorization: AuthorizationContext, actions: multiset<Operation>, refs: multiset<string>)

  /** The digest of a lifecycle request: everything but the idempotency key and the
      expiry of the authorization, lists up to order. */
  function FingerprintOf(request: Request): (f: Fingerprint) {
    LifecycleFingerprint(
      request.(idempotencyKey := "", references := [],
               authorization := request.authorization.(expiresAt := 0, allowedActions := [], allowedRefs := [])),
      multiset(request.authorization.allowedActions),
      multiset(request.authorization.allowedRefs),
      multiset(request.references))
  }

  function RequestFingerprintOf(call: Call, authorization: AuthorizationContext): (f: Fingerprint) {
    RequestFingerprint(
      call.(idempotencyKey := ""),
      authorization.(expiresAt := 0, allowedActions := [], allowedRefs := []),
      multiset(authorization.allowedActions),
      multiset(authorization.allowedRefs))
  }

  /** The source contract of a work item: mutable lifecycle fields, lease, observed
      dependency states and every merge field but the target are dropped. */
  function SourceOf(item: WorkItem): (source: WorkItem) {
    item.(
      state := NO_STATE,
      version := 0,
      materializationKey := "",
      priority := "",
      owner := "",
      lease := None,
      blockReason := "",
      activeSubmission := NoSubmission,
      inspection := NO_INSPECTION,
      expectedMerge :=
        if item.expectedMerge.None? || item.expectedMerge.value.target == "" then None
        else Some(MergeEnvelope("", "", "", item.expectedMerge.value.target, 0, "")),
      reconciliation := NO_RECONCILIATION,
      dependencies := seq(|item.dependencies|, i requires 0 <= i < |item.dependencies| =>
        Dependency(item.dependencies[i].id, NO_STATE)))
  }

  /** The payload-level change type fills in for one the item does not name. */
  function CanonicalSource(item: WorkItem, fallbackChangeType: string): (source: WorkItem)
  {
    if item.changeType == "" then item.(changeType := fallbackChangeType) else item
  }

  function BlankResult(operation: Operation): (r: Result) {
    Result(true, operation, Read, MutationNone, NotIdempotent, None, None, "", NO_STATE, 0, None, None, 0, 0,
           NO_APPROVAL_STATUS, "", NoSubmission, 0, NoSubmission, None, NO_APPROVAL_STATUS, None, "", "")
  }

  function RefusedResult(operation: Operation, rejection: Rejection): (r: Result) {
    BlankResult(operation).(ok := false, outcome := Refused, error := Some(rejection))
  }

  function AppliedResult(operation: Operation): (r: Result) {
    BlankResult(operation).(outcome := Applied, mutation := MutationApplied, idempotency := FreshKey)
  }

  /** The envelope of a decision; a preflight decision is always a plain read. */
  function ResultOfDecision(operation: Operation, decision: Decision): (r: Result) {
    if decision.authority == Preflight then
      BlankResult(operation).(decision := Some(decision))
    else if decision.outcome == Rejected then
      BlankResult(operation).(decision := Some(decision), ok := false, outcome := Refused, error := decision.rejection)
    else
      AppliedResult(operation).(decision := Some(decision))
  }

  /** The recorded result as a replay reports it. */
  function MarkReplayed(result: Result): (r: Result) {
    result.(
      outcome := Replayed,
      mutation := MutationNone,
      idempotency := ReplayedKey,
      decision := if result.decision.Some? then Some(result.decision.value.(replayed := true)) else None)
  }
}
