/** What one operation of the in-memory work-management system does, as a function from
    the store before to the store after and the answer. The class in `Memory.dfy` is
    proved to compute these functions field by field. */
module MemoryStore {
  import opened Records
  import opened Authorization
  import opened Evaluator
  import Text

  /** Trusted configuration; `lower` is the case folding of a request's intent. */
  datatype Config = Config(projectId: string, leaseDuration: int, materializerSubject: string, lower: char -> char)

  datatype IdempotencyEntry = IdempotencyEntry(fingerprint: Fingerprint, result: Result)

  datatype MaterializationEntry = MaterializationEntry(source: WorkItem, result: Result)

  /** The canonical value by which two requests are the same request. */
  datatype SemanticKey = SemanticKey(intent: string, interfaces: seq<string>, scopes: seq<string>)

  datatype Store = Store(
    workItems: map<string, WorkItem>,
    requests: map<RequestId, RequestRecord>,
    changeSets: map<string, ChangeSet>,
    approvals: map<string, Approval>,
    submissions: map<SubmissionId, Submission>,
    activeSubmissions: map<string, SubmissionId>,
    idempotency: map<string, IdempotencyEntry>,
    materializations: map<string, MaterializationEntry>,
    semanticRequests: map<SemanticKey, RequestId>,
    observedReadiness: map<string, Readiness>,
    events: seq<AuditEvent>,
    nextRequestId: nat,
    nextResolutionId: nat,
    nextAcknowledgementId: nat,
    resolutionRevisions: map<string, nat>,
    nextToken: nat)

  const EMPTY: Store :=
    Store(map[], map[], map[], map[], map[], map[], map[], map[], map[], map[], [], 0, 0, 0, map[], 0)

  // ----- observations of the store -----

  function Active(st: Store, workItemId: string): (id: SubmissionId) {
    if workItemId in st.activeSubmissions then st.activeSubmissions[workItemId] else NoSubmission
  }

  function Revision(st: Store, workItemId: string): (n: nat) {
    if workItemId in st.resolutionRevisions then st.resolutionRevisions[workItemId] else 0
  }

  predicate CompletedItem(cfg: Config, st: Store, id: string) {
    id in st.workItems && st.workItems[id].projectId == cfg.projectId && st.workItems[id].state == Completed
  }

  /** A dependency as the store itself observes it, whatever the record says. */
  function Live(cfg: Config, st: Store, id: string): (d: Dependency)
    ensures d.id == id
    ensures d.state == Completed <==> CompletedItem(cfg, st, id)
  {
    Dependency(id, if id in st.workItems && st.workItems[id].projectId == cfg.projectId then st.workItems[id].state else Initial)
  }

  function LiveDependencies(cfg: Config, st: Store, item: WorkItem): (ds: seq<Dependency>)
    ensures |ds| == |item.dependencies|
    ensures forall i | 0 <= i < |ds| :: ds[i] == Live(cfg, st, item.dependencies[i].id)
  {
    seq(|item.dependencies|, i requires 0 <= i < |item.dependencies| => Live(cfg, st, item.dependencies[i].id))
  }

  predicate PlannedDependencyComplete(st: Store, changeSetId: string) {
    && changeSetId in st.changeSets
    && var id := st.changeSets[changeSetId].buildWorkItemId;
       id != "" && id in st.workItems && st.workItems[id].state == Completed
  }

  function SubmissionSnapshot(st: Store): (snapshot: map<SubmissionId, Submission>)
    ensures snapshot.Keys == st.submissions.Keys
  {
    map id | id in st.submissions ::
      var s := st.submissions[id];
      s.(inspectorConfirmed := s.inspectorConfirmationId != "",
         plannedDependencyComplete :=
           if s.kind == "add-requirement" then PlannedDependencyComplete(st, s.changeSetId) else s.plannedDependencyComplete)
  }

  function ApprovalSubject(st: Store, approvalId: string, operation: Operation): (subject: string) {
    if operation in {ResolveBlock, BlockedWorkSubmitResolution, BlockedWorkAcknowledge, RequestRefine} && approvalId in st.approvals
    then st.approvals[approvalId].approvedSubject
    else ""
  }

  function SemanticKeyOf(cfg: Config, intent: string, interfaces: seq<string>, scopes: seq<string>): (k: SemanticKey) {
    SemanticKey(Lowered(cfg, Text.Trim(intent)), Text.SortedUnique(interfaces), Text.SortedUnique(scopes))
  }

  function Lowered(cfg: Config, s: string): (r: string) {
    seq(|s|, i requires 0 <= i < |s| => cfg.lower(s[i]))
  }

  function KeyOf(cfg: Config, request: RequestRecord): (k: SemanticKey) {
    SemanticKeyOf(cfg, request.intent, request.interfaces, request.scopes)
  }

  // ----- lifecycle commands: from the call to a route -----

  function MaterializationKey(call: Call, payload: Payload): (key: string) {
    if call.materializationKey != "" then call.materializationKey
    else if payload.materializationKey != "" then payload.materializationKey
    else if payload.workItem.Some? then payload.workItem.value.materializationKey
    else ""
  }

  function NonEmpty(refs: seq<string>): (r: seq<string>) {
    if refs == [] then [] else (if refs[0] == "" then [] else [refs[0]]) + NonEmpty(refs[1..])
  }

  /** The Git references a command consumes from its payload. */
  function LifecycleReferences(operation: Operation, role: Role, payload: Payload): (refs: seq<string>) {
    var envelope :=
      if operation == Materialize then
        if payload.workItem.Some? then payload.workItem.value.expectedMerge else None
      else if operation in {BeginMerge, RecordMerge} && role != Reconciler then payload.mergeEnvelope
      else None;
    if envelope.None? then []
    else
      NonEmpty([envelope.value.target, envelope.value.integrationHead, envelope.value.mergeCommit, envelope.value.inspectionRunId])
  }

  function Normalize(cfg: Config, st: Store, call: Call, auth: AuthorizationContext, given: Payload): (request: Request)
    ensures request.operation == call.operation && request.idempotencyKey == call.idempotencyKey
    ensures request.projectId == cfg.projectId && request.authorization == auth
    ensures request.fencingToken == call.fencingToken
    ensures call.operation != Materialize ==> request.workItemId == call.workItemId
  {
    var id := given.resolutionSubmission;
    var payload := given.(
      changeSetId :=
        if id != NoSubmission && given.changeSetId == "" && id in st.submissions then st.submissions[id].changeSetId
        else given.changeSetId,
      humanApprovalId := if call.humanApprovalId != "" then call.humanApprovalId else given.humanApprovalId);
    Request(
      call.operation,
      cfg.projectId,
      if call.operation == Materialize && call.workItemId == "" && payload.workItem.Some? then payload.workItem.value.id
      else call.workItemId,
      MaterializationKey(call, payload),
      call.idempotencyKey,
      call.expectedState,
      call.expectedVersion,
      call.fencingToken,
      LifecycleReferences(call.operation, auth.role, payload),
      payload,
      auth)
  }

  /** What is to be done about a lifecycle call. */
  datatype Route =
    | Answer(result: Result)                  // nothing changes
    | Freeze(frozen: Request, result: Result) // only the idempotency key is recorded
    | Perform(request: Request, current: Option<WorkItem>, evaluation: EvaluationContext)

  function RefusedDecision(request: Request, rejection: Rejection): (r: Result) {
    ResultOfDecision(request.operation, RejectionDecision(request, Authoritative, None, rejection))
  }

  /** The recorded answer under a key that is already bound. */
  function RecordedAnswer(st: Store, key: string, fingerprint: Fingerprint): (r: Option<Result>)
    requires key in st.idempotency
    ensures r.Some? <==> st.idempotency[key].fingerprint == fingerprint
  {
    if st.idempotency[key].fingerprint == fingerprint then Some(MarkReplayed(st.idempotency[key].result)) else None
  }

  /** Create-or-return: what a bound materialization key answers. */
  function BoundMaterialization(st: Store, request: Request): (r: Result)
    requires request.materializationKey in st.materializations && request.payload.workItem.Some?
  {
    var entry := st.materializations[request.materializationKey];
    var source := CanonicalSource(request.payload.workItem.value, request.payload.changeType);
    if TargetRejection(request, request.payload.workItem).Some? then
      RefusedDecision(request, TargetRejection(request, request.payload.workItem).value)
    else if SourceMergeRejection(source).Some? then RefusedDecision(request, SourceMergeRejection(source).value)
    else if SourceOf(source) != entry.source then
      RefusedDecision(request, IdempotencyConflict("materialization-source", request.materializationKey))
    else MarkReplayed(entry.result)
  }

  function ReplayRoute(st: Store, request: Request): (r: Option<Route>)
    ensures r.Some? && !r.value.Answer? ==> request.idempotencyKey !in st.idempotency && r.value.Freeze? && r.value.frozen == request
    ensures r.None? ==> request.idempotencyKey !in st.idempotency
    ensures r.None? && request.operation == Materialize && request.payload.workItem.Some? ==>
              request.materializationKey !in st.materializations
  {
    if request.idempotencyKey in st.idempotency then
      var recorded := RecordedAnswer(st, request.idempotencyKey, FingerprintOf(request));
      if recorded.Some? then Some(Answer(recorded.value))
      else Some(Answer(RefusedDecision(request, IdempotencyConflict("request-fingerprint", request.idempotencyKey))))
    else if request.operation == Materialize && request.payload.workItem.Some? && request.materializationKey in st.materializations then
      Some(Freeze(request, BoundMaterialization(st, request)))
    else None
  }

  function BaseEvaluation(st: Store, now: Time): (e: EvaluationContext) {
    EvaluationContext(Authoritative, now, st.nextToken + 1, st.approvals, SubmissionSnapshot(st), None, None, None)
  }

  predicate Authorized(call: Call, request: Request, now: Time) {
    && AuthorizeLifecycle(request.authorization, request.operation, request.projectId, request.workItemId,
                          request.payload.changeSetId, request.references, now).None?
    && (call.policyVersion == "" || call.policyVersion == request.authorization.policyVersion)
  }

  /** The record a command is evaluated on; every command but materialize sees the
      submission that is active now. */
  function CurrentItem(st: Store, request: Request): (current: Option<WorkItem>) {
    if request.workItemId !in st.workItems then None
    else if request.operation == Materialize then Some(st.workItems[request.workItemId])
    else Some(st.workItems[request.workItemId].(activeSubmission := Active(st, request.workItemId)))
  }

  predicate RefreshesDependencies(operation: Operation) {
    operation in {RefreshDependencies, ResolveBlock, Revalidate, RefreshActive}
  }

  /** The evaluation with the evidence the store observes itself. */
  function RefreshedEvaluation(cfg: Config, st: Store, now: Time, request: Request): (e: EvaluationContext) {
    var current := CurrentItem(st, request);
    BaseEvaluation(st, now).(
      refreshDependencies :=
        if current.Some? && (request.operation == Materialize || RefreshesDependencies(request.operation)) then
          Some(LiveDependencies(cfg, st, current.value))
        else if request.operation == Materialize && request.payload.workItem.Some? then
          Some(LiveDependencies(cfg, st, request.payload.workItem.value))
        else None,
      refreshReadiness :=
        if current.Some? && RefreshesDependencies(request.operation) && request.workItemId in st.observedReadiness then
          Some(st.observedReadiness[request.workItemId])
        else None)
  }

  function RouteOf(cfg: Config, st: Store, now: Time, call: Call, auth: AuthorizationContext): (r: Route)
    ensures r.Freeze? ==> r.frozen.idempotencyKey == call.idempotencyKey && call.idempotencyKey !in st.idempotency
    ensures r.Perform? ==>
              && call.payload.LifecyclePayload?
              && r.request == Normalize(cfg, st, call, auth, call.payload.payload)
              && r.request.idempotencyKey == call.idempotencyKey && call.idempotencyKey !in st.idempotency
              && r.request.operation == call.operation
              && r.request.projectId == cfg.projectId
              && r.current == CurrentItem(st, r.request)
              && r.evaluation == RefreshedEvaluation(cfg, st, now, r.request)
              && (r.request.operation == Materialize && r.request.payload.workItem.Some? ==>
                    r.request.materializationKey !in st.materializations)
  {
    if !call.payload.LifecyclePayload? then Answer(RefusedResult(call.operation, InvalidRequest("payload")))
    else
      var request := Normalize(cfg, st, call, auth, call.payload.payload);
      var base := BaseEvaluation(st, now);
      var current := CurrentItem(st, request);
      if !ContextIsValid(auth, request.projectId, request.workItemId, request.payload.changeSetId, now) then
        Answer(ResultOfDecision(call.operation, Evaluate(request, None, base)))
      else if current.None? && request.operation != Materialize then
        var refusal := ResultOfDecision(call.operation, Evaluate(request, None, base));
        if Authorized(call, request, now) && request.idempotencyKey != "" then
          var replay := ReplayRoute(st, request);
          if replay.Some? then replay.value else Freeze(request, refusal)
        else Answer(refusal)
      else if AuthorizeLifecycle(auth, request.operation, request.projectId, request.workItemId,
                                 request.payload.changeSetId, request.references, now).Some? then
        Answer(ResultOfDecision(call.operation, Evaluate(request, current, base)))
      else if !Authorized(call, request, now) then
        Answer(RefusedDecision(request, UnauthorizedAction(call.operation, if call.workItemId != "" then "work-item" else "project",
                                                           auth.policyVersion)))
      else if request.idempotencyKey == "" then Answer(RefusedResult(call.operation, InvalidRequest("idempotency_key")))
      else
        var replay := ReplayRoute(st, request);
        if replay.Some? then replay.value
        else Perform(request, current, RefreshedEvaluation(cfg, st, now, request))
  }

  // ----- lifecycle commands: the effect of a decision -----

  predicate StartsLease(operation: Operation, to: State) {
    operation in {Claim, ReturnToBuilding} || (operation in {RefreshActive, MergeConflict} && to == Building)
  }

  predicate ReleasesLease(operation: Operation, to: State) {
    || operation in {RaiseSpecQuestion, MergeNotApplied, RecoverLease, RecordMerge, Abandon}
    || (operation in {RefreshActive, MergeConflict} && to != Building)
  }

  function OwnerAfter(item: WorkItem, request: Request, to: State): (owner: string) {
    if StartsLease(request.operation, to) then request.authorization.subject
    else if ReleasesLease(request.operation, to) then ""
    else item.owner
  }

  function LeaseAfter(cfg: Config, item: WorkItem, request: Request, to: State, token: Token, now: Time): (lease: Option<Lease>) {
    if StartsLease(request.operation, to) then Some(Lease(request.authorization.subject, token, now + cfg.leaseDuration))
    else if ReleasesLease(request.operation, to) then None
    else if request.operation == RenewLease && item.lease.Some? then
      Some(item.lease.value.(expiresAt := now + cfg.leaseDuration))
    else item.lease
  }

  function ReconciliationAfter(item: WorkItem, request: Request): (r: Reconciliation) {
    match request.operation
    case Claim => NO_RECONCILIATION
    case MergeConflict => NO_RECONCILIATION
    case MergeNotApplied => NO_RECONCILIATION
    case RecoverLease => NO_RECONCILIATION
    case RecordMerge =>
      Reconciliation("merge-recorded", "merged",
                     if request.authorization.role == Reconciler then item.reconciliation.envelope else request.payload.mergeEnvelope)
    case _ => item.reconciliation
  }

  function RefreshedBlockReason(item: WorkItem, evaluation: EvaluationContext): (reason: string) {
    var failure := ReadinessFailure(EffectiveReadiness(item, evaluation));
    if failure != "" then failure
    else
      match FirstIncomplete(EffectiveDependencies(item, evaluation))
      case Some(id) => if id == "" then "an unnamed dependency is incomplete" else "dependency " + id + " is incomplete"
      case None => "refresh found unresolved work"
  }

  function BlockReasonAfter(item: WorkItem, request: Request, to: State, evaluation: EvaluationContext): (reason: string) {
    match request.operation
    case RaiseSpecQuestion => request.payload.question
    case Revalidate => ReadinessFailure(EffectiveReadiness(item, evaluation))
    case RefreshActive => if to == Building then item.blockReason else RefreshedBlockReason(item, evaluation)
    case MergeConflict => if to == Building then item.blockReason else ""
    case ReturnToBuilding => ""
    case MergeNotApplied => ""
    case RecoverLease => ""
    case RecordMerge => ""
    case Abandon => ""
    case ResolveBlock => ""
    case _ => item.blockReason
  }

  function SortedReasons(readiness: Readiness): (r: Readiness) {
    readiness.(unresolvedReasons := Text.SortStrings(readiness.unresolvedReasons))
  }

  /** The record a command that moves `item` to `after` leaves, field by field. */
  function Moved(cfg: Config, item: WorkItem, request: Request, after: StateVersion, token: Token, evaluation: EvaluationContext): (r: WorkItem) {
    var to := after.state;
    var refreshes := RefreshesDependencies(request.operation);
    item.(
      state := to,
      version := after.version,
      owner := OwnerAfter(item, request, to),
      lease := LeaseAfter(cfg, item, request, to, token, evaluation.time),
      inspection := if to in {Inspecting, Merging, Completed, Abandoned} then item.inspection else NO_INSPECTION,
      reconciliation := ReconciliationAfter(item, request),
      blockReason := BlockReasonAfter(item, request, to, evaluation),
      readiness :=
        if refreshes && evaluation.refreshReadiness.Some? then SortedReasons(evaluation.refreshReadiness.value) else item.readiness,
      dependencies :=
        if refreshes && evaluation.refreshDependencies.Some? then evaluation.refreshDependencies.value else item.dependencies,
      expectedMerge := if request.operation == BeginMerge then request.payload.mergeEnvelope else item.expectedMerge)
  }

  /** The record a materialization creates: the source contract, nothing observed yet. */
  function NewItem(request: Request, after: StateVersion, evaluation: EvaluationContext): (item: WorkItem)
    requires request.payload.workItem.Some?
  {
    var source := CanonicalSource(request.payload.workItem.value, request.payload.changeType);
    source.(
      state := after.state,
      version := after.version,
      materializationKey := request.materializationKey,
      owner := "",
      lease := None,
      dependencies := EffectiveDependencies(source, evaluation),
      reconciliation := NO_RECONCILIATION,
      inspection := NO_INSPECTION,
      blockReason := if after.state == Blocked then ReadinessFailure(source.readiness) else source.blockReason)
  }

  function Remember(st: Store, key: string, fingerprint: Fingerprint, result: Result): (r: Store) {
    st.(idempotency := st.idempotency[key := IdempotencyEntry(fingerprint, result)])
  }

  function LifecycleEvent(st: Store, request: Request, decision: Decision): (e: AuditEvent) {
    AuditEvent(request.operation, request.authorization.subject,
               ApprovalSubject(st, request.payload.humanApprovalId, request.operation), 0, request.workItemId,
               request.idempotencyKey, decision.policyVersion, decision.before, decision.after)
  }

  /** The answer to an allowed or omitted materialization. */
  function MaterializeResult(request: Request, decision: Decision, evaluation: EvaluationContext): (r: Result)
    requires request.payload.workItem.Some?
    requires decision.outcome == Allowed ==> decision.after.Some?
  {
    var result := ResultOfDecision(request.operation, decision);
    if decision.outcome != Allowed then result.(submission := "omitted")
    else
      var item := NewItem(request, decision.after.value, evaluation);
      result.(workItemId := item.id, workItemState := item.state, contractVersion := item.version, item := Some(item))
  }

  /** The store after an allowed or omitted materialization. */
  function Materialized(st: Store, request: Request, decision: Decision, evaluation: EvaluationContext): (r: Store)
    requires request.payload.workItem.Some? && decision.reservation.Some?
    requires decision.outcome == Allowed ==> decision.after.Some?
  {
    st.(
      workItems :=
        if decision.outcome == Allowed then
          var item := NewItem(request, decision.after.value, evaluation);
          st.workItems[item.id := item]
        else st.workItems,
      events := st.events + [LifecycleEvent(st, request, decision)],
      nextToken := st.nextToken + (if decision.tokenIssued != NO_TOKEN then 1 else 0),
      materializations := st.materializations[request.materializationKey :=
        MaterializationEntry(decision.reservation.value.source, MaterializeResult(request, decision, evaluation))])
  }

  /** The store after an allowed command on an existing record. */
  function Advanced(cfg: Config, st: Store, request: Request, item: WorkItem, decision: Decision, evaluation: EvaluationContext): (r: Store)
    requires decision.after.Some?
  {
    var moved := Moved(cfg, item, request, decision.after.value, decision.tokenIssued, evaluation);
    st.(
      workItems := st.workItems[moved.id := moved],
      nextToken := st.nextToken + (if decision.tokenIssued != NO_TOKEN then 1 else 0),
      events := st.events + [LifecycleEvent(st, request, decision)])
  }

  /** The approval and the submission a resolve-block spends. */
  function ResolutionSpent(st: Store, request: Request): (r: Store)
    requires request.payload.humanApprovalId in st.approvals
    requires request.payload.resolutionSubmission in st.submissions
    ensures r.changeSets == st.changeSets
  {
    var approvalId := request.payload.humanApprovalId;
    var submission := st.submissions[request.payload.resolutionSubmission].(status := SubmissionConsumed);
    st.(
      approvals := st.approvals[approvalId := st.approvals[approvalId].(status := Consumed)],
      submissions := st.submissions[submission.id := submission],
      activeSubmissions := st.activeSubmissions[request.workItemId := NoSubmission])
  }

  /** The answer to a command that was evaluated, and the store it leaves. */
  function Performed(cfg: Config, st: Store, now: Time, request: Request): (r: (Store, Result)) {
    var current := CurrentItem(st, request);
    var evaluation := RefreshedEvaluation(cfg, st, now, request);
    var decision := Evaluate(request, current, evaluation);
    var result := ResultOfDecision(request.operation, decision);
    AllowedShape(request, current, evaluation);
    if decision.outcome == Rejected then
      (st, if request.operation == ResolveBlock && request.payload.humanApprovalId != "" && request.payload.humanApprovalId in st.approvals
           then result.(approvalStatus := st.approvals[request.payload.humanApprovalId].status) else result)
    else if request.operation == Materialize then
      (Materialized(st, request, decision, evaluation), MaterializeResult(request, decision, evaluation))
    else
      var moved := Moved(cfg, current.value, request, decision.after.value, decision.tokenIssued, evaluation);
      var advanced := Advanced(cfg, st, request, current.value, decision, evaluation);
      var answer := result.(workItemId := moved.id, workItemState := moved.state, contractVersion := moved.version);
      if request.operation == ResolveBlock then (ResolutionSpent(advanced, request), answer.(approvalStatus := Consumed))
      else (advanced, answer)
  }

  function ExecuteLifecycle(cfg: Config, st: Store, now: Time, call: Call, auth: AuthorizationContext): (r: (Store, Result)) {
    match RouteOf(cfg, st, now, call, auth)
    case Answer(result) => (st, result)
    case Freeze(request, result) => (Remember(st, request.idempotencyKey, FingerprintOf(request), result), result)
    case Perform(request, _, _) =>
      var (after, result) := Performed(cfg, st, now, request);
      (Remember(after, request.idempotencyKey, FingerprintOf(request), result), result)
  }
}
