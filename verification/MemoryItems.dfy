/** What every stored work item satisfies, and what an allowed command does to it. */
module MemoryItems {
  import opened Records
  import opened Authorization
  import opened Evaluator
  import opened MemoryStore
  import Text

  predicate HasLease(state: State) {
    state in {Building, Inspecting, Merging}
  }

  /** Past the dependency gate. */
  predicate Started(state: State) {
    state in {ReadyForBuilding, Building, Inspecting, Merging, Completed}
  }

  /** The states inspection evidence may be held in. */
  predicate KeepsInspection(state: State) {
    state in {Inspecting, Merging, Completed, Abandoned}
  }

  /** The states a command can lead to, from a state it is legal from. */
  function Destinations(operation: Operation, from: State): (states: set<State>) {
    match operation
    case Materialize => {Waiting, ReadyForBuilding, Blocked}
    case RefreshDependencies => {ReadyForBuilding}
    case Revalidate => {Blocked}
    case ResolveBlock => {ReadyForBuilding}
    case Claim => {Building}
    case RenewLease => {from}
    case TestsPass => {Inspecting}
    case RaiseSpecQuestion => {Blocked}
    case RefreshActive => {Building, Blocked}
    case ReturnToBuilding => {Building}
    case BeginMerge => {Merging}
    case MergeConflict => {Building, ReadyForBuilding}
    case MergeNotApplied => {ReadyForBuilding}
    case RecordMerge => {Completed}
    case RecoverLease => {ReadyForBuilding}
    case Abandon => {Abandoned}
    case _ => {}
  }

  /** The lease discipline: a lease exists exactly in building, inspecting and merging,
      held by the record's owner under an issued token. */
  predicate LeaseOk(item: WorkItem) {
    && (item.lease.Some? <==> HasLease(item.state))
    && (item.lease.Some? ==> item.owner == item.lease.value.owner && item.lease.value.token != NO_TOKEN)
    && (item.lease.None? ==> item.owner == "")
  }

  /** The completion gate: evidence starts clean, and a merging or completed record
      carries the full inspection and the tested candidate of its own merge. */
  predicate GateOk(item: WorkItem) {
    && (!KeepsInspection(item.state) ==> item.inspection == NO_INSPECTION)
    && (item.state in {Merging, Completed} ==>
          && item.inspection == FULL_INSPECTION
          && item.expectedMerge.Some?
          && IsCandidate(item.expectedMerge.value)
          && item.expectedMerge.value.contractVersion == if item.state == Merging then item.version else item.version - 1)
  }

  predicate ItemOk(project: string, item: WorkItem) {
    && item.projectId == project
    && item.version >= 1
    && item.state in {Waiting, ReadyForBuilding, Building, Inspecting, Blocked, Merging, Completed, Abandoned}
    && LeaseOk(item)
    && GateOk(item)
  }

  function Target(item: WorkItem): (target: string) {
    if item.expectedMerge.Some? then item.expectedMerge.value.target else ""
  }

  /** The verdict of an authoritative command that a role may give and that is legal from
      the current state. */
  lemma VerdictFacts(request: Request, item: WorkItem, evaluation: EvaluationContext)
    requires evaluation.authority == Authoritative
    requires RoleAllows(request.authorization.role, request.operation)
    requires TransitionAllowed(request.operation, item.state)
    requires request.operation != Materialize
    requires EvaluateTransition(request, item, evaluation).Move?
    ensures var to := EvaluateTransition(request, item, evaluation).to;
            && to in Destinations(request.operation, item.state)
            && (IssuesToken(request.operation, request.authorization.role, to) <==> StartsLease(request.operation, to))
            && (request.operation in {RefreshDependencies, ResolveBlock} ==> AllCompleted(EffectiveDependencies(item, evaluation)))
            && (request.operation == RefreshActive && to == Building ==> AllCompleted(EffectiveDependencies(item, evaluation)))
            && (request.operation == BeginMerge ==> item.inspection == FULL_INSPECTION && CandidateRejection(request, item).None?)
  {
    hide ReadinessFailure, FirstIncomplete, Text.IsBlank, EnvelopeMatches, ResolutionPreconditions, CandidateRejection, AllCompleted,
         ContractFailure, Blocker;
  }

  /** The record a legal move leaves is well formed when the one before it was. */
  lemma MovedOk(
    cfg: Config, project: string, item: WorkItem, request: Request, to: State, token: Token, evaluation: EvaluationContext
  )
    requires ItemOk(project, item) && !IsTerminal(item.state)
    requires TransitionAllowed(request.operation, item.state) && request.operation != Materialize
    requires to in Destinations(request.operation, item.state)
    requires StartsLease(request.operation, to) ==> token != NO_TOKEN
    requires request.operation == BeginMerge ==> item.inspection == FULL_INSPECTION && CandidateRejection(request, item).None?
    ensures ItemOk(project, Moved(cfg, item, request, StateVersion(to, item.version + 1), token, evaluation))
  {
    hide RefreshedBlockReason, ReadinessFailure, Text.SortStrings, FirstIncomplete;
  }

  /** What an allowed command on a record amounts to. */
  ghost predicate IsMove(item: WorkItem, request: Request, evaluation: EvaluationContext, decision: Decision) {
    && decision.after.Some?
    && decision.before == Some(StateVersion(item.state, item.version))
    && decision.after.value.version == item.version + 1
    && !IsTerminal(item.state)
    && request.operation != Materialize
    && TransitionAllowed(request.operation, item.state)
    && decision.after.value.state in Destinations(request.operation, item.state)
    && decision.tokenIssued == (if StartsLease(request.operation, decision.after.value.state) then evaluation.nextToken else NO_TOKEN)
    && (Started(decision.after.value.state) && !Started(item.state) ==>
          RefreshesDependencies(request.operation) && AllCompleted(EffectiveDependencies(item, evaluation)))
    && (request.operation == BeginMerge ==> item.inspection == FULL_INSPECTION && CandidateRejection(request, item).None?)
    && (RequiresLiveFence(request.operation, request.authorization.role) ==> LiveFence(request, item, evaluation.time).None?)
    && (request.operation == ResolveBlock ==> ResolutionBinding(request, item, evaluation).None?)
  }

  lemma AllowedIsMove(item: WorkItem, request: Request, evaluation: EvaluationContext)
    requires evaluation.authority == Authoritative && evaluation.nextToken != NO_TOKEN
    requires request.operation != Materialize
    requires Evaluate(request, Some(item), evaluation).outcome == Allowed
    ensures IsMove(item, request, evaluation, Evaluate(request, Some(item), evaluation))
    ensures Visible(request, Some(item))
  {
    hide AuthorizeRequest, Gate, ResolutionBinding, EvaluateTransition, LiveFence, LegalFrom, AllCompleted, CandidateRejection, Destinations;
    assert AuthorizeRequest(request, evaluation).None?;
    RoleOfAuthorized(request, evaluation);
    VerdictFacts(request, item, evaluation);
    StartedOnlyThroughGate(request.operation, item.state, EvaluateTransition(request, item, evaluation).to);
  }

  lemma RoleOfAuthorized(request: Request, evaluation: EvaluationContext)
    requires evaluation.authority == Authoritative
    requires AuthorizeRequest(request, evaluation).None?
    ensures RoleAllows(request.authorization.role, request.operation)
  {
    hide ContextIsValid, RoleOperations;
  }

  /** The dependency gate is only ever passed by the two commands that check it. */
  lemma StartedOnlyThroughGate(operation: Operation, from: State, to: State)
    requires TransitionAllowed(operation, from) && operation != Materialize
    requires to in Destinations(operation, from)
    ensures Started(to) && !Started(from) ==> operation in {RefreshDependencies, ResolveBlock}
  {
  }

  /** What an allowed or omitted materialization amounts to. */
  ghost predicate IsNew(request: Request, evaluation: EvaluationContext, decision: Decision) {
    && request.materializationKey != ""
    && request.payload.workItem.Some?
    && TargetRejection(request, request.payload.workItem).None?
    && decision.tokenIssued == NO_TOKEN
    && decision.before == Some(StateVersion(Initial, 0))
    && decision.reservation.Some?
    && decision.reservation.value.source == SourceOf(CanonicalSource(request.payload.workItem.value, request.payload.changeType))
    && (decision.outcome != Allowed ==> decision.after.None?)
    && (decision.outcome == Allowed ==>
          && decision.after.Some?
          && decision.after.value.version == 1
          && decision.after.value.state in Destinations(Materialize, Initial)
          && ItemOk(request.projectId, NewItem(request, decision.after.value, evaluation))
          && (decision.after.value.state == ReadyForBuilding ==>
                AllCompleted(NewItem(request, decision.after.value, evaluation).dependencies)))
  }

  lemma AllowedIsNew(request: Request, current: Option<WorkItem>, evaluation: EvaluationContext)
    requires request.operation == Materialize
    requires Evaluate(request, current, evaluation).outcome != Rejected
    ensures current.None?
    ensures IsNew(request, evaluation, Evaluate(request, current, evaluation))
  {
    hide AuthorizeRequest, Gate, ContractFailure, Blocker, SourceMergeRejection, SourceOf, TargetRejection, IsCandidate, ReadinessFailure;
    assert Gate(request, current, evaluation).None?;
    MaterializationShape(request, evaluation);
    assert TargetRejection(request, request.payload.workItem).None?;
  }

  /** The merge target of a move: a named target stays. */
  lemma MovedTarget(
    cfg: Config, item: WorkItem, request: Request, after: StateVersion, token: Token, evaluation: EvaluationContext
  )
    requires request.operation == BeginMerge ==> CandidateRejection(request, item).None?
    requires Target(item) != ""
    ensures Target(Moved(cfg, item, request, after, token, evaluation)) == Target(item)
  {
    hide LeaseAfter, OwnerAfter, ReconciliationAfter, BlockReasonAfter, SortedReasons;
  }

  /** A materialized record is its source's contract under its key, in its first version, with
      nothing done or observed yet. */
  ghost predicate StartsAs(request: Request, to: State, b: WorkItem)
    requires request.payload.workItem.Some?
  {
    var item := request.payload.workItem.value;
    && b.id == item.id && b.projectId == item.projectId && b.priority == item.priority
    && b.changeType == (if item.changeType == "" then request.payload.changeType else item.changeType)
    && b.implementationRequired == item.implementationRequired && b.readiness == item.readiness && b.expectedMerge == item.expectedMerge
    && b.activeSubmission == item.activeSubmission
    && b.materializationKey == request.materializationKey && b.state == to && b.version == 1
    && b.owner == "" && b.lease.None?
    && b.inspection == InspectionEvidence(false, false, false) && b.reconciliation == Reconciliation("", "", None)
    && (if to == Blocked then b.blockReason == ReadinessFailure(item.readiness) else b.blockReason == item.blockReason)
    && |b.dependencies| == |item.dependencies| && forall i | 0 <= i < |b.dependencies| :: b.dependencies[i].id == item.dependencies[i].id
  }

  lemma NewItemStarts(request: Request, after: StateVersion, evaluation: EvaluationContext)
    requires request.payload.workItem.Some? && after.version == 1
    requires evaluation.refreshDependencies.Some?
    requires var item, seen := request.payload.workItem.value, evaluation.refreshDependencies.value;
             |seen| == |item.dependencies| && forall i | 0 <= i < |seen| :: seen[i].id == item.dependencies[i].id
    ensures StartsAs(request, after.state, NewItem(request, after, evaluation))
    ensures NewItem(request, after, evaluation).dependencies == evaluation.refreshDependencies.value
  {
    hide ReadinessFailure;
  }
}
