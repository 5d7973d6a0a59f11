/** What every lifecycle command that is applied had to show, and what it does to its record, in
    every store a run can reach. */
module MemoryCommands {
  import opened Records
  import opened Authorization
  import opened Evaluator
  import opened EvaluatorRules
  import opened MemoryStore
  import opened MemoryRequests
  import opened MemoryItems
  import opened MemoryInvariant
  import opened MemoryProtocol
  import opened MemoryBacklog
  import opened MemorySteps
  import opened MemoryRuns
  import opened MemoryGuarantees
  import opened MemoryReplay
  import Text

  // ----- what a command does to its record -----

  predicate TakesLease(operation: Operation, to: State) {
    operation in {Claim, ReturnToBuilding} || (operation in {RefreshActive, MergeConflict} && to == Building)
  }

  predicate EndsLease(operation: Operation) {
    operation in {RaiseSpecQuestion, RefreshActive, MergeConflict, MergeNotApplied, RecoverLease, RecordMerge, Abandon}
  }

  /** A lease is taken by the caller for the configured time under a token never issued before,
      or prolonged from now, or given up, or left alone. */
  ghost predicate LeaseEffect(cfg: Config, st: Store, next: Store, now: Time, call: Call, auth: AuthorizationContext, a: WorkItem, b: WorkItem) {
    if TakesLease(call.operation, b.state) then
      && b.owner == auth.subject && b.lease == Some(Lease(auth.subject, st.nextToken + 1, now + cfg.leaseDuration))
      && next.nextToken == st.nextToken + 1
    else
      && next.nextToken == st.nextToken
      && if call.operation == RenewLease then
           a.lease.Some? && b.owner == a.owner && b.lease == Some(Lease(a.lease.value.owner, a.lease.value.token, now + cfg.leaseDuration))
         else if EndsLease(call.operation) then b.lease.None? && b.owner == ""
         else b.lease == a.lease && b.owner == a.owner
  }

  predicate Refreshing(operation: Operation) {
    operation in {RefreshDependencies, Revalidate, ResolveBlock, RefreshActive}
  }

  /** A refresh takes in what the store itself observes, and no other command touches the
      readiness and the dependencies. */
  ghost predicate RefreshEffect(cfg: Config, st: Store, call: Call, a: WorkItem, b: WorkItem) {
    && |b.dependencies| == |a.dependencies|
    && (forall i | 0 <= i < |a.dependencies| ::
          && b.dependencies[i].id == a.dependencies[i].id
          && if Refreshing(call.operation) then (b.dependencies[i].state == Completed <==> CompletedItem(cfg, st, b.dependencies[i].id))
             else b.dependencies[i] == a.dependencies[i])
    && if Refreshing(call.operation) && a.id in st.observedReadiness
       then b.readiness.(unresolvedReasons := []) == st.observedReadiness[a.id].(unresolvedReasons := [])
       else b.readiness == a.readiness
  }

  /** The evidence of a merge, and what is left of it. */
  ghost predicate MergeEffect(call: Call, auth: AuthorizationContext, a: WorkItem, b: WorkItem)
    requires call.payload.LifecyclePayload?
  {
    && b.expectedMerge == (if call.operation == BeginMerge then call.payload.payload.mergeEnvelope else a.expectedMerge)
    && b.inspection == (if b.state in {Inspecting, Merging, Completed, Abandoned} then a.inspection else InspectionEvidence(false, false, false))
    && b.reconciliation ==
       if call.operation in {Claim, MergeConflict, MergeNotApplied, RecoverLease} then Reconciliation("", "", None)
       else if call.operation == RecordMerge then
         Reconciliation("merge-recorded", "merged",
                        if auth.role == Reconciler then a.reconciliation.envelope else call.payload.payload.mergeEnvelope)
       else a.reconciliation
  }

  /** Why the record is blocked; a refresh that blocks it says why itself. */
  ghost predicate ReasonEffect(call: Call, a: WorkItem, b: WorkItem)
    requires call.payload.LifecyclePayload?
  {
    match call.operation
    case RaiseSpecQuestion => b.blockReason == call.payload.payload.question
    case Revalidate => b.blockReason != ""
    case RefreshActive => if b.state == Building then b.blockReason == a.blockReason else b.blockReason != ""
    case MergeConflict => b.blockReason == if b.state == Building then a.blockReason else ""
    case Claim => b.blockReason == a.blockReason
    case RenewLease => b.blockReason == a.blockReason
    case TestsPass => b.blockReason == a.blockReason
    case RefreshDependencies => b.blockReason == a.blockReason
    case BeginMerge => b.blockReason == a.blockReason
    case _ => b.blockReason == ""
  }

  /** Nothing else about the record changes but its state, its version and why it is blocked. */
  ghost predicate RestUnchanged(a: WorkItem, b: WorkItem) {
    && b.version == a.version + 1
    && b.id == a.id && b.projectId == a.projectId && b.materializationKey == a.materializationKey && b.changeType == a.changeType
    && b.implementationRequired == a.implementationRequired && b.priority == a.priority
  }

  /** Nothing else in the store changes but the log, the key and, for a resolve-block, the
      approval and the submission it spends. */
  ghost predicate OnlyThisRecord(st: Store, next: Store, call: Call) {
    && call.workItemId in next.workItems && next.workItems == st.workItems[call.workItemId := next.workItems[call.workItemId]]
    && next == st.(workItems := next.workItems, nextToken := next.nextToken, events := next.events, idempotency := next.idempotency,
                   approvals := next.approvals, submissions := next.submissions, activeSubmissions := next.activeSubmissions)
    && |next.events| == |st.events| + 1 && st.events <= next.events
    && (call.operation != ResolveBlock ==>
          next.approvals == st.approvals && next.submissions == st.submissions && next.activeSubmissions == st.activeSubmissions)
  }

  /** The store's own view of a command: its approvals and submissions, each submission with what
      was observed of it, and, for a refresh, the readiness and dependencies observed now. */
  function StoreContext(cfg: Config, st: Store, now: Time, operation: Operation, item: WorkItem): (e: EvaluationContext) {
    EvaluationContext(
      Authoritative, now, st.nextToken + 1, st.approvals,
      map id | id in st.submissions ::
        st.submissions[id].(
          inspectorConfirmed := st.submissions[id].inspectorConfirmationId != "",
          plannedDependencyComplete :=
            if st.submissions[id].kind == "add-requirement" then PlannedDependencyComplete(st, st.submissions[id].changeSetId)
            else st.submissions[id].plannedDependencyComplete),
      None,
      if Refreshing(operation) && item.id in st.observedReadiness then Some(st.observedReadiness[item.id]) else None,
      if Refreshing(operation) then Some(LiveDependencies(cfg, st, item)) else None)
  }

  /** The record as the store shows it to a command. */
  function Seen(st: Store, id: string): (item: WorkItem)
    requires id in st.workItems
  {
    st.workItems[id].(activeSubmission := Active(st, id))
  }

  /** What an applied command had to show, and what it did. */
  ghost predicate Earned(cfg: Config, st: Store, next: Store, now: Time, call: Call, auth: AuthorizationContext, result: Result) {
    && call.payload.LifecyclePayload? && call.workItemId in st.workItems
    && var a := Seen(st, call.workItemId);
       var request := Normalize(cfg, st, call, auth, call.payload.payload);
       var e := StoreContext(cfg, st, now, call.operation, a);
       && Admitted(request, a, e) && Evidence(request, a, e)
       && OnlyThisRecord(st, next, call)
       && var b := next.workItems[call.workItemId];
          && b.state == Destination(request, a, e) && RestUnchanged(a, b)
          && LeaseEffect(cfg, st, next, now, call, auth, a, b) && RefreshEffect(cfg, st, call, a, b)
          && MergeEffect(call, auth, a, b) && ReasonEffect(call, a, b)
          && result.workItemState == b.state && result.contractVersion == b.version
  }

  /** Every lifecycle command that is applied to a record had its evidence, as the tables have it,
      and has its effect, and no other, in every reachable store. */
  lemma CommandEffect(cfg: Config, inputs: seq<Input>, now: Time, call: Call, auth: AuthorizationContext)
    requires KnownLifecycleOperation(call.operation) && call.operation != Materialize
    requires Execute(cfg, Reached(cfg, inputs), now, call, Some(auth)).1.mutation == MutationApplied
    ensures var (next, result) := Execute(cfg, Reached(cfg, inputs), now, call, Some(auth));
            Earned(cfg, Reached(cfg, inputs), next, now, call, auth, result)
  {
    var st := Reached(cfg, inputs);
    hide Reached, Execute, ExecuteLifecycle, Earned, Inv;
    EveryRunKeeps(cfg, inputs);
    LifecycleExecutes(cfg, st, now, call, auth);
    AppliedCommand(cfg, st, now, call, auth);
  }

  lemma AppliedCommand(cfg: Config, st: Store, now: Time, call: Call, auth: AuthorizationContext)
    requires Inv(cfg, st) && KnownLifecycleOperation(call.operation) && call.operation != Materialize
    requires ExecuteLifecycle(cfg, st, now, call, auth).1.mutation == MutationApplied
    ensures var (next, result) := ExecuteLifecycle(cfg, st, now, call, auth);
            Earned(cfg, st, next, now, call, auth, result)
  {
    hide Evaluate, RouteOf, Normalize, Performed, CurrentItem, RefreshedEvaluation, FingerprintOf, Inv, Admitted, Evidence, Destination,
         StoreContext, Seen, ExecuteLifecycle, LeaseEffect, RefreshEffect, MergeEffect, ReasonEffect, RestUnchanged, OnlyThisRecord, IsMove;
    AppliedIsAllowed(cfg, st, now, call, auth);
    var request := Normalize(cfg, st, call, auth, call.payload.payload);
    var current, evaluation := CurrentItem(st, request), RefreshedEvaluation(cfg, st, now, request);
    AllowedShape(request, current, evaluation);
    StoreShows(cfg, st, now, request);
    var a := Seen(st, call.workItemId);
    AllowedExactly(request, a, evaluation);
    AllowedIsMove(a, request, evaluation);
    var (after, result) := Performed(cfg, st, now, request);
    Needed(request, a, evaluation);
    PerformedEffect(cfg, st, now, call, auth, request);
  }

  /** What a renewal and a revalidation have to show. */
  lemma Needed(request: Request, a: WorkItem, e: EvaluationContext)
    requires Admitted(request, a, e) && Evidence(request, a, e)
    ensures request.operation == RenewLease ==> a.lease.Some?
    ensures request.operation == Revalidate ==> ReadinessFailure(EffectiveReadiness(a, e)) != ""
  {
    hide Evidence, Admitted, ReadinessFailure;
    if request.operation == RenewLease {
      NeedsLease(request, a, e);
    } else if request.operation == Revalidate {
      NeedsFailure(request, a, e);
    }
  }

  lemma NeedsLease(request: Request, a: WorkItem, e: EvaluationContext)
    requires Admitted(request, a, e) && request.operation == RenewLease
    ensures a.lease.Some?
  {
    hide IsWildcard;
  }

  lemma NeedsFailure(request: Request, a: WorkItem, e: EvaluationContext)
    requires Evidence(request, a, e) && request.operation == Revalidate
    ensures ReadinessFailure(EffectiveReadiness(a, e)) != ""
  {
    hide ReadinessFailure, ContractReady, Unblocked, ContractFailure, Blocker;
    ReadyExactly(EffectiveReadiness(a, e));
  }

  /** The evaluator sees the record as the store shows it, in the store's own context. */
  lemma StoreShows(cfg: Config, st: Store, now: Time, request: Request)
    requires Inv(cfg, st) && request.operation != Materialize
    ensures CurrentItem(st, request).Some? ==>
              && request.workItemId in st.workItems && st.workItems[request.workItemId].id == request.workItemId
              && CurrentItem(st, request) == Some(Seen(st, request.workItemId))
              && RefreshedEvaluation(cfg, st, now, request) ==
                 StoreContext(cfg, st, now, request.operation, Seen(st, request.workItemId))
    ensures RefreshedEvaluation(cfg, st, now, request).authority == Authoritative
            && RefreshedEvaluation(cfg, st, now, request).nextToken != NO_TOKEN
  {
    hide PlannedDependencyComplete, SubmissionInv, SemanticInv, KeysInv, DependencyInv, AuditInv, TokensInv, MaterializationInv,
         LiveDependencies, ItemOk, Active;
  }

  lemma PerformedEffect(cfg: Config, st: Store, now: Time, call: Call, auth: AuthorizationContext, request: Request)
    requires call.payload.LifecyclePayload? && call.workItemId in st.workItems && st.workItems[call.workItemId].id == call.workItemId
    requires request == Normalize(cfg, st, call, auth, call.payload.payload) && call.operation != Materialize
    requires CurrentItem(st, request) == Some(Seen(st, call.workItemId))
    requires KnownLifecycleOperation(call.operation)
    requires var a, e := Seen(st, call.workItemId), StoreContext(cfg, st, now, call.operation, Seen(st, call.workItemId));
             && RefreshedEvaluation(cfg, st, now, request) == e
             && Evaluate(request, Some(a), e).outcome == Allowed
             && Evaluate(request, Some(a), e).after == Some(StateVersion(Destination(request, a, e), a.version + 1))
             && IsMove(a, request, e, Evaluate(request, Some(a), e))
             && (request.operation == RenewLease ==> a.lease.Some?)
             && (request.operation == Revalidate ==> ReadinessFailure(EffectiveReadiness(a, e)) != "")
    ensures var (after, result) := Performed(cfg, st, now, request);
            var next := Remember(after, request.idempotencyKey, FingerprintOf(request), result);
            var a := Seen(st, call.workItemId);
            && OnlyThisRecord(st, next, call)
            && var b := next.workItems[call.workItemId];
               && b.state == Destination(request, a, StoreContext(cfg, st, now, call.operation, a)) && RestUnchanged(a, b)
               && LeaseEffect(cfg, st, next, now, call, auth, a, b) && RefreshEffect(cfg, st, call, a, b)
               && MergeEffect(call, auth, a, b) && ReasonEffect(call, a, b)
               && result.workItemState == b.state && result.contractVersion == b.version
  {
    hide Evaluate, Normalize, CurrentItem, RefreshedEvaluation, FingerprintOf, Destination, LifecycleEvent, Moved, LeaseEffect, RefreshEffect,
         MergeEffect, ReasonEffect, ResolutionBinding, PlannedDependencyComplete, LiveDependencies, ResultOfDecision;
    var a := Seen(st, call.workItemId);
    var e := StoreContext(cfg, st, now, call.operation, a);
    var d := Evaluate(request, Some(a), e);
    AllowedShape(request, Some(a), e);
    var b := Moved(cfg, a, request, d.after.value, d.tokenIssued, e);
    MovedRest(cfg, a, request, d.after.value, d.tokenIssued, e);
    MovedEffect(cfg, st, now, call, auth, request, d);
  }

  lemma MovedRest(cfg: Config, a: WorkItem, request: Request, after: StateVersion, token: Token, e: EvaluationContext)
    ensures var b := Moved(cfg, a, request, after, token, e);
            && b.state == after.state && b.version == after.version && b.id == a.id && b.projectId == a.projectId
            && b.materializationKey == a.materializationKey && b.changeType == a.changeType
            && b.implementationRequired == a.implementationRequired && b.priority == a.priority
  {
    hide LeaseAfter, OwnerAfter, ReconciliationAfter, BlockReasonAfter, SortedReasons;
  }

  lemma MovedEffect(cfg: Config, st: Store, now: Time, call: Call, auth: AuthorizationContext, request: Request, d: Decision)
    requires call.payload.LifecyclePayload? && call.workItemId in st.workItems && st.workItems[call.workItemId].id == call.workItemId
    requires request == Normalize(cfg, st, call, auth, call.payload.payload) && KnownLifecycleOperation(call.operation)
    requires call.operation != Materialize
    requires var a, e := Seen(st, call.workItemId), StoreContext(cfg, st, now, call.operation, Seen(st, call.workItemId));
             && IsMove(a, request, e, d)
             && (request.operation == RenewLease ==> a.lease.Some?)
             && (request.operation == Revalidate ==> ReadinessFailure(EffectiveReadiness(a, e)) != "")
    ensures var a, e := Seen(st, call.workItemId), StoreContext(cfg, st, now, call.operation, Seen(st, call.workItemId));
            var b := Moved(cfg, a, request, d.after.value, d.tokenIssued, e);
            && (forall next: Store | next.nextToken == st.nextToken + (if d.tokenIssued != NO_TOKEN then 1 else 0) ::
                  LeaseEffect(cfg, st, next, now, call, auth, a, b))
            && RefreshEffect(cfg, st, call, a, b) && MergeEffect(call, auth, a, b) && ReasonEffect(call, a, b)
  {
    var a, e := Seen(st, call.workItemId), StoreContext(cfg, st, now, call.operation, Seen(st, call.workItemId));
    SamePayload(cfg, st, call, auth);
    hide Normalize, PlannedDependencyComplete, ResolutionBinding, LiveFence, CandidateRejection, AllCompleted, TransitionAllowed;
    LeaseMoves(cfg, st, now, call, auth, request, a, e, d);
    RefreshMoves(cfg, st, now, call, request, a, e, d);
    MergeMoves(cfg, call, auth, request, a, e, d);
    ReasonMoves(cfg, call, request, a, e, d);
    hide Moved, LeaseEffect, RefreshEffect, MergeEffect, ReasonEffect;
  }

  lemma SamePayload(cfg: Config, st: Store, call: Call, auth: AuthorizationContext)
    requires call.payload.LifecyclePayload?
    ensures var request := Normalize(cfg, st, call, auth, call.payload.payload);
            && request.payload.mergeEnvelope == call.payload.payload.mergeEnvelope
            && request.payload.question == call.payload.payload.question
  {
    hide MaterializationKey, LifecycleReferences;
  }

  lemma LeaseMoves(
    cfg: Config, st: Store, now: Time, call: Call, auth: AuthorizationContext, request: Request, a: WorkItem, e: EvaluationContext, d: Decision
  )
    requires request.operation == call.operation && request.authorization == auth && e.time == now && e.nextToken == st.nextToken + 1
    requires d.after.Some? && d.after.value.state in Destinations(request.operation, a.state)
    requires d.tokenIssued == if StartsLease(request.operation, d.after.value.state) then e.nextToken else NO_TOKEN
    requires KnownLifecycleOperation(call.operation) && call.operation != Materialize
    requires request.operation == RenewLease ==> a.lease.Some?
    ensures forall next: Store | next.nextToken == st.nextToken + (if d.tokenIssued != NO_TOKEN then 1 else 0) ::
              LeaseEffect(cfg, st, next, now, call, auth, a, Moved(cfg, a, request, d.after.value, d.tokenIssued, e))
  {
    hide ReconciliationAfter, BlockReasonAfter, SortedReasons;
  }

  lemma RefreshMoves(cfg: Config, st: Store, now: Time, call: Call, request: Request, a: WorkItem, e: EvaluationContext, d: Decision)
    requires request.operation == call.operation && d.after.Some? && e == StoreContext(cfg, st, now, call.operation, a)
    ensures RefreshEffect(cfg, st, call, a, Moved(cfg, a, request, d.after.value, d.tokenIssued, e))
  {
    hide ReconciliationAfter, BlockReasonAfter, OwnerAfter, LeaseAfter, PlannedDependencyComplete, Text.SortStrings;
  }

  lemma MergeMoves(cfg: Config, call: Call, auth: AuthorizationContext, request: Request, a: WorkItem, e: EvaluationContext, d: Decision)
    requires request.operation == call.operation && request.authorization == auth && call.payload.LifecyclePayload? && d.after.Some?
    requires request.payload.mergeEnvelope == call.payload.payload.mergeEnvelope
    ensures MergeEffect(call, auth, a, Moved(cfg, a, request, d.after.value, d.tokenIssued, e))
  {
    hide BlockReasonAfter, OwnerAfter, LeaseAfter, SortedReasons;
  }

  lemma ReasonMoves(cfg: Config, call: Call, request: Request, a: WorkItem, e: EvaluationContext, d: Decision)
    requires request.operation == call.operation && call.payload.LifecyclePayload? && d.after.Some?
    requires KnownLifecycleOperation(call.operation) && call.operation != Materialize
    requires request.payload.question == call.payload.payload.question
    requires d.after.value.state in Destinations(request.operation, a.state)
    requires request.operation == Revalidate ==> ReadinessFailure(EffectiveReadiness(a, e)) != ""
    ensures ReasonEffect(call, a, Moved(cfg, a, request, d.after.value, d.tokenIssued, e))
  {
    hide ReconciliationAfter, OwnerAfter, LeaseAfter, SortedReasons, ReadinessFailure, FirstIncomplete;
  }

  // ----- materialization -----

  /** What an applied materialization had to show, and what it left: a record in the state its
      readiness and the dependencies observed now call for, or none if none is needed; and its
      key bound. */
  ghost predicate Materializes(cfg: Config, st: Store, next: Store, now: Time, call: Call, auth: AuthorizationContext) {
    && call.payload.LifecyclePayload? && call.payload.payload.workItem.Some?
    && var request := Normalize(cfg, st, call, auth, call.payload.payload);
       var item := call.payload.payload.workItem.value;
       var e := EvaluationContext(Authoritative, now, st.nextToken + 1, st.approvals, SubmissionSnapshot(st), None, None,
                                  Some(LiveDependencies(cfg, st, item)));
       && MayMaterialize(request, None, e)
       && request.workItemId !in st.workItems && request.materializationKey !in st.materializations
       && request.materializationKey in next.materializations
       && next.materializations == st.materializations[request.materializationKey := next.materializations[request.materializationKey]]
       && next == st.(workItems := next.workItems, materializations := next.materializations, events := next.events,
                      idempotency := next.idempotency)
       && if !item.implementationRequired then next.workItems == st.workItems
          else
            && item.id !in st.workItems && item.id in next.workItems && next.workItems == st.workItems[item.id := next.workItems[item.id]]
            && StartsAs(request, MaterializedState(request, e), next.workItems[item.id])
            && forall d | d in next.workItems[item.id].dependencies :: d.state == Completed <==> CompletedItem(cfg, st, d.id)
  }

  lemma MaterializeEffect(cfg: Config, inputs: seq<Input>, now: Time, call: Call, auth: AuthorizationContext)
    requires call.operation == Materialize
    requires Execute(cfg, Reached(cfg, inputs), now, call, Some(auth)).1.mutation == MutationApplied
    ensures Materializes(cfg, Reached(cfg, inputs), Execute(cfg, Reached(cfg, inputs), now, call, Some(auth)).0, now, call, auth)
  {
    var st := Reached(cfg, inputs);
    hide Reached, Execute, ExecuteLifecycle, Materializes, Inv;
    EveryRunKeeps(cfg, inputs);
    LifecycleExecutes(cfg, st, now, call, auth);
    AppliedMaterialization(cfg, st, now, call, auth);
  }

  lemma AppliedMaterialization(cfg: Config, st: Store, now: Time, call: Call, auth: AuthorizationContext)
    requires call.operation == Materialize && ExecuteLifecycle(cfg, st, now, call, auth).1.mutation == MutationApplied
    ensures Materializes(cfg, st, ExecuteLifecycle(cfg, st, now, call, auth).0, now, call, auth)
  {
    hide Evaluate, RouteOf, Normalize, Performed, FingerprintOf, MayMaterialize, MaterializedState, CurrentItem, RefreshedEvaluation,
         ExecuteLifecycle, Materializes, CanonicalSource;
    AppliedIsAllowed(cfg, st, now, call, auth);
    var request := Normalize(cfg, st, call, auth, call.payload.payload);
    var current, evaluation := CurrentItem(st, request), RefreshedEvaluation(cfg, st, now, request);
    OwnAuthority(cfg, st, now, request);
    AllowedShape(request, current, evaluation);
    MaterializedExactly(request, current, evaluation);
    NewIssuesNothing(request, current, evaluation);
    SameItem(cfg, st, call, auth);
    NewLeft(cfg, st, now, call, auth, request);
  }

  lemma OwnAuthority(cfg: Config, st: Store, now: Time, request: Request)
    ensures var e := RefreshedEvaluation(cfg, st, now, request); e.authority == Authoritative && e.nextToken != NO_TOKEN
  {
  }

  lemma NewIssuesNothing(request: Request, current: Option<WorkItem>, e: EvaluationContext)
    requires request.operation == Materialize && e.authority == Authoritative && e.nextToken != NO_TOKEN
    ensures Evaluate(request, current, e).tokenIssued == NO_TOKEN
  {
    hide Gate, EvaluateMaterialization, Expected;
    if Gate(request, current, e).None? {
      RoleOfAuthorized(request, e);
    }
  }

  lemma SameItem(cfg: Config, st: Store, call: Call, auth: AuthorizationContext)
    requires call.payload.LifecyclePayload?
    ensures Normalize(cfg, st, call, auth, call.payload.payload).payload.workItem == call.payload.payload.workItem
  {
    hide MaterializationKey, LifecycleReferences;
  }

  lemma NewLeft(cfg: Config, st: Store, now: Time, call: Call, auth: AuthorizationContext, request: Request)
    requires call.payload.LifecyclePayload? && request.payload.workItem == call.payload.payload.workItem
    requires request == Normalize(cfg, st, call, auth, call.payload.payload) && call.operation == Materialize
    requires RouteOf(cfg, st, now, call, auth).Perform? && CurrentItem(st, request).None?
    requires request.payload.workItem.Some?
    requires var e, d := RefreshedEvaluation(cfg, st, now, request), Evaluate(request, None, RefreshedEvaluation(cfg, st, now, request));
             && d.outcome != Rejected && MayMaterialize(request, None, e)
             && (d.outcome == Omitted <==> !CanonicalSource(request.payload.workItem.value, request.payload.changeType).implementationRequired)
             && (d.outcome == Allowed ==> d.after == Some(StateVersion(MaterializedState(request, e), 1)))
             && d.tokenIssued == NO_TOKEN
    ensures var (after, result) := Performed(cfg, st, now, request);
            Materializes(cfg, st, Remember(after, request.idempotencyKey, FingerprintOf(request), result), now, call, auth)
  {
    hide Evaluate, RouteOf, Normalize, FingerprintOf, MayMaterialize, MaterializedState, SubmissionSnapshot, StartsAs, NewItem, LifecycleEvent,
         MaterializeResult;
    var e := RefreshedEvaluation(cfg, st, now, request);
    var d := Evaluate(request, None, e);
    AllowedShape(request, None, e);
    Named(request, e);
    if d.outcome == Allowed {
      NewItemStarts(request, d.after.value, e);
      NewId(request, d.after.value, e);
    }
  }

  lemma Named(request: Request, e: EvaluationContext)
    requires MayMaterialize(request, None, e)
    ensures request.payload.workItem.value.id == request.workItemId
  {
    hide MaySend;
  }

  lemma NewId(request: Request, after: StateVersion, e: EvaluationContext)
    requires request.payload.workItem.Some?
    ensures NewItem(request, after, e).id == request.payload.workItem.value.id
  {
  }

  /** The references a command must be granted: those of the envelope it presents. */
  lemma ReferencesExactly(operation: Operation, role: Role, payload: Payload, ref: string)
    ensures ref in LifecycleReferences(operation, role, payload) <==>
            var envelope := if operation == Materialize then if payload.workItem.Some? then payload.workItem.value.expectedMerge else None
                            else if operation in {BeginMerge, RecordMerge} && role != Reconciler then payload.mergeEnvelope
                            else None;
            && envelope.Some? && ref != ""
            && ref in {envelope.value.target, envelope.value.integrationHead, envelope.value.mergeCommit, envelope.value.inspectionRunId}
  {
    var envelope := if operation == Materialize then if payload.workItem.Some? then payload.workItem.value.expectedMerge else None
                    else if operation in {BeginMerge, RecordMerge} && role != Reconciler then payload.mergeEnvelope
                    else None;
    if envelope.Some? {
      var refs := [envelope.value.target, envelope.value.integrationHead, envelope.value.mergeCommit, envelope.value.inspectionRunId];
      NonEmptyMembers(refs, ref);
    }
  }

  lemma {:induction false} NonEmptyMembers(refs: seq<string>, ref: string)
    ensures ref in NonEmpty(refs) <==> ref in refs && ref != ""
  {
    if refs != [] {
      NonEmptyMembers(refs[1..], ref);
      assert refs == [refs[0]] + refs[1..];
    }
  }
}
