/** Every operation keeps the invariants, evolves the store and accounts for itself. */
module MemorySteps {
  import opened Records
  import opened Authorization
  import opened Evaluator
  import opened MemoryStore
  import opened MemoryRequests
  import opened MemoryItems
  import opened MemoryInvariant
  import opened MemoryLifecycle
  import opened MemoryProtocol
  import opened MemoryBacklog
  import opened MemoryEvolution

  /** Every event carries a recorded idempotency key, and no two the same. */
  ghost predicate KeysInv(st: Store) {
    && (forall i | 0 <= i < |st.events| :: st.events[i].idempotencyKey in st.idempotency)
    && (forall i, j | 0 <= i < j < |st.events| :: st.events[i].idempotencyKey != st.events[j].idempotencyKey)
  }

  ghost predicate Inv(cfg: Config, st: Store) {
    && LifecycleInv(cfg, st)
    && SubmissionInv(st)
    && SemanticInv(cfg, st)
    && KeysInv(st)
  }

  /** What the answer says about the store: "applied" means one event under this call's
      key; anything else means nothing changed. */
  ghost predicate Accounted(st: Store, next: Store, key: string, result: Result) {
    if result.mutation == MutationApplied then
      && |next.events| == |st.events| + 1
      && next.events[..|st.events|] == st.events
      && next.events[|st.events|].idempotencyKey == key
      && next.idempotency == st.idempotency
    else
      next == st
  }

  /** Lifecycle, protocol and backlog after a step whose key is yet to be recorded. */
  ghost predicate GoodStep(cfg: Config, st: Store, next: Store, key: string, result: Result) {
    && LifecycleInv(cfg, next)
    && SubmissionInv(next)
    && SemanticInv(cfg, next)
    && Evolves(st, next)
    && Accounted(st, next, key, result)
  }

  lemma Unchanged(cfg: Config, st: Store, key: string, result: Result)
    requires Inv(cfg, st) && result.mutation == MutationNone
    ensures GoodStep(cfg, st, st, key, result)
  {
    EvolvesReflexive(st);
  }

  /** Recording the answer under a fresh key keeps everything. */
  lemma RememberKeeps(cfg: Config, st: Store, next: Store, key: string, fingerprint: Fingerprint, result: Result)
    requires Inv(cfg, st) && key !in st.idempotency
    requires GoodStep(cfg, st, next, key, result)
    ensures Inv(cfg, Remember(next, key, fingerprint, result))
    ensures Evolves(st, Remember(next, key, fingerprint, result))
  {
    hide LifecycleInv, SubmissionInv, SemanticInv, Evolves;
    var last := Remember(next, key, fingerprint, result);
    RememberInvariants(cfg, next, key, fingerprint, result);
    RememberEvolves(st, next, key, fingerprint, result);
    assert KeysInv(last);
  }

  lemma RememberInvariants(cfg: Config, next: Store, key: string, fingerprint: Fingerprint, result: Result)
    requires LifecycleInv(cfg, next) && SubmissionInv(next) && SemanticInv(cfg, next)
    ensures var last := Remember(next, key, fingerprint, result);
            LifecycleInv(cfg, last) && SubmissionInv(last) && SemanticInv(cfg, last)
  {
    var last := Remember(next, key, fingerprint, result);
    assert Quiet(next, last) by {
      hide DependencyInv, AuditInv, GateOk, SubmissionInv, SemanticInv, LeaseOk;
    }
    QuietKeeps(cfg, next, last) by {
      hide LifecycleInv, SubmissionInv, SemanticInv;
    }
    ProtocolUntouched(next, last) by {
      hide LifecycleInv, SemanticInv;
    }
    assert SemanticInv(cfg, last) by {
      hide LifecycleInv, SubmissionInv, KeyOf;
    }
  }

  lemma RememberEvolves(st: Store, next: Store, key: string, fingerprint: Fingerprint, result: Result)
    requires Evolves(st, next) && next.idempotency == st.idempotency && key !in st.idempotency
    ensures Evolves(st, Remember(next, key, fingerprint, result))
  {
    hide ItemEvolves, ApprovalEvolves, SubmissionEvolves;
  }

  // ----- lifecycle commands -----

  /** A store that differs in nothing the lifecycle invariants speak of. */
  lemma SameLifecycleKeeps(cfg: Config, st: Store, next: Store)
    requires LifecycleInv(cfg, st)
    requires next.workItems == st.workItems && next.events == st.events && next.nextToken == st.nextToken
    requires next.materializations == st.materializations
    ensures LifecycleInv(cfg, next)
  {
    assert Quiet(st, next) by {
      hide DependencyInv, AuditInv, GateOk, LeaseOk;
    }
    QuietKeeps(cfg, st, next) by {
      hide LifecycleInv;
    }
  }

  /** The store after an allowed command, resolve-block's spending included. */
  function Settled(cfg: Config, st: Store, request: Request, item: WorkItem, decision: Decision, evaluation: EvaluationContext): (r: Store)
    requires decision.after.Some?
    requires request.operation == ResolveBlock ==>
               request.payload.humanApprovalId in st.approvals && request.payload.resolutionSubmission in st.submissions
  {
    var advanced := Advanced(cfg, st, request, item, decision, evaluation);
    if request.operation == ResolveBlock then ResolutionSpent(advanced, request) else advanced
  }

  /** Resolving spends the pending submission and its approval. */
  lemma ResolveKeepsProtocol(
    cfg: Config, st: Store, request: Request, item: WorkItem, evaluation: EvaluationContext, decision: Decision
  )
    requires ItemsInv(cfg, st) && SubmissionInv(st)
    requires Observed(cfg, st, request, item, evaluation)
    requires IsMove(item, request, evaluation, decision) && request.operation == ResolveBlock
    requires evaluation.submissions == SubmissionSnapshot(st) && evaluation.approvals == st.approvals
    ensures request.payload.humanApprovalId in st.approvals && request.payload.resolutionSubmission in st.submissions
    ensures SubmissionInv(Settled(cfg, st, request, item, decision, evaluation))
    ensures ApprovalsEvolve(st, Settled(cfg, st, request, item, decision, evaluation))
    ensures SubmissionsEvolve(st, Settled(cfg, st, request, item, decision, evaluation))
  {
    hide Moved, LegalFrom, Destinations, CandidateRejection, LiveFence, StartsLease, AllCompleted, ItemOk, ResolutionBinding, SubmissionSnapshot,
         Started, LiveDependencies, ApprovalSubject, Effect, Observed, LifecycleEvent, ItemsInv;
    AdvanceIsEffect(cfg, st, request, item, evaluation, decision);
    BindingFacts(st, request, item, evaluation);
    hide IsMove;
    SpentKeeps(st, Advanced(cfg, st, request, item, decision, evaluation), request);
    hide SubmissionInv;
    ResolvedItem(st, request);
  }

  lemma ResolvedItem(st: Store, request: Request)
    requires SubmissionInv(st)
    requires request.payload.resolutionSubmission in st.submissions
    ensures st.submissions[request.payload.resolutionSubmission].id == request.payload.resolutionSubmission
  {
  }

  /** Every other command leaves the protocol alone, and no record leaves blocked by it. */
  lemma MoveKeepsProtocol(
    cfg: Config, st: Store, request: Request, item: WorkItem, evaluation: EvaluationContext, decision: Decision
  )
    requires ItemsInv(cfg, st) && SubmissionInv(st)
    requires Observed(cfg, st, request, item, evaluation)
    requires IsMove(item, request, evaluation, decision) && request.operation != ResolveBlock
    ensures SubmissionInv(Settled(cfg, st, request, item, decision, evaluation))
    ensures ApprovalsEvolve(st, Settled(cfg, st, request, item, decision, evaluation))
    ensures SubmissionsEvolve(st, Settled(cfg, st, request, item, decision, evaluation))
  {
    hide Moved, LegalFrom, Destinations, CandidateRejection, LiveFence, StartsLease, AllCompleted, ItemOk, ResolutionBinding,
         Started, LiveDependencies, ApprovalSubject, LifecycleEvent, Effect, Observed, ItemsInv;
    AdvanceIsEffect(cfg, st, request, item, evaluation, decision);
    var advanced := Advanced(cfg, st, request, item, decision, evaluation);
    if item.state == Blocked {
      LeavingBlocked(request.operation, decision.after.value.state);
    }
    assert item.state != Abandoned;
    hide IsMove;
    assert StaysBlocked(st, advanced);
    ProtocolUntouched(st, advanced);
  }

  lemma MoveIsGood(
    cfg: Config, st: Store, request: Request, item: WorkItem, evaluation: EvaluationContext, decision: Decision
  )
    requires Inv(cfg, st)
    requires Observed(cfg, st, request, item, evaluation)
    requires IsMove(item, request, evaluation, decision) && decision.after.Some?
    requires evaluation.submissions == SubmissionSnapshot(st) && evaluation.approvals == st.approvals
    requires request.operation == ResolveBlock ==>
               request.payload.humanApprovalId in st.approvals && request.payload.resolutionSubmission in st.submissions
    ensures var next := Settled(cfg, st, request, item, decision, evaluation);
            && LifecycleInv(cfg, next) && SubmissionInv(next) && SemanticInv(cfg, next) && Evolves(st, next)
            && next.idempotency == st.idempotency
            && next.events == st.events + [LifecycleEvent(st, request, decision)]
  {
    hide Moved, IsMove, Observed, ItemOk, DependencyInv, AuditInv, TokensInv, MaterializationInv, SubmissionInv, KeyOf,
         SubmissionSnapshot, LifecycleEvent, ItemEvolves, ApprovalEvolves, SubmissionEvolves, KeysInv;
    AdvanceIsEffect(cfg, st, request, item, evaluation, decision);
    if request.operation == ResolveBlock {
      ResolveKeepsProtocol(cfg, st, request, item, evaluation, decision);
    } else {
      MoveKeepsProtocol(cfg, st, request, item, evaluation, decision);
    }
    var moved := Moved(cfg, item, request, decision.after.value, decision.tokenIssued, evaluation);
    var e := LifecycleEvent(st, request, decision);
    var advanced := Advanced(cfg, st, request, item, decision, evaluation);
    var next := Settled(cfg, st, request, item, decision, evaluation);
    UpdateKeeps(cfg, st, advanced, moved, e, decision.tokenIssued);
    SameLifecycleKeeps(cfg, advanced, next);
    UpdatedEvolves(cfg, st, advanced, moved, e, decision.tokenIssued);
    hide Effect, ItemsInv;
    assert ItemsEvolve(st, next);
  }

  lemma NewKeepsLifecycle(cfg: Config, st: Store, request: Request, evaluation: EvaluationContext, decision: Decision)
    requires LifecycleInv(cfg, st)
    requires request.operation == Materialize && request.projectId == cfg.projectId
    requires request.materializationKey !in st.materializations && request.workItemId !in st.workItems
    requires IsNew(request, evaluation, decision)
    requires evaluation.refreshDependencies == Some(LiveDependencies(cfg, st, request.payload.workItem.value))
    ensures LifecycleInv(cfg, Materialized(st, request, decision, evaluation))
    ensures forall id | id in st.workItems ::
              id in Materialized(st, request, decision, evaluation).workItems
              && Materialized(st, request, decision, evaluation).workItems[id] == st.workItems[id]
    ensures forall id | id in Materialized(st, request, decision, evaluation).workItems && id !in st.workItems ::
              Materialized(st, request, decision, evaluation).workItems[id].lease.None?
  {
    hide ItemOk, DependencyInv, AuditInv, TokensInv, MaterializationInv, NewItem, TargetRejection, SourceOf,
         CanonicalSource, Destinations, AllCompleted, LiveDependencies, MaterializeResult, ItemsInv;
    var next := Materialized(st, request, decision, evaluation);
    if decision.outcome == Allowed {
      var item := NewItem(request, decision.after.value, evaluation);
      MaterializeCreates(cfg, st, request, evaluation, decision);
      CreateKeeps(cfg, st, next, item, LifecycleEvent(st, request, decision));
      CreatedUnleased(cfg, st, next, item, LifecycleEvent(st, request, decision));
    } else {
      OmittedIsQuiet(cfg, st, next);
      QuietKeeps(cfg, st, next);
    }
  }

  lemma NewIsGood(cfg: Config, st: Store, request: Request, evaluation: EvaluationContext, decision: Decision)
    requires Inv(cfg, st)
    requires request.operation == Materialize && request.projectId == cfg.projectId
    requires request.materializationKey !in st.materializations && request.workItemId !in st.workItems
    requires IsNew(request, evaluation, decision)
    requires evaluation.refreshDependencies == Some(LiveDependencies(cfg, st, request.payload.workItem.value))
    ensures var next := Materialized(st, request, decision, evaluation);
            && LifecycleInv(cfg, next) && SubmissionInv(next) && SemanticInv(cfg, next) && Evolves(st, next)
            && next.idempotency == st.idempotency
            && next.events == st.events + [LifecycleEvent(st, request, decision)]
  {
    hide LifecycleInv, SubmissionInv, KeyOf, NewItem, TargetRejection, SourceOf, CanonicalSource, ItemEvolves, ApprovalEvolves,
         SubmissionEvolves, KeysInv, Destinations, AllCompleted, LiveDependencies, MaterializeResult, ItemOk, LifecycleEvent;
    var next := Materialized(st, request, decision, evaluation);
    NewKeepsLifecycle(cfg, st, request, evaluation, decision);
    assert next.nextToken == st.nextToken;
    hide IsNew;
    assert StaysBlocked(st, next);
    ProtocolUntouched(st, next);
    EvolvesReflexive(st);
    assert ItemsEvolve(st, next);
  }

  lemma OmittedIsQuiet(cfg: Config, st: Store, next: Store)
    requires ItemsInv(cfg, st)
    requires next.workItems == st.workItems && next.nextToken == st.nextToken
    requires |next.events| == |st.events| + 1 && next.events[..|st.events|] == st.events && Silent(next.events[|st.events|])
    requires forall key | key in st.materializations ::
               key in next.materializations && next.materializations[key] == st.materializations[key]
    ensures Quiet(st, next)
  {
    hide GateOk, LeaseOk;
  }

  /** The evaluation a command is performed on is what the store observes. */
  lemma PerformObserves(cfg: Config, st: Store, now: Time, request: Request, item: WorkItem)
    requires LifecycleInv(cfg, st)
    requires request.operation != Materialize && CurrentItem(st, request) == Some(item)
    ensures Observed(cfg, st, request, item, RefreshedEvaluation(cfg, st, now, request))
  {
    hide ItemOk, SubmissionSnapshot, TokensInv, DependencyInv, AuditInv, MaterializationInv;
  }

  lemma PerformedIsGood(cfg: Config, st: Store, now: Time, request: Request)
    requires Inv(cfg, st)
    requires request.projectId == cfg.projectId
    requires request.operation == Materialize && request.payload.workItem.Some? ==> request.materializationKey !in st.materializations
    ensures GoodStep(cfg, st, Performed(cfg, st, now, request).0, request.idempotencyKey, Performed(cfg, st, now, request).1)
  {
    var current := CurrentItem(st, request);
    var evaluation := RefreshedEvaluation(cfg, st, now, request);
    hide LifecycleInv, SubmissionInv, SemanticInv, KeysInv, Evolves, Evaluate, Moved, IsMove, IsNew, NewItem, SubmissionSnapshot,
         LiveDependencies, ResolutionBinding, Observed;
    var decision := Evaluate(request, current, evaluation);
    AllowedShape(request, current, evaluation);
    EvaluateKeepsAuthority(request, current, evaluation);
    if decision.outcome == Rejected {
      Unchanged(cfg, st, request.idempotencyKey, Performed(cfg, st, now, request).1);
    } else if request.operation == Materialize {
      AllowedIsNew(request, current, evaluation);
      NewIsGood(cfg, st, request, evaluation, decision);
    } else {
      if request.operation == ResolveBlock {
        BindingFacts(st, request, current.value, evaluation);
      }
      AllowedIsMove(current.value, request, evaluation);
      PerformObserves(cfg, st, now, request, current.value);
      MoveIsGood(cfg, st, request, current.value, evaluation, decision);
    }
  }

  /** What turns a lifecycle call away before it is performed is a rejection. */
  lemma TurnedAway(request: Request, current: Option<WorkItem>, evaluation: EvaluationContext)
    ensures !ContextIsValid(request.authorization, request.projectId, request.workItemId, request.payload.changeSetId, evaluation.time) ==>
              Evaluate(request, current, evaluation).outcome == Rejected
    ensures request.operation != Materialize && current.None? ==> Evaluate(request, current, evaluation).outcome == Rejected
    ensures AuthorizeRequest(request, evaluation).Some? ==> Evaluate(request, current, evaluation).outcome == Rejected
  {
    hide AuthorizeRequest, EvaluateNew, EvaluateItem, ContextIsValid;
  }

  /** Every answer that is not a performed command reports no mutation. */
  lemma AnswersReportNothing(cfg: Config, st: Store, now: Time, call: Call, auth: AuthorizationContext)
    ensures var route := RouteOf(cfg, st, now, call, auth);
            !route.Perform? ==> route.result.mutation == MutationNone
  {
    hide Evaluate, Normalize, ContextIsValid, SubmissionSnapshot, BoundMaterialization, FingerprintOf, AuthorizeLifecycle, ReplayRoute;
    if call.payload.LifecyclePayload? {
      var request := Normalize(cfg, st, call, auth, call.payload.payload);
      var base := BaseEvaluation(st, now);
      TurnedAway(request, None, base);
      TurnedAway(request, CurrentItem(st, request), base);
      ReplayReportsNothing(st, request);
    }
  }

  lemma ReplayReportsNothing(st: Store, request: Request)
    ensures ReplayRoute(st, request).Some? ==> ReplayRoute(st, request).value.result.mutation == MutationNone
  {
    hide FingerprintOf, SourceOf, TargetRejection, SourceMergeRejection;
  }

  lemma LifecycleIsGood(cfg: Config, st: Store, now: Time, call: Call, auth: AuthorizationContext)
    requires Inv(cfg, st)
    ensures KeptAndAccounted(cfg, st, ExecuteLifecycle(cfg, st, now, call, auth).0, call.idempotencyKey,
                             ExecuteLifecycle(cfg, st, now, call, auth).1)
  {
    hide Inv, Evolves, Performed, FingerprintOf;
    var route := RouteOf(cfg, st, now, call, auth);
    AnswersReportNothing(cfg, st, now, call, auth);
    hide RouteOf;
    match route
    case Answer(result) =>
      EvolvesReflexive(st);
    case Freeze(request, result) =>
      Unchanged(cfg, st, request.idempotencyKey, result);
      RememberKeeps(cfg, st, st, request.idempotencyKey, FingerprintOf(request), result);
    case Perform(request, _, _) =>
      var (after, result) := Performed(cfg, st, now, request);
      PerformedIsGood(cfg, st, now, request);
      RememberKeeps(cfg, st, after, request.idempotencyKey, FingerprintOf(request), result);
  }

  /** What a call leaves: the invariants, an evolved store, and an account of itself. A key
      already recorded means nothing changes; an answer of "applied" means exactly one new
      event, under this key; any other answer leaves everything but the record of the key. */
  ghost predicate KeptAndAccounted(cfg: Config, st: Store, next: Store, key: string, result: Result) {
    && Inv(cfg, next)
    && Evolves(st, next)
    && (key in st.idempotency ==> next == st)
    && (result.mutation == MutationApplied ==>
          && |next.events| == |st.events| + 1
          && next.events[|st.events|].idempotencyKey == key
          && key in next.idempotency)
    && (result.mutation != MutationApplied ==> next == st.(idempotency := next.idempotency))
    && (forall other | other in next.idempotency && other != key :: other in st.idempotency)
  }

  /** An allowed resolve-block names a stored approval and a stored submission. */
  lemma SpendableResolution(cfg: Config, st: Store, now: Time, request: Request)
    requires request.operation == ResolveBlock
    requires Evaluate(request, CurrentItem(st, request), RefreshedEvaluation(cfg, st, now, request)).outcome != Rejected
    ensures request.payload.humanApprovalId in st.approvals && request.payload.resolutionSubmission in st.submissions
  {
    var current := CurrentItem(st, request);
    var evaluation := RefreshedEvaluation(cfg, st, now, request);
    hide Evaluate, SubmissionSnapshot, LiveDependencies, ResolutionBinding;
    AllowedShape(request, current, evaluation);
    BindingFacts(st, request, current.value, evaluation);
  }
}
