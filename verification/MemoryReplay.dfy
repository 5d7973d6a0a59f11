/** Retrying: a repeated call is answered from the record, and a spent approval stays spent. */
module MemoryReplay {
  import opened Records
  import opened Authorization
  import opened Evaluator
  import opened MemoryStore
  import opened MemoryRequests
  import opened MemoryItems
  import opened MemoryInvariant
  import opened MemoryProtocol
  import opened MemoryBacklog
  import opened MemoryEvolution
  import opened MemorySteps
  import opened MemoryRequestSteps
  import opened MemoryGuarantees
  import opened MemoryRuns
  import Text

  // ----- a retried call -----

  /** Time only ever ends an authorization. */
  lemma AuthorizedLater(
    auth: AuthorizationContext, action: Operation, projectId: string, workItemId: string, changeSetId: string, refs: seq<string>,
    now: Time, later: Time
  )
    requires later != 0 && later < auth.expiresAt
    ensures ContextIsValid(auth, projectId, workItemId, changeSetId, now) ==>
              ContextIsValid(auth, projectId, workItemId, changeSetId, later)
    ensures AuthorizeContext(auth, action, projectId, workItemId, changeSetId, refs, now).None? ==>
              AuthorizeContext(auth, action, projectId, workItemId, changeSetId, refs, later).None?
    ensures AuthorizeLifecycle(auth, action, projectId, workItemId, changeSetId, refs, now).None? ==>
              AuthorizeLifecycle(auth, action, projectId, workItemId, changeSetId, refs, later).None?
  {
  }

  /** The checks before a request call is looked at. */
  ghost predicate Passes(cfg: Config, call: Call, auth: AuthorizationContext, now: Time) {
    && IsRequestMutation(call.operation) && call.idempotencyKey != ""
    && RoleHasWmsOperation(auth.role, call.operation)
    && AuthorizeContext(auth, call.operation, cfg.projectId, call.workItemId, "", ["project:" + cfg.projectId], now).None?
    && (call.policyVersion == "" || call.policyVersion == auth.policyVersion)
  }

  lemma AppliedIsRecorded(cfg: Config, st: Store, now: Time, call: Call, auth: AuthorizationContext)
    requires !KnownLifecycleOperation(call.operation)
    requires Execute(cfg, st, now, call, Some(auth)).1.mutation == MutationApplied
    ensures Passes(cfg, call, auth, now)
    ensures var (next, result) := Execute(cfg, st, now, call, Some(auth));
            call.idempotencyKey in next.idempotency
            && next.idempotency[call.idempotencyKey] == IdempotencyEntry(RequestFingerprintOf(call, auth), result)
  {
    hide AuthorizeContext, MutateRequest, RequestFingerprintOf, ReadAnswer, PreflightAnswer, RoleHasWmsOperation;
  }

  lemma RecordedIsReplayed(cfg: Config, st: Store, now: Time, call: Call, auth: AuthorizationContext)
    requires Passes(cfg, call, auth, now)
    requires call.idempotencyKey in st.idempotency && st.idempotency[call.idempotencyKey].fingerprint == RequestFingerprintOf(call, auth)
    ensures Execute(cfg, st, now, call, Some(auth)) == (st, MarkReplayed(st.idempotency[call.idempotencyKey].result))
  {
    hide AuthorizeContext, RoleHasWmsOperation, MarkReplayed, RequestFingerprintOf, ExecuteRequest, ExecuteLifecycle, PreflightAnswer;
    RecordAnswers(cfg, st, now, call, auth);
  }

  lemma RecordAnswers(cfg: Config, st: Store, now: Time, call: Call, auth: AuthorizationContext)
    requires IsRequestMutation(call.operation) && call.idempotencyKey != ""
    requires call.idempotencyKey in st.idempotency && st.idempotency[call.idempotencyKey].fingerprint == RequestFingerprintOf(call, auth)
    ensures ExecuteRequest(cfg, st, now, call, auth) == (st, MarkReplayed(st.idempotency[call.idempotencyKey].result))
  {
    hide MutateRequest, RequestFingerprintOf, ReadAnswer, MarkReplayed, Remember;
  }

  lemma RequestRetry(cfg: Config, st: Store, after: Store, now: Time, later: Time, call: Call, auth: AuthorizationContext)
    requires later != 0 && later < auth.expiresAt
    requires !KnownLifecycleOperation(call.operation)
    requires Execute(cfg, st, now, call, Some(auth)).1.mutation == MutationApplied
    requires KeysEvolve(Execute(cfg, st, now, call, Some(auth)).0, after)
    ensures Execute(cfg, after, later, call, Some(auth)) == (after, MarkReplayed(Execute(cfg, st, now, call, Some(auth)).1))
  {
    hide AuthorizeContext, Execute, RequestFingerprintOf, RoleHasWmsOperation, MarkReplayed;
    AppliedIsRecorded(cfg, st, now, call, auth);
    AuthorizedLater(auth, call.operation, cfg.projectId, call.workItemId, "", ["project:" + cfg.projectId], now, later);
    RecordedIsReplayed(cfg, after, later, call, auth);
  }

  lemma PerformIsAuthorized(cfg: Config, st: Store, now: Time, call: Call, auth: AuthorizationContext)
    requires RouteOf(cfg, st, now, call, auth).Perform?
    ensures call.payload.LifecyclePayload?
    ensures var request := Normalize(cfg, st, call, auth, call.payload.payload);
            && request.idempotencyKey != ""
            && Authorized(call, request, now)
            && (request.workItemId in st.workItems || request.operation == Materialize)
  {
    hide Normalize, ReplayRoute, Evaluate, AuthorizeLifecycle, ContextIsValid, SubmissionSnapshot, LiveDependencies;
  }

  /** Lifecycle commands add no submission and rebind none to another change set. */
  lemma SameSubmissions(cfg: Config, st: Store, now: Time, request: Request)
    requires Inv(cfg, st)
    ensures Performed(cfg, st, now, request).0.submissions.Keys == st.submissions.Keys
  {
    var current := CurrentItem(st, request);
    var evaluation := RefreshedEvaluation(cfg, st, now, request);
    hide LifecycleInv, SemanticInv, KeysInv, Evaluate, Moved, NewItem, SubmissionSnapshot, LiveDependencies, ResolutionBinding, PendingOk;
    AllowedShape(request, current, evaluation);
    if request.operation == ResolveBlock && Evaluate(request, current, evaluation).outcome != Rejected {
      BindingFacts(st, request, current.value, evaluation);
    }
  }

  /** The call names, without its change set, a submission that has been filed since, for one. */
  ghost predicate Rebound(st: Store, after: Store, call: Call) {
    && KnownLifecycleOperation(call.operation) && call.payload.LifecyclePayload?
    && var id := call.payload.payload.resolutionSubmission;
       && id != NoSubmission && call.payload.payload.changeSetId == ""
       && id !in st.submissions
       && id in after.submissions && after.submissions[id].changeSetId != ""
  }

  /** Only such a call is normalized to another request than before. */
  lemma SameNormalization(cfg: Config, st: Store, after: Store, call: Call, auth: AuthorizationContext)
    requires KnownLifecycleOperation(call.operation) && call.payload.LifecyclePayload? && SubmissionsEvolve(st, after)
    ensures var a, b := Normalize(cfg, st, call, auth, call.payload.payload), Normalize(cfg, after, call, auth, call.payload.payload);
            && (!Rebound(st, after, call) ==> a == b)
            && (Rebound(st, after, call) ==> FingerprintOf(a) != FingerprintOf(b))
            && a.workItemId == b.workItemId
  {
    hide MaterializationKey, LifecycleReferences;
  }

  /** A recorded lifecycle call is answered from the record. */
  lemma RecordedRoute(cfg: Config, st: Store, now: Time, call: Call, auth: AuthorizationContext)
    requires call.payload.LifecyclePayload?
    requires var request := Normalize(cfg, st, call, auth, call.payload.payload);
             && request.idempotencyKey != ""
             && request.idempotencyKey in st.idempotency
             && st.idempotency[request.idempotencyKey].fingerprint == FingerprintOf(request)
             && Authorized(call, request, now)
             && (request.workItemId in st.workItems || request.operation == Materialize)
    ensures RouteOf(cfg, st, now, call, auth) == Answer(MarkReplayed(st.idempotency[call.idempotencyKey].result))
  {
    var request := Normalize(cfg, st, call, auth, call.payload.payload);
    assert ContextIsValid(auth, request.projectId, request.workItemId, request.payload.changeSetId, now) by {
      hide Normalize;
    }
    hide Normalize, Evaluate, AuthorizeLifecycle, ContextIsValid, SubmissionSnapshot, LiveDependencies, FingerprintOf;
  }

  lemma RejectedIsRefused(request: Request, current: Option<WorkItem>, evaluation: EvaluationContext)
    requires evaluation.authority == Authoritative
    ensures !ContextIsValid(request.authorization, request.projectId, request.workItemId, request.payload.changeSetId, evaluation.time)
            || AuthorizeRequest(request, evaluation).Some? ==>
              !ResultOfDecision(request.operation, Evaluate(request, current, evaluation)).ok
    ensures forall rejection: Rejection :: !RefusedDecision(request, rejection).ok
  {
    hide Evaluate, AuthorizeRequest, ContextIsValid;
    TurnedAway(request, current, evaluation);
    EvaluateKeepsAuthority(request, current, evaluation);
  }

  /** Under a key recorded for another request nothing is done, whoever asks. */
  lemma ConflictingRoute(cfg: Config, st: Store, now: Time, call: Call, auth: AuthorizationContext)
    requires call.payload.LifecyclePayload?
    requires var request := Normalize(cfg, st, call, auth, call.payload.payload);
             && request.idempotencyKey in st.idempotency
             && st.idempotency[request.idempotencyKey].fingerprint != FingerprintOf(request)
             && (request.workItemId in st.workItems || request.operation == Materialize)
    ensures var route := RouteOf(cfg, st, now, call, auth); route.Answer? && !route.result.ok
  {
    var request := Normalize(cfg, st, call, auth, call.payload.payload);
    var base, current := BaseEvaluation(st, now), CurrentItem(st, request);
    hide Normalize, Evaluate, AuthorizeLifecycle, ContextIsValid, SubmissionSnapshot, LiveDependencies, FingerprintOf, RefreshedEvaluation,
         BoundMaterialization;
    RejectedIsRefused(request, None, base);
    RejectedIsRefused(request, current, base);
    hide ResultOfDecision;
  }

  lemma LifecycleRetry(cfg: Config, st: Store, after: Store, now: Time, later: Time, call: Call, auth: AuthorizationContext)
    requires later != 0 && later < auth.expiresAt
    requires KnownLifecycleOperation(call.operation)
    requires ExecuteLifecycle(cfg, st, now, call, auth).1.mutation == MutationApplied
    requires Evolves(st, after) && KeysEvolve(ExecuteLifecycle(cfg, st, now, call, auth).0, after)
    ensures !Rebound(st, after, call) ==>
              ExecuteLifecycle(cfg, after, later, call, auth) == (after, MarkReplayed(ExecuteLifecycle(cfg, st, now, call, auth).1))
    ensures Rebound(st, after, call) ==>
              ExecuteLifecycle(cfg, after, later, call, auth).0 == after && !ExecuteLifecycle(cfg, after, later, call, auth).1.ok
  {
    hide Performed, Normalize, RouteOf, AuthorizeLifecycle, FingerprintOf, Evaluate, CurrentItem, RefreshedEvaluation, Rebound,
         SubmissionsEvolve, ApprovalsEvolve;
    AppliedIsAllowed(cfg, st, now, call, auth);
    PerformIsAuthorized(cfg, st, now, call, auth);
    var request := Normalize(cfg, st, call, auth, call.payload.payload);
    SameNormalization(cfg, st, after, call, auth);
    if Rebound(st, after, call) {
      ConflictingRoute(cfg, after, later, call, auth);
    } else {
      AuthorizedLater(auth, request.operation, request.projectId, request.workItemId, request.payload.changeSetId, request.references,
                      now, later);
      RecordedRoute(cfg, after, later, call, auth);
    }
  }

  lemma AppliedIsOk(cfg: Config, st: Store, now: Time, call: Call, gate: Option<AuthorizationContext>)
    requires KnownLifecycleOperation(call.operation) && gate.Some?
    requires Execute(cfg, st, now, call, gate).1.mutation == MutationApplied
    ensures Execute(cfg, st, now, call, gate).1.ok
  {
    hide Normalize, Moved, Advanced, Materialized, NewItem, ResolutionSpent, FingerprintOf, Evaluate, RouteOf, CurrentItem, RefreshedEvaluation,
         Remember;
    AppliedIsAllowed(cfg, st, now, call, gate.value);
    var request := Normalize(cfg, st, call, gate.value, call.payload.payload);
    AllowedShape(request, CurrentItem(st, request), RefreshedEvaluation(cfg, st, now, request));
  }

  /** The retry of an applied call, however much later in the run, while its authorization
      lasts, changes nothing; and it answers with the recorded result marked as replayed if
      and only if the call does not name, without its change set, a submission that was
      filed in between, for a change set. */
  lemma RetriesReplay(cfg: Config, inputs: seq<Input>, m: nat, n: nat, later: Time)
    requires m < n <= |inputs| && inputs[m].Invoke? && inputs[m].gate.Some?
    requires later != 0 && later < inputs[m].gate.value.expiresAt
    requires Execute(cfg, At(cfg, inputs, m), inputs[m].now, inputs[m].call, inputs[m].gate).1.mutation == MutationApplied
    ensures var first := Execute(cfg, At(cfg, inputs, m), inputs[m].now, inputs[m].call, inputs[m].gate);
            var again := Execute(cfg, At(cfg, inputs, n), later, inputs[m].call, inputs[m].gate);
            && again.0 == At(cfg, inputs, n)
            && (again.1 == MarkReplayed(first.1) <==> !Rebound(At(cfg, inputs, m), At(cfg, inputs, n), inputs[m].call))
            && (again.1 != MarkReplayed(first.1) ==> !again.1.ok)
  {
    var now, call, gate := inputs[m].now, inputs[m].call, inputs[m].gate;
    var st, after := At(cfg, inputs, m), At(cfg, inputs, n);
    hide At, Inv, Execute, Rebound, MarkReplayed, Evolves;
    Onward(cfg, inputs, m);
    Between(cfg, inputs, m, n);
    Between(cfg, inputs, m + 1, n);
    Retry(cfg, st, after, now, later, call, gate.value);
  }

  lemma Retry(cfg: Config, st: Store, after: Store, now: Time, later: Time, call: Call, auth: AuthorizationContext)
    requires later != 0 && later < auth.expiresAt
    requires Execute(cfg, st, now, call, Some(auth)).1.mutation == MutationApplied
    requires Evolves(st, after) && Evolves(Execute(cfg, st, now, call, Some(auth)).0, after)
    ensures var first, again := Execute(cfg, st, now, call, Some(auth)), Execute(cfg, after, later, call, Some(auth));
            && again.0 == after
            && (again.1 == MarkReplayed(first.1) <==> !Rebound(st, after, call))
            && (again.1 != MarkReplayed(first.1) ==> !again.1.ok)
  {
    hide Execute, ExecuteLifecycle, Rebound, ItemsEvolve, ApprovalsEvolve, SubmissionsEvolve, KeysEvolve;
    if KnownLifecycleOperation(call.operation) {
      AppliedIsOk(cfg, st, now, call, Some(auth));
      LifecycleExecutes(cfg, st, now, call, auth);
      LifecycleExecutes(cfg, after, later, call, auth);
      LifecycleRetry(cfg, st, after, now, later, call, auth);
    } else {
      NeverRebound(st, after, call);
      RequestRetry(cfg, st, after, now, later, call, auth);
    }
  }

  lemma LifecycleExecutes(cfg: Config, st: Store, now: Time, call: Call, auth: AuthorizationContext)
    requires KnownLifecycleOperation(call.operation)
    ensures Execute(cfg, st, now, call, Some(auth)) == ExecuteLifecycle(cfg, st, now, call, auth)
  {
    hide ExecuteLifecycle, ExecuteRequest, PreflightAnswer, AuthorizeContext, RoleHasWmsOperation;
  }

  lemma NeverRebound(st: Store, after: Store, call: Call)
    requires !KnownLifecycleOperation(call.operation)
    ensures !Rebound(st, after, call)
  {
  }

  /** So the immediate retry always replays. */
  lemma ImmediateRetryReplays(cfg: Config, inputs: seq<Input>, m: nat)
    requires m < |inputs| && inputs[m].Invoke? && inputs[m].gate.Some?
    requires Execute(cfg, At(cfg, inputs, m), inputs[m].now, inputs[m].call, inputs[m].gate).1.mutation == MutationApplied
    ensures !Rebound(At(cfg, inputs, m), At(cfg, inputs, m + 1), inputs[m].call)
  {
    var now, call, gate := inputs[m].now, inputs[m].call, inputs[m].gate;
    var st := At(cfg, inputs, m);
    hide At, Inv, Execute, ExecuteLifecycle, Performed, Normalize, RouteOf, FingerprintOf, Evaluate, CurrentItem, RefreshedEvaluation;
    Onward(cfg, inputs, m);
    Between(cfg, inputs, m, m);
    if KnownLifecycleOperation(call.operation) {
      LifecycleExecutes(cfg, st, now, call, gate.value);
      AppliedIsAllowed(cfg, st, now, call, gate.value);
      SameSubmissions(cfg, st, now, Normalize(cfg, st, call, gate.value, call.payload.payload));
    }
  }

  // ----- approvals -----

  /** The approval a call presents. */
  function Presented(call: Call): (id: string) {
    if call.humanApprovalId != "" then call.humanApprovalId
    else
      match call.payload
      case LifecyclePayload(payload) => payload.humanApprovalId
      case RefinePayload(refinement) => refinement.humanApprovalId
      case _ => ""
  }

  ghost predicate Spends(st: Store, next: Store, id: string) {
    && id in st.approvals && st.approvals[id].status == Unused
    && id in next.approvals && next.approvals[id] == st.approvals[id].(status := Consumed)
  }

  lemma ResolveSpends(cfg: Config, st: Store, now: Time, request: Request)
    requires request.operation == ResolveBlock
    requires Evaluate(request, CurrentItem(st, request), RefreshedEvaluation(cfg, st, now, request)).outcome != Rejected
    ensures Spends(st, Performed(cfg, st, now, request).0, request.payload.humanApprovalId)
  {
    var current := CurrentItem(st, request);
    var evaluation := RefreshedEvaluation(cfg, st, now, request);
    hide Evaluate, Moved, SubmissionSnapshot, LiveDependencies, ResolutionBinding;
    AllowedShape(request, current, evaluation);
    BindingFacts(st, request, current.value, evaluation);
  }

  lemma PresentedIsNormalized(cfg: Config, st: Store, call: Call, auth: AuthorizationContext)
    requires call.payload.LifecyclePayload?
    ensures Normalize(cfg, st, call, auth, call.payload.payload).payload.humanApprovalId == Presented(call)
  {
    hide MaterializationKey, LifecycleReferences;
  }

  lemma RefineSpends(cfg: Config, st: Store, now: Time, call: Call, auth: AuthorizationContext)
    ensures RefineRequest(cfg, st, now, call, auth).1.mutation == MutationApplied ==>
              Spends(st, RefineRequest(cfg, st, now, call, auth).0, Presented(call))
  {
    hide MemoryRequests.Target, RefinementFieldRejection, RelationshipsRejection, Refined, ContentOf, KeyOf;
  }

  lemma AcknowledgeSpends(cfg: Config, st: Store, now: Time, call: Call, auth: AuthorizationContext)
    ensures Acknowledge(cfg, st, now, call, auth).1.mutation == MutationApplied ==>
              Spends(st, Acknowledge(cfg, st, now, call, auth).0, Presented(call))
  {
    hide BlockedTarget, Text.IsBlank;
  }

  /** Every applied command that needs a human approval spends the one it presents; so, an
      approval being spent at most once, each approval authorizes at most one of them. */
  lemma ApprovedCommandsSpend(cfg: Config, st: Store, now: Time, call: Call, auth: AuthorizationContext)
    requires call.operation in {ResolveBlock, RequestRefine, BlockedWorkAcknowledge}
    requires Execute(cfg, st, now, call, Some(auth)).1.mutation == MutationApplied
    ensures Spends(st, Execute(cfg, st, now, call, Some(auth)).0, Presented(call))
  {
    hide RefineRequest, Acknowledge, Performed, Normalize, RouteOf, ExecuteLifecycle, FingerprintOf, RequestFingerprintOf, Evaluate,
         CurrentItem, RefreshedEvaluation, AuthorizeContext, RoleHasWmsOperation, Presented;
    if call.operation == ResolveBlock {
      AppliedIsAllowed(cfg, st, now, call, auth);
      ResolveSpends(cfg, st, now, Normalize(cfg, st, call, auth, call.payload.payload));
      PresentedIsNormalized(cfg, st, call, auth);
    } else {
      RefineSpends(cfg, st, now, call, auth);
      AcknowledgeSpends(cfg, st, now, call, auth);
    }
  }
}
