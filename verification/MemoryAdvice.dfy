/** The advice of a lifecycle preflight is the decision on the command itself. */
module MemoryAdvice {
  import opened Records
  import opened Authorization
  import opened Evaluator
  import opened EvaluatorRules
  import opened Preflighting
  import opened MemoryStore
  import opened MemoryRequests
  import opened MemoryProtocol
  import opened MemorySteps
  import opened MemoryRuns
  import opened MemoryGuarantees
  import opened MemoryReplay
  import opened MemoryCommands

  /** The preflight of a command. */
  predicate IsPreflightOf(pre: Call, call: Call) {
    && call.payload.LifecyclePayload? && pre.operation == LifecyclePreflight
    && pre == call.(operation := LifecyclePreflight, idempotencyKey := pre.idempotencyKey,
                    payload := PreflightPayload(call.operation, call.payload.payload))
  }

  /** A caller may ask for advice on a command under the same terms as for sending one, with the
      preflight granted as an action, in the three roles that plan or do the work. */
  ghost predicate MayAdvise(auth: AuthorizationContext, projectId: string, workItemId: string, changeSetId: string, refs: seq<string>, now: Time) {
    && now != 0 && now < auth.expiresAt && auth.expiresAt != 0
    && auth.subject != "" && auth.policyVersion != ""
    && auth.projectId == projectId != ""
    && (auth.workItemId == "" || auth.workItemId == workItemId) && (auth.changeSetId == "" || auth.changeSetId == changeSetId)
    && (forall action | action in auth.allowedActions :: !IsWildcardAction(action))
    && (forall ref | ref in auth.allowedRefs :: !IsWildcard(ref))
    && LifecyclePreflight in auth.allowedActions && "project:" + projectId in auth.allowedRefs
    && (forall ref | ref in refs :: ref in auth.allowedRefs)
    && auth.role in {DraftingTable, JobSite, Materializer}
  }

  lemma AdvisersExactly(auth: AuthorizationContext, projectId: string, workItemId: string, changeSetId: string, refs: seq<string>, now: Time)
    ensures AuthorizePreflight(auth, projectId, workItemId, changeSetId, refs, now).None? <==>
            MayAdvise(auth, projectId, workItemId, changeSetId, refs, now)
  {
    hide IsWildcard;
  }

  /** The caller may send the command, and ask for the advice. */
  ghost predicate MayAsk(cfg: Config, st: Store, now: Time, call: Call, auth: AuthorizationContext)
    requires call.payload.LifecyclePayload?
  {
    var request := Normalize(cfg, st, call, auth, call.payload.payload);
    && MaySend(request, now) && (call.policyVersion == "" || call.policyVersion == auth.policyVersion)
    && MayAdvise(auth, cfg.projectId, request.workItemId, call.payload.payload.changeSetId, request.references, now)
  }

  /** Neither key of the command is bound yet. */
  ghost predicate Unbound(cfg: Config, st: Store, call: Call, auth: AuthorizationContext)
    requires call.payload.LifecyclePayload?
  {
    && call.idempotencyKey != "" && call.idempotencyKey !in st.idempotency
    && (call.operation == Materialize && call.payload.payload.workItem.Some? ==>
          Normalize(cfg, st, call, auth, call.payload.payload).materializationKey !in st.materializations)
  }

  // ----- one evaluation and the other -----

  /** The two requests differ in their key and in a change set looked up for one of them; the two
      records in the submission that is active; the two contexts show the same evidence, but for
      dependencies of a record that exists already. */
  ghost predicate Alike(
    p: Request, r: Request, pc: Option<WorkItem>, rc: Option<WorkItem>, pe: EvaluationContext, re: EvaluationContext
  ) {
    && p == r.(idempotencyKey := p.idempotencyKey, payload := r.payload.(changeSetId := p.payload.changeSetId))
    && pc.Some? == rc.Some? && (rc.Some? ==> rc.value == pc.value.(activeSubmission := rc.value.activeSubmission))
    && pe.authority == Preflight && re.authority == Authoritative && pe.time == re.time && re.nextToken != NO_TOKEN
    && pe.refreshReadiness == re.refreshReadiness
    && ((r.operation == Materialize && rc.Some?) || pe.refreshDependencies == re.refreshDependencies)
    && AuthorizeRequest(p, pe).None? && AuthorizeRequest(r, re).None?
  }

  lemma AlikeGate(p: Request, r: Request, pc: Option<WorkItem>, rc: Option<WorkItem>, pe: EvaluationContext, re: EvaluationContext)
    requires Alike(p, r, pc, rc, pe, re)
    ensures Gate(p, pc, pe).None? == Gate(r, rc, re).None?
    ensures Gate(p, pc, pe).Some? ==> SameAnswer(Gate(p, pc, pe).value, Gate(r, rc, re).value)
  {
  }

  lemma AlikeDecide(
    p: Request, r: Request, pc: Option<WorkItem>, rc: Option<WorkItem>, pe: EvaluationContext, re: EvaluationContext, before: StateVersion,
    verdict: Verdict
  )
    requires Alike(p, r, pc, rc, pe, re)
    ensures SameAnswer(Decide(p, pe, before, verdict), Decide(r, re, before, verdict))
  {
    hide AuthorizeRequest;
  }

  lemma AlikeMaterialization(p: Request, r: Request, pe: EvaluationContext, re: EvaluationContext)
    requires Alike(p, r, None, None, pe, re)
    ensures EvaluateMaterialization(p, pe) == EvaluateMaterialization(r, re)
  {
    hide AuthorizeRequest, ContractFailure, Blocker, FirstIncomplete, SourceOf, CanonicalSource, SourceMergeRejection;
  }

  lemma AlikeNew(p: Request, r: Request, pc: Option<WorkItem>, rc: Option<WorkItem>, pe: EvaluationContext, re: EvaluationContext)
    requires Alike(p, r, pc, rc, pe, re) && r.operation == Materialize
    ensures SameAnswer(EvaluateNew(p, pc, pe), EvaluateNew(r, rc, re))
  {
    hide AuthorizeRequest, EvaluateMaterialization, Decide;
    if rc.None? {
      AlikeMaterialization(p, r, pe, re);
      AlikeDecide(p, r, pc, rc, pe, re, StateVersion(Initial, 0), EvaluateMaterialization(r, re));
    }
  }

  /** The preview shows the submission the command is bound to. */
  ghost predicate Previews(r: Request, pe: EvaluationContext, re: EvaluationContext) {
    && r.payload.resolutionSubmission in re.submissions
    && var s := re.submissions[r.payload.resolutionSubmission];
       && pe.preview.Some? && pe.preview.value.kind == s.kind && pe.preview.value.changeSetId == s.changeSetId
       && (s.kind == "add-requirement" ==> pe.preview.value.plannedDependencyComplete == s.plannedDependencyComplete)
       && pe.preview.value.inspectorConfirmed == s.inspectorConfirmed
  }

  lemma AlikeVerdict(p: Request, r: Request, pc: WorkItem, rc: WorkItem, pe: EvaluationContext, re: EvaluationContext)
    requires Alike(p, r, Some(pc), Some(rc), pe, re) && r.operation != Materialize
    requires r.operation == ResolveBlock ==> Previews(r, pe, re)
    ensures EvaluateTransition(p, pc, pe) == EvaluateTransition(r, rc, re)
  {
    hide AuthorizeRequest, NotReady, ReadinessFailure, ResolutionPreconditions, EnvelopeMatches, CandidateRejection, ReconciliationIs, RejectionDecision;
    AlikeResolution(p, r, pc, rc, pe, re);
  }

  lemma AlikeResolution(p: Request, r: Request, pc: WorkItem, rc: WorkItem, pe: EvaluationContext, re: EvaluationContext)
    requires Alike(p, r, Some(pc), Some(rc), pe, re)
    requires r.operation == ResolveBlock ==> Previews(r, pe, re)
    ensures r.operation == ResolveBlock ==> ResolutionPreconditions(p, pe) == ResolutionPreconditions(r, re)
    ensures r.operation == BeginMerge ==> CandidateRejection(p, pc) == CandidateRejection(r, rc)
  {
    hide AuthorizeRequest;
  }

  lemma AlikeItem(p: Request, r: Request, pc: WorkItem, rc: WorkItem, pe: EvaluationContext, re: EvaluationContext)
    requires Alike(p, r, Some(pc), Some(rc), pe, re) && r.operation != Materialize
    requires r.operation == ResolveBlock ==> Previews(r, pe, re) && ResolutionBinding(r, rc, re).None?
    ensures SameAnswer(EvaluateItem(p, pc, pe), EvaluateItem(r, rc, re))
  {
    hide AuthorizeRequest, EvaluateTransition, ResolutionBinding, MutationPreconditions, Decide, LegalFrom;
    AlikePreconditions(p, r, pc, rc, pe, re);
    AlikeVerdict(p, r, pc, rc, pe, re);
    AlikeDecide(p, r, Some(pc), Some(rc), pe, re, StateVersion(rc.state, rc.version), EvaluateTransition(r, rc, re));
  }

  lemma AlikePreconditions(p: Request, r: Request, pc: WorkItem, rc: WorkItem, pe: EvaluationContext, re: EvaluationContext)
    requires Alike(p, r, Some(pc), Some(rc), pe, re)
    requires r.operation == ResolveBlock ==> ResolutionBinding(r, rc, re).None?
    ensures MutationPreconditions(p, pc, pe) == MutationPreconditions(r, rc, re)
  {
    hide AuthorizeRequest, ResolutionBinding;
  }

  lemma AlikeDecision(p: Request, r: Request, pc: Option<WorkItem>, rc: Option<WorkItem>, pe: EvaluationContext, re: EvaluationContext)
    requires Alike(p, r, pc, rc, pe, re)
    requires r.operation == ResolveBlock && rc.Some? ==> Previews(r, pe, re) && ResolutionBinding(r, rc.value, re).None?
    ensures SameAnswer(Evaluate(p, pc, pe), Evaluate(r, rc, re))
  {
    hide AuthorizeRequest, EvaluateItem, EvaluateNew, Gate, ResolutionBinding, SameAnswer, Previews;
    AlikeGate(p, r, pc, rc, pe, re);
    if Gate(r, rc, re).None? {
      if r.operation == Materialize {
        AlikeNew(p, r, pc, rc, pe, re);
      } else {
        AlikeItem(p, r, pc.value, rc.value, pe, re);
      }
    }
  }

  // ----- in the store -----

  /** What a preflight evaluates. */
  function Asked(cfg: Config, call: Call, auth: AuthorizationContext): (request: Request)
    requires call.payload.LifecyclePayload?
  {
    var payload := call.payload.payload.(
      humanApprovalId := if call.humanApprovalId != "" then call.humanApprovalId else call.payload.payload.humanApprovalId);
    Request(call.operation, cfg.projectId,
            if call.operation == Materialize && call.workItemId == "" && payload.workItem.Some? then payload.workItem.value.id
            else call.workItemId,
            MaterializationKey(call, payload), "", call.expectedState, call.expectedVersion, call.fencingToken,
            LifecycleReferences(call.operation, auth.role, payload), payload, auth)
  }

  /** The record the advice is about. */
  function Viewed(st: Store, p: Request): (current: Option<WorkItem>) {
    if p.workItemId in st.workItems then Some(st.workItems[p.workItemId]) else None
  }

  /** The submission the preview mirrors: the pending one the record waits for. */
  predicate Mirrors(st: Store, p: Request) {
    var id := p.payload.resolutionSubmission;
    && id != NoSubmission && id in st.submissions && st.submissions[id].workItemId == p.workItemId
    && st.submissions[id].status == Pending && Active(st, p.workItemId) == id
  }

  function Preview(st: Store, p: Request): (preview: ResolutionPreview) {
    var mirrors := Mirrors(st, p);
    var id := p.payload.resolutionSubmission;
    var kind := if mirrors then st.submissions[id].kind else p.payload.resolutionKind;
    var changeSetId := if mirrors then st.submissions[id].changeSetId else p.payload.changeSetId;
    ResolutionPreview(kind, changeSetId, kind == "add-requirement" && PlannedDependencyComplete(st, changeSetId),
                      mirrors && st.submissions[id].inspectorConfirmationId != "")
  }

  /** The evidence it is given on. */
  function Shown(cfg: Config, st: Store, now: Time, p: Request): (e: EvaluationContext) {
    var refreshes := p.workItemId in st.workItems && RefreshesDependencies(p.operation);
    EvaluationContext(
      Preflight, now, NO_TOKEN, map[], map[], Some(Preview(st, p)),
      if refreshes && p.workItemId in st.observedReadiness then Some(st.observedReadiness[p.workItemId]) else None,
      if p.operation == Materialize && p.payload.workItem.Some? then Some(LiveDependencies(cfg, st, p.payload.workItem.value))
      else if refreshes then Some(LiveDependencies(cfg, st, st.workItems[p.workItemId])) else None)
  }

  /** A preflight of a known command by a caller who may ask answers with one evaluation. */
  lemma AdviceOf(cfg: Config, st: Store, now: Time, pre: Call, call: Call, auth: AuthorizationContext)
    requires IsPreflightOf(pre, call) && (call.policyVersion == "" || call.policyVersion == auth.policyVersion)
    ensures var p := Asked(cfg, call, auth);
            && Evaluate(p, Viewed(st, p), Shown(cfg, st, now, p)).authority == Preflight
            && Execute(cfg, st, now, pre, Some(auth)) ==
               (st, ResultOfDecision(LifecyclePreflight, Evaluate(p, Viewed(st, p), Shown(cfg, st, now, p))))
  {
    hide Evaluate, LiveDependencies, LifecycleReferences, PlannedDependencyComplete, AuthorizeLifecycle, AuthorizePreflight,
         ExecuteLifecycle, ExecuteRequest, AuthorizeContext, RoleHasWmsOperation, ResultOfDecision, Active;
    var p := Asked(cfg, call, auth);
    EvaluateKeepsAuthority(p, Viewed(st, p), Shown(cfg, st, now, p));
  }

  /** The decision a fresh command is answered with. */
  lemma DecisionOf(cfg: Config, st: Store, now: Time, call: Call, auth: AuthorizationContext)
    requires KnownLifecycleOperation(call.operation) && call.payload.LifecyclePayload?
    requires Authorized(call, Normalize(cfg, st, call, auth, call.payload.payload), now) && Unbound(cfg, st, call, auth)
    ensures var r := Normalize(cfg, st, call, auth, call.payload.payload);
            Execute(cfg, st, now, call, Some(auth)).1.decision ==
            Some(Evaluate(r, CurrentItem(st, r), RefreshedEvaluation(cfg, st, now, r)))
  {
    hide Evaluate, LiveDependencies, ExecuteRequest, PreflightAnswer, Normalize, FingerprintOf, Performed, RouteOf, AuthorizeContext,
         RoleHasWmsOperation, RefreshedEvaluation, AuthorizeLifecycle, SubmissionSnapshot;
    RouteTaken(cfg, st, now, call, auth);
    var r := Normalize(cfg, st, call, auth, call.payload.payload);
    if RouteOf(cfg, st, now, call, auth).Perform? {
      PerformedDecision(cfg, st, now, r);
    }
  }

  lemma PerformedDecision(cfg: Config, st: Store, now: Time, r: Request)
    ensures Performed(cfg, st, now, r).1.decision == Some(Evaluate(r, CurrentItem(st, r), RefreshedEvaluation(cfg, st, now, r)))
  {
    hide Evaluate, LiveDependencies, RefreshedEvaluation, CurrentItem, Moved, NewItem, Materialized, Advanced, SubmissionSnapshot;
    var e := RefreshedEvaluation(cfg, st, now, r);
    AllowedShape(r, CurrentItem(st, r), e);
    if r.operation == ResolveBlock && Evaluate(r, CurrentItem(st, r), e).outcome != Rejected {
      SpendableResolution(cfg, st, now, r);
    }
  }

  lemma RouteTaken(cfg: Config, st: Store, now: Time, call: Call, auth: AuthorizationContext)
    requires KnownLifecycleOperation(call.operation) && call.payload.LifecyclePayload?
    requires Authorized(call, Normalize(cfg, st, call, auth, call.payload.payload), now) && Unbound(cfg, st, call, auth)
    ensures var r := Normalize(cfg, st, call, auth, call.payload.payload);
            var route := RouteOf(cfg, st, now, call, auth);
            || (route.Perform? && route.request == r)
            || (&& route.Freeze?
                && route.result.decision == Some(Evaluate(r, CurrentItem(st, r), RefreshedEvaluation(cfg, st, now, r))))
  {
    hide Evaluate, LiveDependencies, Normalize, AuthorizeLifecycle, ContextIsValid, SubmissionSnapshot, BoundMaterialization, FingerprintOf;
    var r := Normalize(cfg, st, call, auth, call.payload.payload);
    AuthorizedIsValid(auth, r, now);
    NormalizedItem(cfg, st, call, auth);
    if CurrentItem(st, r).None? && r.operation != Materialize {
      assert RefreshedEvaluation(cfg, st, now, r) == BaseEvaluation(st, now);
    }
  }

  lemma NormalizedItem(cfg: Config, st: Store, call: Call, auth: AuthorizationContext)
    requires call.payload.LifecyclePayload?
    ensures Normalize(cfg, st, call, auth, call.payload.payload).payload.workItem == call.payload.payload.workItem
  {
    hide MaterializationKey, LifecycleReferences;
  }

  lemma AuthorizedIsValid(auth: AuthorizationContext, r: Request, now: Time)
    requires AuthorizeLifecycle(auth, r.operation, r.projectId, r.workItemId, r.payload.changeSetId, r.references, now).None?
    ensures ContextIsValid(auth, r.projectId, r.workItemId, r.payload.changeSetId, now)
  {
  }

  /** The store shows the preflight what it shows the command. */
  lemma StoreIsAlike(cfg: Config, st: Store, now: Time, call: Call, auth: AuthorizationContext)
    requires call.payload.LifecyclePayload?
    requires var r := Normalize(cfg, st, call, auth, call.payload.payload);
             && Authorized(call, r, now)
             && AuthorizePreflight(auth, cfg.projectId, r.workItemId, call.payload.payload.changeSetId, r.references, now).None?
    ensures var p, r := Asked(cfg, call, auth), Normalize(cfg, st, call, auth, call.payload.payload);
            Alike(p, r, Viewed(st, p), CurrentItem(st, r), Shown(cfg, st, now, p), RefreshedEvaluation(cfg, st, now, r))
  {
    hide LiveDependencies, MaterializationKey, LifecycleReferences, PlannedDependencyComplete, AuthorizeLifecycle, AuthorizePreflight,
         SubmissionSnapshot, Preview, Active;
    StoreAsksAlike(cfg, st, call, auth);
    var p, r := Asked(cfg, call, auth), Normalize(cfg, st, call, auth, call.payload.payload);
    hide Normalize, Asked;
    if r.operation != Materialize && CurrentItem(st, r).Some? {
      SameLive(cfg, st, r);
    }
  }

  lemma SameLive(cfg: Config, st: Store, r: Request)
    requires r.operation != Materialize && r.workItemId in st.workItems
    ensures LiveDependencies(cfg, st, CurrentItem(st, r).value) == LiveDependencies(cfg, st, st.workItems[r.workItemId])
  {
  }

  lemma StoreAsksAlike(cfg: Config, st: Store, call: Call, auth: AuthorizationContext)
    requires call.payload.LifecyclePayload?
    ensures var p, r := Asked(cfg, call, auth), Normalize(cfg, st, call, auth, call.payload.payload);
            && p == r.(idempotencyKey := p.idempotencyKey, payload := r.payload.(changeSetId := p.payload.changeSetId))
            && p.payload.changeSetId == call.payload.payload.changeSetId && p.authorization == auth && p.projectId == cfg.projectId
  {
    hide NonEmpty;
  }

  lemma PreviewsBound(cfg: Config, st: Store, now: Time, p: Request, r: Request)
    requires p == r.(idempotencyKey := p.idempotencyKey, payload := r.payload.(changeSetId := p.payload.changeSetId))
    requires r.operation == ResolveBlock && CurrentItem(st, r).Some?
    requires ResolutionBinding(r, CurrentItem(st, r).value, RefreshedEvaluation(cfg, st, now, r)).None?
    ensures Previews(r, Shown(cfg, st, now, p), RefreshedEvaluation(cfg, st, now, r))
  {
    hide LiveDependencies, ValidateApproval, PlannedDependencyComplete;
  }

  /** In every store, asking first tells what the command will be answered: for a caller who may
      send the command and ask for the advice, under keys that are not bound yet, the preflight's
      decision is the command's in outcome, states, reservation and rejection. Resolve-block alone
      may be advised and still be refused, for want of a submission or approval; one that is
      applied was advised. */
  lemma AdviceIsTheDecision(cfg: Config, st: Store, now: Time, pre: Call, call: Call, auth: AuthorizationContext)
    requires KnownLifecycleOperation(call.operation) && IsPreflightOf(pre, call)
    requires MayAsk(cfg, st, now, call, auth) && Unbound(cfg, st, call, auth)
    ensures var (after, advice) := Execute(cfg, st, now, pre, Some(auth));
            var answer := Execute(cfg, st, now, call, Some(auth)).1;
            && after == st && advice.decision.Some? && answer.decision.Some?
            && (call.operation != ResolveBlock || answer.mutation == MutationApplied ==>
                  SameAnswer(advice.decision.value, answer.decision.value))
  {
    hide Execute, Evaluate, MayAsk, Shown, RefreshedEvaluation, Alike, Previews, SameAnswer, ResolutionBinding, Unbound, Normalize, Asked;
    MayAskIsAuthorized(cfg, st, now, call, auth);
    AdviceOf(cfg, st, now, pre, call, auth);
    DecisionOf(cfg, st, now, call, auth);
    StoreIsAlike(cfg, st, now, call, auth);
    StoreAsksAlike(cfg, st, call, auth);
    var p, r := Asked(cfg, call, auth), Normalize(cfg, st, call, auth, call.payload.payload);
    var pe, re := Shown(cfg, st, now, p), RefreshedEvaluation(cfg, st, now, r);
    var current := CurrentItem(st, r);
    if call.operation != ResolveBlock || current.None? {
      AlikeDecision(p, r, Viewed(st, p), current, pe, re);
    } else if Execute(cfg, st, now, call, Some(auth)).1.mutation == MutationApplied {
      AppliedIsAllowed(cfg, st, now, call, auth);
      AllowedShape(r, current, re);
      PreviewsBound(cfg, st, now, p, r);
      AlikeDecision(p, r, Viewed(st, p), current, pe, re);
    }
  }

  lemma MayAskIsAuthorized(cfg: Config, st: Store, now: Time, call: Call, auth: AuthorizationContext)
    requires KnownLifecycleOperation(call.operation) && call.payload.LifecyclePayload? && MayAsk(cfg, st, now, call, auth)
    ensures var r := Normalize(cfg, st, call, auth, call.payload.payload);
            && Authorized(call, r, now) && (call.policyVersion == "" || call.policyVersion == auth.policyVersion)
            && AuthorizePreflight(auth, cfg.projectId, r.workItemId, call.payload.payload.changeSetId, r.references, now).None?
            && RefreshedEvaluation(cfg, st, now, r).authority == Authoritative
  {
    hide AuthorizeLifecycle, AuthorizePreflight, LiveDependencies, SubmissionSnapshot, Normalize, MaySend, MayAdvise;
    var r := Normalize(cfg, st, call, auth, call.payload.payload);
    SendersExactly(r, BaseEvaluation(st, now));
    AdvisersExactly(auth, cfg.projectId, r.workItemId, call.payload.payload.changeSetId, r.references, now);
  }

  lemma AppliedIsAllowed(cfg: Config, st: Store, now: Time, call: Call, auth: AuthorizationContext)
    requires call.operation == ResolveBlock && call.payload.LifecyclePayload?
    requires Execute(cfg, st, now, call, Some(auth)).1.mutation == MutationApplied
    ensures var r := Normalize(cfg, st, call, auth, call.payload.payload);
            Evaluate(r, CurrentItem(st, r), RefreshedEvaluation(cfg, st, now, r)).outcome == Allowed
  {
    hide Evaluate, LiveDependencies, ExecuteRequest, PreflightAnswer, Normalize, FingerprintOf, Performed, RouteOf,
         RefreshedEvaluation, SubmissionSnapshot, CurrentItem;
    AnswersReportNothing(cfg, st, now, call, auth);
    var r := Normalize(cfg, st, call, auth, call.payload.payload);
    if RouteOf(cfg, st, now, call, auth).Perform? {
      PerformedApplies(cfg, st, now, r);
    }
  }

  lemma PerformedApplies(cfg: Config, st: Store, now: Time, r: Request)
    requires r.operation == ResolveBlock && Performed(cfg, st, now, r).1.mutation == MutationApplied
    ensures Evaluate(r, CurrentItem(st, r), RefreshedEvaluation(cfg, st, now, r)).outcome == Allowed
  {
    hide Evaluate, LiveDependencies, RefreshedEvaluation, CurrentItem, Moved, NewItem, Materialized, Advanced, SubmissionSnapshot;
    var e := RefreshedEvaluation(cfg, st, now, r);
    AllowedShape(r, CurrentItem(st, r), e);
    if Evaluate(r, CurrentItem(st, r), e).outcome != Rejected {
      SpendableResolution(cfg, st, now, r);
    }
  }
}
