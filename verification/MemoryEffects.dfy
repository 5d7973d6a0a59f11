/** What each request operation that is applied does to the backlog, and that it does nothing
    else, in every store a run can reach. */
module MemoryEffects {
  import opened Records
  import opened Authorization
  import opened Evaluator
  import opened MemoryStore
  import opened MemoryRequests
  import opened MemoryItems
  import opened MemoryInvariant
  import opened MemoryProtocol
  import opened MemoryBacklog
  import opened MemorySteps
  import opened MemoryRuns
  import Text

  // ----- every record is stored under its own id -----

  ghost predicate Keyed(st: Store) {
    forall id | id in st.changeSets :: id != "" && st.changeSets[id].id == id
  }

  lemma {:induction false} EveryRunIsKeyed(cfg: Config, inputs: seq<Input>)
    ensures Keyed(Reached(cfg, inputs))
  {
    hide Step;
    if inputs != [] {
      hide Keyed;
      EveryRunIsKeyed(cfg, inputs[..|inputs| - 1]);
      StepIsKeyed(cfg, Reached(cfg, inputs[..|inputs| - 1]), inputs[|inputs| - 1]);
    }
  }

  lemma StepIsKeyed(cfg: Config, st: Store, input: Input)
    requires Keyed(st)
    ensures Keyed(Step(cfg, st, input))
  {
    hide Execute, ObserveConfirmation, ObserveInspection, ObserveReconciliation, ObserveReadiness;
    match input
    case Invoke(now, call, gate) => ExecuteIsKeyed(cfg, st, now, call, gate);
    case ConfirmationObserved(id, confirmationId) => ObservationsKeep(st, id, confirmationId);
    case ReadinessObserved(id, readiness) =>
      assert ObserveReadiness(st, id, readiness).changeSets == st.changeSets by {
        KeepsReadiness(st, id, readiness);
      }
    case InspectionObserved(id, evidence) => KeepsInspection(st, id, evidence);
    case ReconciliationObserved(id, evidence) => KeepsReconciliation(st, id, evidence);
    case ChangeSetSeeded(_) =>
    case ApprovalSeeded(_, _) =>
  }

  lemma ObservationsKeep(st: Store, id: SubmissionId, confirmationId: string)
    ensures ObserveConfirmation(st, id, confirmationId).changeSets == st.changeSets
  {
    hide Text.IsBlank;
  }

  lemma KeepsReadiness(st: Store, id: string, readiness: Readiness)
    ensures ObserveReadiness(st, id, readiness).changeSets == st.changeSets
  {
    hide Text.IsBlank;
  }

  lemma KeepsInspection(st: Store, id: string, evidence: InspectionEvidence)
    ensures ObserveInspection(st, id, evidence).changeSets == st.changeSets
  {
    hide Text.IsBlank;
  }

  lemma KeepsReconciliation(st: Store, id: string, evidence: Reconciliation)
    ensures ObserveReconciliation(st, id, evidence).changeSets == st.changeSets
  {
    hide Text.IsBlank;
  }

  lemma LifecycleKeeps(cfg: Config, st: Store, now: Time, call: Call, auth: AuthorizationContext)
    ensures ExecuteLifecycle(cfg, st, now, call, auth).0.changeSets == st.changeSets
  {
    hide RouteOf, Performed, FingerprintOf;
    match RouteOf(cfg, st, now, call, auth)
    case Perform(request, _, _) => PerformedKeeps(cfg, st, now, request);
    case _ =>
  }

  lemma PerformedKeeps(cfg: Config, st: Store, now: Time, request: Request)
    ensures Performed(cfg, st, now, request).0.changeSets == st.changeSets
  {
    hide Evaluate, Moved, MaterializeResult, CurrentItem, RefreshedEvaluation, Advanced, Materialized, ResolutionSpent, ResultOfDecision;
    var current := CurrentItem(st, request);
    var evaluation := RefreshedEvaluation(cfg, st, now, request);
    var decision := Evaluate(request, current, evaluation);
    AllowedShape(request, current, evaluation);
    if decision.outcome != Rejected {
      if request.operation == Materialize {
        MaterializedKeeps(st, request, decision, evaluation);
      } else {
        AdvancedKeeps(cfg, st, request, current.value, decision, evaluation);
      }
    }
  }

  lemma MaterializedKeeps(st: Store, request: Request, decision: Decision, evaluation: EvaluationContext)
    requires request.payload.workItem.Some? && decision.reservation.Some?
    requires decision.outcome == Allowed ==> decision.after.Some?
    ensures Materialized(st, request, decision, evaluation).changeSets == st.changeSets
  {
    hide NewItem, MaterializeResult, LifecycleEvent;
  }

  lemma AdvancedKeeps(cfg: Config, st: Store, request: Request, item: WorkItem, decision: Decision, evaluation: EvaluationContext)
    requires decision.after.Some?
    ensures var next := Advanced(cfg, st, request, item, decision, evaluation);
            next.changeSets == st.changeSets
  {
    hide Moved, LifecycleEvent;
  }

  lemma RequestKeeps(cfg: Config, st: Store, now: Time, call: Call, auth: AuthorizationContext)
    requires Keyed(st)
    ensures Keyed(ExecuteRequest(cfg, st, now, call, auth).0)
  {
    hide RequestFingerprintOf, ReadAnswer, CreateRequest, RefineRequest, UpdatePriority, LinkChangeSet, LinkWorkItem, SubmitResolution, Acknowledge;
    if IsRequestMutation(call.operation) {
      MutationsKeep(cfg, st, now, call, auth);
    }
  }

  lemma MutationsKeep(cfg: Config, st: Store, now: Time, call: Call, auth: AuthorizationContext)
    requires Keyed(st)
    ensures CreateRequest(cfg, st, call, auth).0.changeSets == st.changeSets
    ensures RefineRequest(cfg, st, now, call, auth).0.changeSets == st.changeSets
    ensures Keyed(UpdatePriority(st, call, auth).0) && Keyed(LinkChangeSet(st, call, auth).0)
    ensures LinkWorkItem(st, call, auth).0.changeSets == st.changeSets
    ensures SubmitResolution(cfg, st, now, call, auth).0.changeSets == st.changeSets
    ensures Acknowledge(cfg, st, now, call, auth).0.changeSets == st.changeSets
  {
    hide CreateRequest, RefineRequest, UpdatePriority, LinkChangeSet, LinkWorkItem, SubmitResolution, Acknowledge, Keyed;
    CreateKeeps(cfg, st, call, auth);
    RefineKeeps(cfg, st, now, call, auth);
    PriorityKeeps(st, call, auth);
    ChangeSetLinkKeeps(st, call, auth);
    WorkItemLinkKeeps(st, call, auth);
    SubmissionKeeps(cfg, st, now, call, auth);
    AcknowledgementKeeps(cfg, st, now, call, auth);
  }

  lemma CreateKeeps(cfg: Config, st: Store, call: Call, auth: AuthorizationContext)
    ensures CreateRequest(cfg, st, call, auth).0.changeSets == st.changeSets
  {
    hide Text.IsBlank, SemanticKeyOf, RequestApplied, Text.Trim, Text.SortedUnique;
  }

  lemma RefineKeeps(cfg: Config, st: Store, now: Time, call: Call, auth: AuthorizationContext)
    ensures RefineRequest(cfg, st, now, call, auth).0.changeSets == st.changeSets
  {
    hide KeyOf, RelationshipsRejection, Refined, ContentOf, RefinementFieldRejection, ValidateApproval, RequestApplied, MemoryRequests.Target;
  }

  lemma PriorityKeeps(st: Store, call: Call, auth: AuthorizationContext)
    requires Keyed(st)
    ensures Keyed(UpdatePriority(st, call, auth).0)
  {
    hide ValidPriority, PriorityApplied, MemoryRequests.Target, RequestEvent;
  }

  lemma ChangeSetLinkKeeps(st: Store, call: Call, auth: AuthorizationContext)
    requires Keyed(st)
    ensures Keyed(LinkChangeSet(st, call, auth).0)
  {
    hide RequestApplied, MemoryRequests.Target, RequestEvent, RefusedResult;
  }

  lemma WorkItemLinkKeeps(st: Store, call: Call, auth: AuthorizationContext)
    ensures LinkWorkItem(st, call, auth).0.changeSets == st.changeSets
  {
    hide RequestApplied, MemoryRequests.Target, RequestEvent, RefusedResult;
  }

  lemma SubmissionKeeps(cfg: Config, st: Store, now: Time, call: Call, auth: AuthorizationContext)
    ensures SubmitResolution(cfg, st, now, call, auth).0.changeSets == st.changeSets
  {
    hide SubmitRejection, Supersede, Filed, PlannedDependencyComplete, AppliedResult;
  }

  lemma AcknowledgementKeeps(cfg: Config, st: Store, now: Time, call: Call, auth: AuthorizationContext)
    ensures Acknowledge(cfg, st, now, call, auth).0.changeSets == st.changeSets
  {
    hide Text.IsBlank, BlockedTarget, ValidateApproval, RequestEvent, AppliedResult, ApprovalRefused, RefusedResult;
  }

  lemma ExecuteIsKeyed(cfg: Config, st: Store, now: Time, call: Call, gate: Option<AuthorizationContext>)
    requires Keyed(st)
    ensures Keyed(Execute(cfg, st, now, call, gate).0)
  {
    hide ExecuteLifecycle, ExecuteRequest, PreflightAnswer, AuthorizeContext, RoleHasWmsOperation;
    if gate.Some? {
      LifecycleKeeps(cfg, st, now, call, gate.value);
      RequestKeeps(cfg, st, now, call, gate.value);
    }
  }

  // ----- the effects -----

  /** An applied request mutation ran under a fresh key, as its handler says. */
  lemma AppliedMutation(cfg: Config, st: Store, now: Time, call: Call, auth: AuthorizationContext)
    requires IsRequestMutation(call.operation) && Execute(cfg, st, now, call, Some(auth)).1.mutation == MutationApplied
    ensures var (after, result) := MutateRequest(cfg, st, now, call, auth);
            && call.idempotencyKey !in st.idempotency && result.mutation == MutationApplied
            && Execute(cfg, st, now, call, Some(auth)) ==
               (Remember(after, call.idempotencyKey, RequestFingerprintOf(call, auth), result), result)
  {
    hide MutateRequest, RequestFingerprintOf, Remember, ExecuteLifecycle, PreflightAnswer, AuthorizeContext, RoleHasWmsOperation;
    AppliedRequest(cfg, st, now, call, auth);
    hide ExecuteRequest;
  }

  lemma AppliedRequest(cfg: Config, st: Store, now: Time, call: Call, auth: AuthorizationContext)
    requires IsRequestMutation(call.operation) && ExecuteRequest(cfg, st, now, call, auth).1.mutation == MutationApplied
    ensures var (after, result) := MutateRequest(cfg, st, now, call, auth);
            && call.idempotencyKey !in st.idempotency && result.mutation == MutationApplied
            && ExecuteRequest(cfg, st, now, call, auth) ==
               (Remember(after, call.idempotencyKey, RequestFingerprintOf(call, auth), result), result)
  {
    hide MutateRequest, RequestFingerprintOf, Remember;
  }

  /** One request is one revision on, at the revision the call expected, and is the answer; no
      other request is touched. */
  ghost predicate OneRevisionOn(st: Store, next: Store, call: Call, result: Result) {
    && call.requestId in st.requests && call.requestId in next.requests
    && next.requests == st.requests[call.requestId := next.requests[call.requestId]]
    && call.expectedRequestRevision == Some(st.requests[call.requestId].revision)
    && next.requests[call.requestId].revision == st.requests[call.requestId].revision + 1
    && result.request == Some(next.requests[call.requestId]) && result.requestRevision == next.requests[call.requestId].revision
  }

  /** Change sets and records change in nothing but the priority of the ones named, and
      nothing else but the log and the key of the call is touched. */
  ghost predicate OnlyPriorities(st: Store, next: Store, priority: string, changeSets: set<string>, workItems: set<string>) {
    && next == st.(requests := next.requests, changeSets := next.changeSets, workItems := next.workItems, events := next.events,
                   idempotency := next.idempotency)
    && |next.events| == |st.events| + 1 && st.events <= next.events
    && next.changeSets.Keys == st.changeSets.Keys && next.workItems.Keys == st.workItems.Keys
    && (forall c | c in st.changeSets ::
          next.changeSets[c] == if c in changeSets then st.changeSets[c].(businessPriority := priority) else st.changeSets[c])
    && (forall w | w in st.workItems ::
          next.workItems[w] == if w in workItems then st.workItems[w].(priority := priority) else st.workItems[w])
  }

  ghost predicate Named(st: Store) {
    && Keyed(st)
    && (forall w | w in st.workItems :: st.workItems[w].id == w)
    && (forall r | r in st.requests :: st.requests[r].id == r)
  }

  lemma EveryRunIsNamed(cfg: Config, inputs: seq<Input>)
    ensures Named(Reached(cfg, inputs))
  {
    EveryRunKeeps(cfg, inputs) by {
      hide Inv;
    }
    EveryRunIsKeyed(cfg, inputs) by {
      hide Keyed;
    }
    hide Reached, Keyed, SubmissionInv, KeysInv, DependencyInv, AuditInv, TokensInv, MaterializationInv, KeyOf;
  }

  /** The priority of a request is set on it, on its change set and on its record. */
  ghost predicate PrioritySet(st: Store, next: Store, call: Call, result: Result) {
    && OneRevisionOn(st, next, call, result) && call.payload.PriorityPayload?
    && var was, now, priority := st.requests[call.requestId], next.requests[call.requestId], call.payload.businessPriority;
       && ValidPriority(priority) && now == was.(businessPriority := priority, revision := now.revision)
       && (now.changeSetId != "" ==> now.changeSetId in next.changeSets && next.changeSets[now.changeSetId].businessPriority == priority)
       && (now.buildWorkItemId != "" ==> now.buildWorkItemId in next.workItems && next.workItems[now.buildWorkItemId].priority == priority)
       && OnlyPriorities(st, next, priority, {now.changeSetId} - {""}, {now.buildWorkItemId} - {""})
  }

  /** The request names a change set that is open for work, and any priority it has is that of
      the change set too. */
  ghost predicate ChangeSetLinked(st: Store, next: Store, call: Call, result: Result) {
    && OneRevisionOn(st, next, call, result) && call.payload.ChangeSetLinkPayload?
    && var was, now, id := st.requests[call.requestId], next.requests[call.requestId], call.payload.changeSetId;
       && was.changeSetId != id && now == was.(changeSetId := id, revision := now.revision)
       && id in next.changeSets && next.changeSets[id].revision in {"proposed", "approved"}
       && (now.businessPriority != "" ==> next.changeSets[id].businessPriority == now.businessPriority)
       && OnlyPriorities(st, next, now.businessPriority, if now.businessPriority != "" then {id} else {}, {})
  }

  /** The request names the record, and any priority it has is that of the record too. */
  ghost predicate WorkItemLinked(st: Store, next: Store, call: Call, result: Result) {
    && OneRevisionOn(st, next, call, result) && call.payload.WorkItemLinkPayload?
    && var was, now, id := st.requests[call.requestId], next.requests[call.requestId], call.payload.buildWorkItemId;
       && was.buildWorkItemId != id && now == was.(buildWorkItemId := id, revision := now.revision)
       && id in next.workItems
       && (now.businessPriority != "" ==> next.workItems[id].priority == now.businessPriority)
       && OnlyPriorities(st, next, now.businessPriority, {}, if now.businessPriority != "" then {id} else {})
  }

  /** A new request, under a number never used, of content no stored request has, in canonical
      form, unrefined and linked to nothing; nothing else is touched. */
  ghost predicate RequestMade(cfg: Config, st: Store, next: Store, call: Call, auth: AuthorizationContext, result: Result) {
    && call.payload.CreatePayload?
    && var p, id := call.payload, result.requestId;
       && id !in st.requests && (forall r | r in st.requests :: r < id) && id in next.requests
       && next.requests == st.requests[id := next.requests[id]]
       && result.request == Some(next.requests[id])
       && var made := next.requests[id];
          && made.id == id && AsAsked(made, call, auth)
          && KeyOf(cfg, made) == SemanticKeyOf(cfg, p.intent, p.interfaces, p.scopes)
          && (forall r | r in st.requests :: KeyOf(cfg, st.requests[r]) != KeyOf(cfg, made))
          && next == st.(nextRequestId := id, requests := next.requests, semanticRequests := st.semanticRequests[KeyOf(cfg, made) := id],
                         events := next.events, idempotency := next.idempotency)
  }

  /** The approval a step spends, and no other change to approvals. */
  ghost predicate ApprovalSpent(st: Store, next: Store, id: string) {
    && id in st.approvals && st.approvals[id].status == Unused
    && next.approvals == st.approvals[id := st.approvals[id].(status := Consumed)]
  }

  /** Every field the refinement names is replaced, texts trimmed and lists in normal form; the
      rest is kept. */
  predicate RefinedTo(was: RequestRecord, p: Refinement, now: RequestRecord) {
    && now.intent == (if p.intent == "" then was.intent else Text.Trim(p.intent))
    && now.rationale == (if p.rationale == "" then was.rationale else Text.Trim(p.rationale))
    && now.owner == (if p.owner == "" then was.owner else p.owner)
    && (match p.interfaces case None => now.interfaces == was.interfaces case Some(ids) => now.interfaces == Text.SortedUnique(ids))
    && (match p.scopes case None => now.scopes == was.scopes case Some(ids) => now.scopes == Text.SortedUnique(ids))
    && (match p.relationships case None => now.relationships == was.relationships case Some(all) => now.relationships == all)
    && now.classification == (if p.classification == "" then was.classification else p.classification)
    && now.refinementState == p.refinementState
    && now.id == was.id && now.createdBy == was.createdBy && now.businessPriority == was.businessPriority
    && now.changeSetId == was.changeSetId && now.buildWorkItemId == was.buildWorkItemId
  }

  /** The request has the refined content, which is exactly what its approval was given for and
      what no other request has; the approval is spent; nothing else is touched. */
  ghost predicate RequestRefined(cfg: Config, st: Store, next: Store, call: Call, result: Result) {
    && OneRevisionOn(st, next, call, result) && call.payload.RefinePayload?
    && var p, id := call.payload.refinement, RefineApprovalId(call, call.payload.refinement);
       var was, now := st.requests[call.requestId], next.requests[call.requestId];
       && RefinedTo(was, p, now)
       && ApprovalSpent(st, next, id) && ContentOf(now) == st.approvals[id].digest
       && (forall r | r in st.requests && r != call.requestId :: KeyOf(cfg, st.requests[r]) != KeyOf(cfg, now))
       && next.semanticRequests == (st.semanticRequests - {KeyOf(cfg, was)})[KeyOf(cfg, now) := call.requestId]
       && next == st.(requests := next.requests, semanticRequests := next.semanticRequests, approvals := next.approvals,
                      events := next.events, idempotency := next.idempotency)
  }

  /** A new submission, pending; the one that was active is superseded, and no other changes. */
  ghost predicate SubmissionReplaced(st: Store, next: Store, workItemId: string, id: SubmissionId) {
    && id !in st.submissions && next.submissions.Keys == st.submissions.Keys + {id}
    && next.submissions[id].status == Pending && next.submissions[id].workItemId == workItemId
    && next.activeSubmissions == st.activeSubmissions[workItemId := id]
    && (forall s | s in st.submissions ::
          next.submissions[s] ==
          if s != NoSubmission && s == Active(st, workItemId) then st.submissions[s].(status := Superseded) else st.submissions[s])
  }

  /** The approval of the superseded submission is revoked unless it is presented again. */
  ghost predicate ApprovalReplaced(st: Store, next: Store, workItemId: string, presented: string) {
    && presented in st.approvals && st.approvals[presented].status == Unused
    && next.approvals.Keys == st.approvals.Keys
    && (forall a | a in st.approvals ::
          next.approvals[a] ==
          if a != presented && Active(st, workItemId) != NoSubmission && Active(st, workItemId) in st.submissions
             && a == st.submissions[Active(st, workItemId)].approvalId
          then st.approvals[a].(status := Revoked) else st.approvals[a])
  }

  /** A new submission is pending and active for a blocked record; the one it replaces is
      superseded, and its approval revoked unless it is presented again; nothing else is
      touched. */
  ghost predicate ResolutionFiled(st: Store, next: Store, call: Call, result: Result) {
    && call.payload.BlockedResolutionPayload? && call.workItemId in st.workItems && st.workItems[call.workItemId].state == Blocked
    && SubmissionReplaced(st, next, call.workItemId, result.submissionId)
    && ApprovalReplaced(st, next, call.workItemId, call.humanApprovalId)
    && next == st.(submissions := next.submissions, activeSubmissions := next.activeSubmissions, approvals := next.approvals,
                   resolutionRevisions := next.resolutionRevisions, nextResolutionId := next.nextResolutionId,
                   events := next.events, idempotency := next.idempotency)
    && var filed := next.submissions[result.submissionId];
       && filed.approvalId == call.humanApprovalId && filed.approvalDigest == call.payload.approvalDigest
       && filed.kind == call.payload.resolutionKind && filed.changeSetId == call.payload.changeSetId
       && filed.inspectorConfirmationId == ""
  }

  /** The acknowledgement of a blocked record is kept, its approval spent, and the record and
      all else left as they are. */
  ghost predicate BlockAcknowledged(st: Store, next: Store, call: Call, result: Result) {
    && call.workItemId in st.workItems && st.workItems[call.workItemId].state == Blocked
    && ApprovalSpent(st, next, call.humanApprovalId)
    && next == st.(submissions := next.submissions, approvals := next.approvals, nextAcknowledgementId := next.nextAcknowledgementId,
                   events := next.events, idempotency := next.idempotency)
    && var id := result.submissionId;
       && id !in st.submissions && id in next.submissions && next.submissions == st.submissions[id := next.submissions[id]]
       && next.submissions[id].status == SubmissionConsumed && next.submissions[id].workItemId == call.workItemId
       && next.submissions[id].approvalId == call.humanApprovalId && next.submissions[id].inspectorConfirmationId == ""
  }

  /** What an applied request operation does, in every reachable store. */
  lemma RequestEffect(cfg: Config, inputs: seq<Input>, now: Time, call: Call, auth: AuthorizationContext)
    requires IsRequestMutation(call.operation)
    requires Execute(cfg, Reached(cfg, inputs), now, call, Some(auth)).1.mutation == MutationApplied
    ensures var st := Reached(cfg, inputs);
            var (next, result) := Execute(cfg, st, now, call, Some(auth));
            match call.operation
            case RequestCreate => RequestMade(cfg, st, next, call, auth, result)
            case RequestUpdatePriority => PrioritySet(st, next, call, result)
            case RequestLinkChangeSet => ChangeSetLinked(st, next, call, result)
            case RequestLinkBuildWorkItem => WorkItemLinked(st, next, call, result)
            case RequestRefine => RequestRefined(cfg, st, next, call, result)
            case BlockedWorkSubmitResolution => ResolutionFiled(st, next, call, result)
            case BlockedWorkAcknowledge => BlockAcknowledged(st, next, call, result)
  {
    var st := Reached(cfg, inputs);
    hide Reached, Execute, CreateRequest, UpdatePriority, LinkChangeSet, LinkWorkItem, RequestFingerprintOf, Named, RequestMade, PrioritySet,
         ChangeSetLinked, WorkItemLinked, Inv, SemanticInv, Remember, RefineRequest, SubmitResolution, Acknowledge, RequestRefined,
         ResolutionFiled, BlockAcknowledged, SubmissionInv;
    EveryRunIsNamed(cfg, inputs);
    EveryRunKeeps(cfg, inputs);
    IndexIsKept(cfg, st);
    AppliedMutation(cfg, st, now, call, auth);
    var key, fingerprint := call.idempotencyKey, RequestFingerprintOf(call, auth);
    match call.operation
    case RequestCreate => MakesRequest(cfg, st, call, auth, key, fingerprint);
    case RequestUpdatePriority => SetsPriority(st, call, auth, key, fingerprint);
    case RequestLinkChangeSet => LinksChangeSet(st, call, auth, key, fingerprint);
    case RequestLinkBuildWorkItem => LinksWorkItem(st, call, auth, key, fingerprint);
    case RequestRefine => RefinesRequest(cfg, st, now, call, auth, key, fingerprint);
    case BlockedWorkSubmitResolution => FilesResolution(cfg, st, now, call, auth, key, fingerprint);
    case BlockedWorkAcknowledge => AcknowledgesBlock(cfg, st, now, call, auth, key, fingerprint);
  }

  /** An applied refinement passed every check. */
  lemma RefinementPassed(cfg: Config, st: Store, now: Time, call: Call, auth: AuthorizationContext)
    requires RefineRequest(cfg, st, now, call, auth).1.mutation == MutationApplied
    ensures call.requestId in st.requests && !StaleRevision(call, st.requests[call.requestId]) && call.payload.RefinePayload?
    ensures var p, id := call.payload.refinement, RefineApprovalId(call, call.payload.refinement);
            var refined := Refined(st.requests[call.requestId], p);
            && id in st.approvals && st.approvals[id].status == Unused && ContentOf(refined) == st.approvals[id].digest
            && (KeyOf(cfg, refined) in st.semanticRequests ==> st.semanticRequests[KeyOf(cfg, refined)] == refined.id)
            && RefineRequest(cfg, st, now, call, auth) == WithRefinement(cfg, st, call, auth, id, refined)
  {
    hide RelationshipsRejection, RefinementFieldRejection, Refined, ContentOf, KeyOf, WithRefinement;
    if call.requestId in st.requests && call.payload.RefinePayload? && RefineApprovalId(call, call.payload.refinement) in st.approvals {
      RefinementWrites(cfg, st, call, auth, RefineApprovalId(call, call.payload.refinement));
    }
  }

  lemma RefinementWrites(cfg: Config, st: Store, call: Call, auth: AuthorizationContext, id: string)
    requires call.requestId in st.requests && call.payload.RefinePayload? && id in st.approvals
    ensures WithRefinement(cfg, st, call, auth, id, Refined(st.requests[call.requestId], call.payload.refinement)).1.mutation == MutationApplied
  {
    hide Refined, KeyOf, RequestEvent;
  }

  lemma RefinesTo(was: RequestRecord, p: Refinement)
    ensures forall revision: nat :: RefinedTo(was, p, Refined(was, p).(revision := revision))
    ensures forall revision: nat :: ContentOf(Refined(was, p).(revision := revision)) == ContentOf(Refined(was, p))
  {
  }

  lemma RefinesRequest(
    cfg: Config, st: Store, now: Time, call: Call, auth: AuthorizationContext, key: string, fingerprint: Fingerprint
  )
    requires SemanticInv(cfg, st) && Named(st) && RefineRequest(cfg, st, now, call, auth).1.mutation == MutationApplied
    ensures var (after, result) := RefineRequest(cfg, st, now, call, auth);
            RequestRefined(cfg, st, Remember(after, key, fingerprint, result), call, result)
  {
    hide RefineRequest, Refined, RequestEvent, Keyed, SemanticKeyOf, RefinedTo;
    RefinementPassed(cfg, st, now, call, auth);
    RefinesTo(st.requests[call.requestId], call.payload.refinement);
  }

  lemma FilesResolution(
    cfg: Config, st: Store, now: Time, call: Call, auth: AuthorizationContext, key: string, fingerprint: Fingerprint
  )
    requires SubmissionInv(st) && Named(st) && SubmitResolution(cfg, st, now, call, auth).1.mutation == MutationApplied
    ensures var (after, result) := SubmitResolution(cfg, st, now, call, auth);
            ResolutionFiled(st, Remember(after, key, fingerprint, result), call, result)
  {
    hide SubmitRejection, SubmissionReplaced, ApprovalReplaced, SubmissionInv, Keyed, PlannedDependencyComplete, RequestEvent, Supersede, Filed;
    assert SubmitRejection(cfg, st, now, call, auth).None?;
    Replaces(st, call, auth, key, fingerprint);
  }

  lemma Replaces(st: Store, call: Call, auth: AuthorizationContext, key: string, fingerprint: Fingerprint)
    requires SubmissionInv(st) && call.workItemId in st.workItems && st.workItems[call.workItemId].id == call.workItemId
    requires call.payload.BlockedResolutionPayload?
    requires call.humanApprovalId in st.approvals && st.approvals[call.humanApprovalId].status == Unused
    ensures var (after, result) := WithSubmission(st, call, auth);
            var next := Remember(after, key, fingerprint, result);
            && SubmissionReplaced(st, next, call.workItemId, result.submissionId)
            && ApprovalReplaced(st, next, call.workItemId, call.humanApprovalId)
            && next == st.(submissions := next.submissions, activeSubmissions := next.activeSubmissions, approvals := next.approvals,
                           resolutionRevisions := next.resolutionRevisions, nextResolutionId := next.nextResolutionId,
                           events := next.events, idempotency := next.idempotency)
            && var filed := next.submissions[result.submissionId];
               && filed.approvalId == call.humanApprovalId && filed.approvalDigest == call.payload.approvalDigest
               && filed.kind == call.payload.resolutionKind && filed.changeSetId == call.payload.changeSetId
               && filed.inspectorConfirmationId == ""
  {
    hide WithSubmission, Supersede, PendingOk, Filed, ApprovalReplaced, Active;
    assert Resolution(st.nextResolutionId + 1) !in st.submissions;
    Supersedes(st, call.workItemId, call.humanApprovalId);
    hide SubmissionInv;
    SubmissionOf(st, call, auth);
    var subject := st.approvals[call.humanApprovalId].approvedSubject;
    FiledAdds(Supersede(st, call.workItemId, call.humanApprovalId), call, auth, call.workItemId, subject);
    SameApprovals(st, Supersede(st, call.workItemId, call.humanApprovalId),
                  Remember(WithSubmission(st, call, auth).0, key, fingerprint, WithSubmission(st, call, auth).1), call);
  }

  lemma SameApprovals(st: Store, cleared: Store, next: Store, call: Call)
    requires ApprovalReplaced(st, cleared, call.workItemId, call.humanApprovalId) && next.approvals == cleared.approvals
    ensures ApprovalReplaced(st, next, call.workItemId, call.humanApprovalId)
  {
    hide Active;
  }

  lemma SubmissionOf(st: Store, call: Call, auth: AuthorizationContext)
    requires call.workItemId in st.workItems && st.workItems[call.workItemId].id == call.workItemId
    requires call.payload.BlockedResolutionPayload? && call.humanApprovalId in st.approvals
    ensures WithSubmission(st, call, auth).0 ==
            Filed(Supersede(st, call.workItemId, call.humanApprovalId), call, auth, call.workItemId,
                  st.approvals[call.humanApprovalId].approvedSubject)
    ensures WithSubmission(st, call, auth).1.submissionId == Resolution(st.nextResolutionId + 1)
  {
    hide Filed, Supersede, PlannedDependencyComplete, Active;
  }

  lemma FiledAdds(st: Store, call: Call, auth: AuthorizationContext, workItemId: string, subject: string)
    requires call.payload.BlockedResolutionPayload?
    ensures var next, id := Filed(st, call, auth, workItemId, subject), Resolution(st.nextResolutionId + 1);
            && id in next.submissions && next.submissions == st.submissions[id := next.submissions[id]]
            && next.activeSubmissions == st.activeSubmissions[workItemId := id]
            && next.submissions[id].status == Pending && next.submissions[id].workItemId == workItemId
            && next.submissions[id].approvalId == call.humanApprovalId && next.submissions[id].approvalDigest == call.payload.approvalDigest
            && next.submissions[id].kind == call.payload.resolutionKind && next.submissions[id].changeSetId == call.payload.changeSetId
            && next.submissions[id].inspectorConfirmationId == ""
  {
    hide RequestEvent;
  }

  lemma Supersedes(st: Store, workItemId: string, presented: string)
    requires SubmissionInv(st) && presented in st.approvals && st.approvals[presented].status == Unused
    ensures var next := Supersede(st, workItemId, presented);
            && next.submissions.Keys == st.submissions.Keys
            && (forall s | s in st.submissions ::
                  next.submissions[s] ==
                  if s != NoSubmission && s == Active(st, workItemId) then st.submissions[s].(status := Superseded) else st.submissions[s])
            && ApprovalReplaced(st, next, workItemId, presented)
  {
    var prior := Active(st, workItemId);
    assert prior != NoSubmission ==> prior in st.submissions && st.submissions[prior].status == Pending;
    assert prior != NoSubmission ==> PendingOk(st, st.submissions[prior]);
  }

  lemma AcknowledgesBlock(
    cfg: Config, st: Store, now: Time, call: Call, auth: AuthorizationContext, key: string, fingerprint: Fingerprint
  )
    requires SubmissionInv(st) && Named(st) && Acknowledge(cfg, st, now, call, auth).1.mutation == MutationApplied
    ensures var (after, result) := Acknowledge(cfg, st, now, call, auth);
            BlockAcknowledged(st, Remember(after, key, fingerprint, result), call, result)
  {
    hide Text.IsBlank, RequestEvent, Keyed, PendingOk;
    assert Acknowledgement(st.nextAcknowledgementId + 1) !in st.submissions;
  }

  lemma IndexIsKept(cfg: Config, st: Store)
    requires Inv(cfg, st)
    ensures SemanticInv(cfg, st) && SubmissionInv(st)
  {
    hide LifecycleInv, SubmissionInv, KeysInv, SemanticInv;
  }

  lemma MakesRequest(cfg: Config, st: Store, call: Call, auth: AuthorizationContext, key: string, fingerprint: Fingerprint)
    requires SemanticInv(cfg, st) && CreateRequest(cfg, st, call, auth).1.mutation == MutationApplied
    ensures var (after, result) := CreateRequest(cfg, st, call, auth);
            RequestMade(cfg, st, Remember(after, key, fingerprint, result), call, auth, result)
  {
    var p := call.payload;
    hide Text.IsBlank, SemanticKeyOf, Text.Trim, Text.SortedUnique, RequestEvent;
    StoredKey(cfg, p.intent, p.interfaces, p.scopes);
    IndexIsScan(cfg, st, SemanticKeyOf(cfg, p.intent, p.interfaces, p.scopes));
  }

  lemma SetsPriority(st: Store, call: Call, auth: AuthorizationContext, key: string, fingerprint: Fingerprint)
    requires Named(st) && UpdatePriority(st, call, auth).1.mutation == MutationApplied
    ensures var (after, result) := UpdatePriority(st, call, auth);
            PrioritySet(st, Remember(after, key, fingerprint, result), call, result)
  {
    hide ValidPriority, RequestEvent;
  }

  lemma LinksChangeSet(st: Store, call: Call, auth: AuthorizationContext, key: string, fingerprint: Fingerprint)
    requires Named(st) && LinkChangeSet(st, call, auth).1.mutation == MutationApplied
    ensures var (after, result) := LinkChangeSet(st, call, auth);
            ChangeSetLinked(st, Remember(after, key, fingerprint, result), call, result)
  {
    hide RequestEvent;
  }

  lemma LinksWorkItem(st: Store, call: Call, auth: AuthorizationContext, key: string, fingerprint: Fingerprint)
    requires Named(st) && LinkWorkItem(st, call, auth).1.mutation == MutationApplied
    ensures var (after, result) := LinkWorkItem(st, call, auth);
            WorkItemLinked(st, Remember(after, key, fingerprint, result), call, result)
  {
    hide RequestEvent;
  }
}
