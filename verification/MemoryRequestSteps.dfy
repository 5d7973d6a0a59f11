/** Requests, blocked work, observations and seeds keep the invariants as the lifecycle
    commands do. */
module MemoryRequestSteps {
  import opened Records
  import opened Authorization
  import opened Evaluator
  import opened MemoryStore
  import opened MemoryRequests
  import opened MemoryItems
  import opened MemoryInvariant
  import opened MemoryProtocol
  import opened MemoryBacklog
  import opened MemoryEvolution
  import opened MemorySteps
  import Text

  /** An applied mutation as the invariants see it, when it moves no work item. */
  ghost predicate Harmless(st: Store, next: Store, key: string) {
    && Quiet(st, next)
    && (forall id | id in st.workItems :: next.workItems[id].changeType == st.workItems[id].changeType)
    && ApprovalsEvolve(st, next)
    && SubmissionsEvolve(st, next)
    && next.idempotency == st.idempotency
    && next.materializations == st.materializations
    && |next.events| == |st.events| + 1
    && next.events[..|st.events|] == st.events
    && next.events[|st.events|].idempotencyKey == key
  }

  lemma HarmlessIsGood(cfg: Config, st: Store, next: Store, key: string, result: Result)
    requires Inv(cfg, st) && Harmless(st, next, key)
    requires SubmissionInv(next) && SemanticInv(cfg, next)
    requires result.mutation == MutationApplied
    ensures GoodStep(cfg, st, next, key, result)
  {
    hide LifecycleInv, SubmissionInv, SemanticInv, KeysInv, ApprovalsEvolve, SubmissionsEvolve;
    QuietEvolves(st, next);
    QuietKeeps(cfg, st, next);
    assert st.events <= next.events;
  }

  /** Records replaced by ones that differ in priority alone, one silent event appended. */
  lemma OneEvent(cfg: Config, st: Store, next: Store, e: AuditEvent)
    requires ItemsInv(cfg, st)
    requires Silent(e) && next.events == st.events + [e]
    requires next.workItems.Keys == st.workItems.Keys
    requires forall id | id in st.workItems :: next.workItems[id] == st.workItems[id].(priority := next.workItems[id].priority)
    requires next.materializations == st.materializations && next.idempotency == st.idempotency && next.nextToken == st.nextToken
    requires ApprovalsEvolve(st, next) && SubmissionsEvolve(st, next)
    ensures Harmless(st, next, e.idempotencyKey)
  {
    hide LeaseOk, ApprovalsEvolve, SubmissionsEvolve, IsCandidate;
    assert next.events[..|st.events|] == st.events;
    forall id | id in st.workItems
      ensures SameLifecycle(st.workItems[id], next.workItems[id]) && GateOk(next.workItems[id])
    {
      assert ItemOk(cfg.projectId, st.workItems[id]);
    }
  }

  lemma CreateIsGood(cfg: Config, st: Store, call: Call, auth: AuthorizationContext)
    requires Inv(cfg, st)
    ensures GoodStep(cfg, st, CreateRequest(cfg, st, call, auth).0, call.idempotencyKey, CreateRequest(cfg, st, call, auth).1)
  {
    hide LifecycleInv, SubmissionInv, SemanticInv, KeysInv, Text.IsBlank, SemanticKeyOf, Text.Trim, Text.SortedUnique, GoodStep, Harmless;
    var (next, result) := CreateRequest(cfg, st, call, auth);
    if result.mutation != MutationApplied {
      Unchanged(cfg, st, call.idempotencyKey, result);
    } else {
      CreateKeepsIndex(cfg, st, call, auth);
      Untouched(cfg, st, next, RequestEvent(call, auth, "", st.nextRequestId + 1, ""));
      HarmlessIsGood(cfg, st, next, call.idempotencyKey, result);
    }
  }

  /** Steps on the backlog alone leave the protocol as it was. */
  lemma Untouched(cfg: Config, st: Store, next: Store, e: AuditEvent)
    requires Inv(cfg, st)
    requires Silent(e) && next.events == st.events + [e]
    requires next.workItems.Keys == st.workItems.Keys
    requires forall id | id in st.workItems :: next.workItems[id] == st.workItems[id].(priority := next.workItems[id].priority)
    requires next.materializations == st.materializations && next.idempotency == st.idempotency && next.nextToken == st.nextToken
    requires SameProtocol(st, next)
    ensures Harmless(st, next, e.idempotencyKey)
    ensures SubmissionInv(next)
  {
    hide SubmissionInv, SemanticInv, KeysInv, ItemsInv, DependencyInv, AuditInv, TokensInv, MaterializationInv, Harmless;
    OneEvent(cfg, st, next, e);
    ProtocolUntouched(st, next);
  }

  lemma RefineIsGood(cfg: Config, st: Store, now: Time, call: Call, auth: AuthorizationContext)
    requires Inv(cfg, st)
    ensures GoodStep(cfg, st, RefineRequest(cfg, st, now, call, auth).0, call.idempotencyKey, RefineRequest(cfg, st, now, call, auth).1)
  {
    hide SubmissionInv, SemanticInv, KeysInv, ItemsInv, DependencyInv, AuditInv, TokensInv, MaterializationInv, Harmless, GoodStep,
         MemoryRequests.Target, RefinementFieldRejection, RelationshipsRejection, Refined, ContentOf, KeyOf, ApprovalsEvolve, SubmissionsEvolve;
    var (next, result) := RefineRequest(cfg, st, now, call, auth);
    if result.mutation != MutationApplied {
      Unchanged(cfg, st, call.idempotencyKey, result);
    } else {
      RefineKeepsIndex(cfg, st, now, call, auth);
      RefineKeepsProtocol(cfg, st, now, call, auth);
      FreshIds(st);
      SpendingEvolves(st, next, RefineApprovalId(call, call.payload.refinement), Resolution(st.nextResolutionId + 1));
      var e := next.events[|st.events|];
      assert Silent(e) && e.idempotencyKey == call.idempotencyKey;
      OneEvent(cfg, st, next, e);
      HarmlessIsGood(cfg, st, next, call.idempotencyKey, result);
    }
  }

  lemma PriorityIsGood(cfg: Config, st: Store, call: Call, auth: AuthorizationContext)
    requires Inv(cfg, st)
    ensures GoodStep(cfg, st, UpdatePriority(st, call, auth).0, call.idempotencyKey, UpdatePriority(st, call, auth).1)
  {
    hide SubmissionInv, SemanticInv, KeysInv, DependencyInv, AuditInv, TokensInv, MaterializationInv, Harmless, GoodStep,
         MemoryRequests.Target, ItemOk;
    var (next, result) := UpdatePriority(st, call, auth);
    if result.mutation != MutationApplied {
      Unchanged(cfg, st, call.idempotencyKey, result);
    } else {
      PriorityKeepsIndex(cfg, st, call, auth);
      var e := next.events[|st.events|];
      assert Silent(e) && e.idempotencyKey == call.idempotencyKey;
      Untouched(cfg, st, next, e);
      HarmlessIsGood(cfg, st, next, call.idempotencyKey, result);
    }
  }

  lemma ChangeSetLinkIsGood(cfg: Config, st: Store, call: Call, auth: AuthorizationContext)
    requires Inv(cfg, st)
    ensures GoodStep(cfg, st, LinkChangeSet(st, call, auth).0, call.idempotencyKey, LinkChangeSet(st, call, auth).1)
  {
    hide SubmissionInv, SemanticInv, KeysInv, LifecycleInv, Harmless, GoodStep, MemoryRequests.Target;
    var (next, result) := LinkChangeSet(st, call, auth);
    if result.mutation != MutationApplied {
      Unchanged(cfg, st, call.idempotencyKey, result);
    } else {
      LinksKeepIndex(cfg, st, call, auth);
      var e := next.events[|st.events|];
      assert Silent(e) && e.idempotencyKey == call.idempotencyKey;
      Untouched(cfg, st, next, e);
      HarmlessIsGood(cfg, st, next, call.idempotencyKey, result);
    }
  }

  lemma WorkItemLinkIsGood(cfg: Config, st: Store, call: Call, auth: AuthorizationContext)
    requires Inv(cfg, st)
    ensures GoodStep(cfg, st, LinkWorkItem(st, call, auth).0, call.idempotencyKey, LinkWorkItem(st, call, auth).1)
  {
    hide SubmissionInv, SemanticInv, KeysInv, DependencyInv, AuditInv, TokensInv, MaterializationInv, Harmless, GoodStep,
         MemoryRequests.Target, ItemOk;
    var (next, result) := LinkWorkItem(st, call, auth);
    if result.mutation != MutationApplied {
      Unchanged(cfg, st, call.idempotencyKey, result);
    } else {
      LinksKeepIndex(cfg, st, call, auth);
      var e := next.events[|st.events|];
      assert Silent(e) && e.idempotencyKey == call.idempotencyKey;
      Untouched(cfg, st, next, e);
      HarmlessIsGood(cfg, st, next, call.idempotencyKey, result);
    }
  }

  /** A replaced submission is settled once, and its approval revoked only while unused. */
  lemma SupersedeEvolves(st: Store, w: string, approvalId: string)
    requires SubmissionInv(st)
    ensures ApprovalsEvolve(st, Supersede(st, w, approvalId))
    ensures SubmissionsEvolve(st, Supersede(st, w, approvalId))
  {
    var prior := Active(st, w);
    if prior in st.submissions && st.submissions[prior].status == Pending {
      assert PendingOk(st, st.submissions[prior]);
    }
  }

  /** Adding one submission under a fresh id after superseding. */
  lemma AddedEvolves(st: Store, cleared: Store, next: Store, id: SubmissionId)
    requires ApprovalsEvolve(st, cleared) && SubmissionsEvolve(st, cleared)
    requires id !in st.submissions && id in next.submissions
    requires next.submissions == cleared.submissions[id := next.submissions[id]]
    requires next.approvals == cleared.approvals
    ensures ApprovalsEvolve(st, next) && SubmissionsEvolve(st, next)
  {
    hide ApprovalEvolves, SubmissionEvolves;
  }

  lemma OwnIds(cfg: Config, st: Store)
    requires ItemsInv(cfg, st)
    ensures forall id | id in st.workItems :: st.workItems[id].id == id
  {
    hide ItemOk;
  }

  lemma FreshIds(st: Store)
    requires SubmissionInv(st)
    ensures Resolution(st.nextResolutionId + 1) !in st.submissions
    ensures Acknowledgement(st.nextAcknowledgementId + 1) !in st.submissions
  {
    hide PendingOk;
  }

  lemma SubmitIsGood(cfg: Config, st: Store, now: Time, call: Call, auth: AuthorizationContext)
    requires Inv(cfg, st)
    ensures GoodStep(cfg, st, SubmitResolution(cfg, st, now, call, auth).0, call.idempotencyKey, SubmitResolution(cfg, st, now, call, auth).1)
  {
    hide SemanticInv, KeysInv, ItemsInv, DependencyInv, AuditInv, TokensInv, MaterializationInv, SubmissionInv, Harmless, GoodStep,
         SubmitRejection, PlannedDependencyComplete, Revision, KeyOf, ApprovalsEvolve, SubmissionsEvolve, Supersede, RequestEvent;
    var (next, result) := SubmitResolution(cfg, st, now, call, auth);
    if result.mutation != MutationApplied {
      Unchanged(cfg, st, call.idempotencyKey, result);
    } else {
      SupersedeEvolves(st, call.workItemId, call.humanApprovalId);
      OwnIds(cfg, st);
      SubmitKeeps(cfg, st, now, call, auth);
      SubmitShape(cfg, st, now, call, auth);
      hide SubmitResolution;
      FreshIds(st);
      AddedEvolves(st, Supersede(st, call.workItemId, call.humanApprovalId), next, Resolution(st.nextResolutionId + 1));
      SameIndex(cfg, st, next);
      OneEvent(cfg, st, next, next.events[|st.events|]);
      HarmlessIsGood(cfg, st, next, call.idempotencyKey, result);
    }
  }

  lemma SameIndex(cfg: Config, st: Store, next: Store)
    requires SemanticInv(cfg, st)
    requires next.requests == st.requests && next.semanticRequests == st.semanticRequests && next.nextRequestId == st.nextRequestId
    ensures SemanticInv(cfg, next)
  {
    hide KeyOf;
  }

  /** What an accepted submission changes. */
  lemma SubmitShape(cfg: Config, st: Store, now: Time, call: Call, auth: AuthorizationContext)
    requires ItemsInv(cfg, st)
    requires SubmitResolution(cfg, st, now, call, auth).1.mutation == MutationApplied
    ensures var next := SubmitResolution(cfg, st, now, call, auth).0;
            var cleared := Supersede(st, call.workItemId, call.humanApprovalId);
            var id := Resolution(st.nextResolutionId + 1);
            && id in next.submissions
            && next.submissions == cleared.submissions[id := next.submissions[id]]
            && next.approvals == cleared.approvals
            && next.workItems == st.workItems && next.requests == st.requests
            && next.semanticRequests == st.semanticRequests && next.nextRequestId == st.nextRequestId
            && next.materializations == st.materializations && next.idempotency == st.idempotency && next.nextToken == st.nextToken
            && |next.events| == |st.events| + 1
            && next.events == st.events + [next.events[|st.events|]]
            && Silent(next.events[|st.events|]) && next.events[|st.events|].idempotencyKey == call.idempotencyKey
  {
    hide SubmitRejection, ItemOk, PlannedDependencyComplete, Revision;
  }

  /** Spending one unused approval, and perhaps adding a settled submission. */
  lemma SpendingEvolves(st: Store, next: Store, approvalId: string, id: SubmissionId)
    requires approvalId in st.approvals && st.approvals[approvalId].status == Unused
    requires next.approvals == st.approvals[approvalId := st.approvals[approvalId].(status := Consumed)]
    requires id !in st.submissions
    requires next.submissions == st.submissions || (id in next.submissions && next.submissions == st.submissions[id := next.submissions[id]])
    ensures ApprovalsEvolve(st, next) && SubmissionsEvolve(st, next)
  {
  }

  lemma AcknowledgeIsGood(cfg: Config, st: Store, now: Time, call: Call, auth: AuthorizationContext)
    requires Inv(cfg, st)
    ensures GoodStep(cfg, st, Acknowledge(cfg, st, now, call, auth).0, call.idempotencyKey, Acknowledge(cfg, st, now, call, auth).1)
  {
    hide SemanticInv, KeysInv, ItemsInv, DependencyInv, AuditInv, TokensInv, MaterializationInv, SubmissionInv, Harmless, GoodStep,
         BlockedTarget, Text.IsBlank, ApprovalsEvolve, SubmissionsEvolve;
    var (next, result) := Acknowledge(cfg, st, now, call, auth);
    if result.mutation != MutationApplied {
      Unchanged(cfg, st, call.idempotencyKey, result);
    } else {
      AcknowledgeKeeps(cfg, st, now, call, auth);
      FreshIds(st);
      SpendingEvolves(st, next, call.humanApprovalId, Acknowledgement(st.nextAcknowledgementId + 1));
      SameIndex(cfg, st, next);
      var e := next.events[|st.events|];
      assert Silent(e) && e.idempotencyKey == call.idempotencyKey;
      OneEvent(cfg, st, next, e);
      HarmlessIsGood(cfg, st, next, call.idempotencyKey, result);
    }
  }

  lemma MutationIsGood(cfg: Config, st: Store, now: Time, call: Call, auth: AuthorizationContext)
    requires Inv(cfg, st) && IsRequestMutation(call.operation)
    ensures GoodStep(cfg, st, MutateRequest(cfg, st, now, call, auth).0, call.idempotencyKey, MutateRequest(cfg, st, now, call, auth).1)
  {
    hide Inv, GoodStep, CreateRequest, RefineRequest, UpdatePriority, LinkChangeSet, LinkWorkItem, SubmitResolution, Acknowledge;
    CreateIsGood(cfg, st, call, auth);
    RefineIsGood(cfg, st, now, call, auth);
    PriorityIsGood(cfg, st, call, auth);
    ChangeSetLinkIsGood(cfg, st, call, auth);
    WorkItemLinkIsGood(cfg, st, call, auth);
    SubmitIsGood(cfg, st, now, call, auth);
    AcknowledgeIsGood(cfg, st, now, call, auth);
  }

  /** An answer that touches nothing. */
  lemma AnswerIsGood(cfg: Config, st: Store, key: string, result: Result)
    requires Inv(cfg, st) && result.mutation == MutationNone
    ensures KeptAndAccounted(cfg, st, st, key, result)
  {
    EvolvesReflexive(st);
    hide Inv, Evolves;
  }

  /** A fresh key recorded after a good step. */
  lemma RecordedIsGood(cfg: Config, st: Store, next: Store, key: string, fingerprint: Fingerprint, result: Result)
    requires Inv(cfg, st) && key !in st.idempotency
    requires GoodStep(cfg, st, next, key, result)
    ensures KeptAndAccounted(cfg, st, Remember(next, key, fingerprint, result), key, result)
  {
    RememberKeeps(cfg, st, next, key, fingerprint, result);
    hide Inv, Evolves, LifecycleInv, SubmissionInv, SemanticInv;
  }

  lemma RequestIsGood(cfg: Config, st: Store, now: Time, call: Call, auth: AuthorizationContext)
    requires Inv(cfg, st)
    ensures KeptAndAccounted(cfg, st, ExecuteRequest(cfg, st, now, call, auth).0, call.idempotencyKey,
                             ExecuteRequest(cfg, st, now, call, auth).1)
  {
    hide Inv, GoodStep, KeptAndAccounted, MutateRequest, RequestFingerprintOf, ReadAnswer, Remember;
    var (next, result) := ExecuteRequest(cfg, st, now, call, auth);
    if IsRequestMutation(call.operation) && call.idempotencyKey != "" && call.idempotencyKey !in st.idempotency {
      MutationIsGood(cfg, st, now, call, auth);
      var (after, _) := MutateRequest(cfg, st, now, call, auth);
      RecordedIsGood(cfg, st, after, call.idempotencyKey, RequestFingerprintOf(call, auth), result);
    } else {
      AnswerIsGood(cfg, st, call.idempotencyKey, result);
    }
  }

  /** One call, whatever it asks for and whoever asks. */
  lemma ExecuteIsGood(cfg: Config, st: Store, now: Time, call: Call, gate: Option<AuthorizationContext>)
    requires Inv(cfg, st)
    ensures KeptAndAccounted(cfg, st, Execute(cfg, st, now, call, gate).0, call.idempotencyKey, Execute(cfg, st, now, call, gate).1)
  {
    hide Inv, KeptAndAccounted, ExecuteLifecycle, ExecuteRequest, PreflightAnswer, RoleHasWmsOperation, AuthorizeContext;
    var (next, result) := Execute(cfg, st, now, call, gate);
    if gate.Some? {
      LifecycleIsGood(cfg, st, now, call, gate.value);
      RequestIsGood(cfg, st, now, call, gate.value);
    }
    if next == st && result.mutation == MutationNone {
      AnswerIsGood(cfg, st, call.idempotencyKey, result);
    }
  }
}
