/** The approval and submission protocol of blocked work. */
module MemoryProtocol {
  import opened Records
  import opened Authorization
  import opened Evaluator
  import opened MemoryStore
  import opened MemoryRequests
  import opened MemoryItems
  import opened MemoryInvariant
  import Text

  /** A pending submission is the active one of a blocked (or since abandoned) record, and
      its approval is unused and bound to that record and to resolve-block alone. */
  ghost predicate PendingOk(st: Store, s: Submission) {
    && s.id.Resolution?
    && Active(st, s.workItemId) == s.id
    && s.workItemId in st.workItems
    && st.workItems[s.workItemId].state in {Blocked, Abandoned}
    && s.approvalId in st.approvals
    && st.approvals[s.approvalId].status == Unused
    && st.approvals[s.approvalId].workItemId == s.workItemId
    && st.approvals[s.approvalId].action == ResolveBlock
  }

  ghost predicate SubmissionInv(st: Store) {
    && (forall id | id in st.submissions ::
          && st.submissions[id].id == id
          && (id.Resolution? ==> id.n <= st.nextResolutionId)
          && (id.Acknowledgement? ==> id.n <= st.nextAcknowledgementId)
          && (st.submissions[id].status == Pending ==> PendingOk(st, st.submissions[id])))
    && (forall w | w in st.activeSubmissions && st.activeSubmissions[w] != NoSubmission ::
          && st.activeSubmissions[w] in st.submissions
          && st.submissions[st.activeSubmissions[w]].status == Pending
          && st.submissions[st.activeSubmissions[w]].workItemId == w)
  }

  /** No two pending submissions speak for the same record, or carry the same approval. */
  lemma PendingIsUnique(st: Store, a: SubmissionId, b: SubmissionId)
    requires SubmissionInv(st)
    requires a in st.submissions && st.submissions[a].status == Pending
    requires b in st.submissions && st.submissions[b].status == Pending
    requires st.submissions[a].workItemId == st.submissions[b].workItemId || st.submissions[a].approvalId == st.submissions[b].approvalId
    ensures a == b
  {
    assert PendingOk(st, st.submissions[a]) && PendingOk(st, st.submissions[b]);
  }

  // ----- lifecycle -----

  /** The parts of a store the protocol speaks of. */
  predicate SameProtocol(st: Store, next: Store) {
    && next.submissions == st.submissions
    && next.activeSubmissions == st.activeSubmissions
    && next.approvals == st.approvals
    && next.nextResolutionId == st.nextResolutionId
    && next.nextAcknowledgementId == st.nextAcknowledgementId
  }

  /** No record leaves blocked or abandoned. */
  ghost predicate StaysBlocked(st: Store, next: Store) {
    forall w | w in st.workItems && st.workItems[w].state in {Blocked, Abandoned} ::
      w in next.workItems && next.workItems[w].state in {Blocked, Abandoned}
  }

  lemma ProtocolUntouched(st: Store, next: Store)
    requires SubmissionInv(st) && SameProtocol(st, next) && StaysBlocked(st, next)
    ensures SubmissionInv(next)
  {
    forall id | id in next.submissions && next.submissions[id].status == Pending
      ensures PendingOk(next, next.submissions[id])
    {
      assert PendingOk(st, st.submissions[id]);
    }
  }

  /** Blocked records are only ever resolved or abandoned. */
  lemma LeavingBlocked(operation: Operation, to: State)
    requires TransitionAllowed(operation, Blocked) && to in Destinations(operation, Blocked)
    ensures operation == ResolveBlock || (operation == Abandon && to == Abandoned)
  {
  }

  /** What the binding of a resolve-block establishes. */
  lemma BindingFacts(st: Store, request: Request, item: WorkItem, evaluation: EvaluationContext)
    requires evaluation.submissions == SubmissionSnapshot(st) && evaluation.approvals == st.approvals
    requires ResolutionBinding(request, item, evaluation).None?
    ensures var id := request.payload.resolutionSubmission;
            && id != NoSubmission && id == item.activeSubmission && id in st.submissions
            && st.submissions[id].status == Pending
            && st.submissions[id].workItemId == request.workItemId
            && st.submissions[id].approvalId == request.payload.humanApprovalId
            && request.payload.humanApprovalId in st.approvals
            && st.approvals[request.payload.humanApprovalId].status == Unused
            && st.approvals[request.payload.humanApprovalId].action == ResolveBlock
  {
    hide Unauthorized;
  }

  /** Spending a bound resolution leaves no trace of the pending submission. */
  lemma SpentKeeps(st: Store, next: Store, request: Request)
    requires SubmissionInv(st)
    requires request.payload.resolutionSubmission in st.submissions && request.payload.humanApprovalId in st.approvals
    requires st.submissions[request.payload.resolutionSubmission].status == Pending
    requires st.submissions[request.payload.resolutionSubmission].workItemId == request.workItemId
    requires st.submissions[request.payload.resolutionSubmission].approvalId == request.payload.humanApprovalId
    requires SameProtocol(st, next)
    requires forall w | w in st.workItems && w != request.workItemId && st.workItems[w].state in {Blocked, Abandoned} ::
               w in next.workItems && next.workItems[w].state in {Blocked, Abandoned}
    ensures SubmissionInv(ResolutionSpent(next, request))
  {
    var spent := ResolutionSpent(next, request);
    var resolved := request.payload.resolutionSubmission;
    forall id | id in spent.submissions && spent.submissions[id].status == Pending
      ensures PendingOk(spent, spent.submissions[id])
    {
      assert id != resolved;
      assert PendingOk(st, st.submissions[id]);
      if st.submissions[id].workItemId == request.workItemId || st.submissions[id].approvalId == request.payload.humanApprovalId {
        PendingIsUnique(st, id, resolved);
      }
    }
  }

  // ----- blocked-work operations -----

  /** Superseding leaves nothing pending for the record, and the presented approval as it was. */
  lemma SupersedeClears(st: Store, w: string, approvalId: string)
    requires SubmissionInv(st)
    ensures var cleared := Supersede(st, w, approvalId);
            && cleared.submissions.Keys == st.submissions.Keys
            && (forall id | id in st.submissions ::
                  && cleared.submissions[id].id == id
                  && (cleared.submissions[id].status == Pending ==>
                        cleared.submissions[id].workItemId != w && PendingOk(cleared, cleared.submissions[id])))
            && (approvalId in st.approvals ==> approvalId in cleared.approvals && cleared.approvals[approvalId] == st.approvals[approvalId])
            && cleared.workItems == st.workItems && cleared.activeSubmissions == st.activeSubmissions
            && (forall id | id in st.submissions && id != Active(st, w) :: cleared.submissions[id] == st.submissions[id])
  {
    var prior := Active(st, w);
    var cleared := Supersede(st, w, approvalId);
    assert prior != NoSubmission ==> prior in st.submissions && st.submissions[prior].status == Pending;
    forall id | id in cleared.submissions && cleared.submissions[id].status == Pending
      ensures cleared.submissions[id].workItemId != w && PendingOk(cleared, cleared.submissions[id])
    {
      assert id != prior && PendingOk(st, st.submissions[id]);
      if prior != NoSubmission && st.submissions[id].approvalId == st.submissions[prior].approvalId {
        PendingIsUnique(st, id, prior);
      }
    }
  }

  lemma SubmitKeeps(cfg: Config, st: Store, now: Time, call: Call, auth: AuthorizationContext)
    requires SubmissionInv(st)
    requires forall id | id in st.workItems :: st.workItems[id].id == id
    ensures SubmissionInv(SubmitResolution(cfg, st, now, call, auth).0)
  {
    if SubmitRejection(cfg, st, now, call, auth).None? {
      hide SubmitRejection, BlockedExpected, RequestEvent, AppliedResult, Supersede, Revision, PlannedDependencyComplete;
      SupersedeClears(st, call.workItemId, call.humanApprovalId);
      var cleared := Supersede(st, call.workItemId, call.humanApprovalId);
      var next := SubmitResolution(cfg, st, now, call, auth).0;
      var added := Resolution(st.nextResolutionId + 1);
      AddPending(st, cleared, next, added);
    }
  }

  /** Adding the one pending submission of a record that had none left. */
  lemma AddPending(st: Store, cleared: Store, next: Store, added: SubmissionId)
    requires SubmissionInv(st)
    requires cleared.submissions.Keys == st.submissions.Keys
    requires cleared.workItems == st.workItems && cleared.activeSubmissions == st.activeSubmissions
    requires added == Resolution(st.nextResolutionId + 1) && added in next.submissions
    requires var s := next.submissions[added];
             && s.id == added && s.status == Pending
             && next.submissions == cleared.submissions[added := s]
             && next.activeSubmissions == st.activeSubmissions[s.workItemId := added]
             && PendingOk(next, s)
             && (forall id | id in cleared.submissions ::
                   && cleared.submissions[id].id == id
                   && (cleared.submissions[id].status == Pending ==>
                         cleared.submissions[id].workItemId != s.workItemId && PendingOk(cleared, cleared.submissions[id])))
             && (forall w | w in st.activeSubmissions && w != s.workItemId && st.activeSubmissions[w] != NoSubmission ::
                   cleared.submissions[st.activeSubmissions[w]] == st.submissions[st.activeSubmissions[w]])
    requires next.approvals == cleared.approvals && next.workItems == st.workItems
    requires next.nextResolutionId == st.nextResolutionId + 1 && next.nextAcknowledgementId == st.nextAcknowledgementId
    ensures SubmissionInv(next)
  {
    var s := next.submissions[added];
    forall id | id in next.submissions && id != added && next.submissions[id].status == Pending
      ensures PendingOk(next, next.submissions[id])
    {
      assert PendingOk(cleared, cleared.submissions[id]);
    }
  }

  lemma AcknowledgeKeeps(cfg: Config, st: Store, now: Time, call: Call, auth: AuthorizationContext)
    requires SubmissionInv(st)
    ensures SubmissionInv(Acknowledge(cfg, st, now, call, auth).0)
  {
    hide BlockedTarget, Text.IsBlank, AppliedResult, SubmissionInv;
    var next := Acknowledge(cfg, st, now, call, auth).0;
    if next != st {
      assert st.approvals[call.humanApprovalId].action == BlockedWorkAcknowledge;
      ApprovalSpentElsewhere(st, next, call.humanApprovalId, Acknowledgement(st.nextAcknowledgementId + 1));
    }
  }

  /** Spending an approval of any other action, with or without a settled submission
      added, touches no pending one. */
  lemma ApprovalSpentElsewhere(st: Store, next: Store, approvalId: string, added: SubmissionId)
    requires SubmissionInv(st)
    requires approvalId in st.approvals && st.approvals[approvalId].action != ResolveBlock
    requires next.approvals == st.approvals[approvalId := st.approvals[approvalId].(status := Consumed)]
    requires next.activeSubmissions == st.activeSubmissions && next.workItems == st.workItems
    requires next.nextResolutionId == st.nextResolutionId
    requires
      || (next.submissions == st.submissions && next.nextAcknowledgementId == st.nextAcknowledgementId)
      || (&& added == Acknowledgement(st.nextAcknowledgementId + 1)
          && next.nextAcknowledgementId == st.nextAcknowledgementId + 1
          && added in next.submissions && next.submissions[added].id == added && next.submissions[added].status != Pending
          && next.submissions == st.submissions[added := next.submissions[added]])
    ensures SubmissionInv(next)
  {
    forall id | id in next.submissions && next.submissions[id].status == Pending
      ensures PendingOk(next, next.submissions[id])
    {
      assert PendingOk(st, st.submissions[id]);
    }
  }

  lemma RefineKeepsProtocol(cfg: Config, st: Store, now: Time, call: Call, auth: AuthorizationContext)
    requires SubmissionInv(st)
    ensures SubmissionInv(RefineRequest(cfg, st, now, call, auth).0)
  {
    hide MemoryRequests.Target, RefinementFieldRejection, RelationshipsRejection, Refined, ContentOf, KeyOf, RequestApplied, SubmissionInv;
    var next := RefineRequest(cfg, st, now, call, auth).0;
    if next != st {
      var approvalId := RefineApprovalId(call, call.payload.refinement);
      assert st.approvals[approvalId].action == RequestRefine;
      ApprovalSpentElsewhere(st, next, approvalId, NoSubmission);
    }
  }

  lemma ConfirmationKeeps(st: Store, id: SubmissionId, confirmationId: string)
    requires SubmissionInv(st)
    ensures SubmissionInv(ObserveConfirmation(st, id, confirmationId))
  {
    hide Text.IsBlank;
    var next := ObserveConfirmation(st, id, confirmationId);
    forall other | other in next.submissions && next.submissions[other].status == Pending
      ensures PendingOk(next, next.submissions[other])
    {
      assert PendingOk(st, st.submissions[other]);
    }
  }

  lemma SeedKeepsProtocol(st: Store, id: string, approval: Approval)
    requires SubmissionInv(st)
    ensures SubmissionInv(SeedApproval(st, id, approval))
  {
    hide SubmissionInv;
    ApprovalAdded(st, SeedApproval(st, id, approval));
  }

  /** More approvals disturb no pending submission. */
  lemma ApprovalAdded(st: Store, next: Store)
    requires SubmissionInv(st)
    requires next.submissions == st.submissions && next.activeSubmissions == st.activeSubmissions && next.workItems == st.workItems
    requires next.nextResolutionId == st.nextResolutionId && next.nextAcknowledgementId == st.nextAcknowledgementId
    requires forall id | id in st.approvals :: id in next.approvals && next.approvals[id] == st.approvals[id]
    ensures SubmissionInv(next)
  {
    forall other | other in next.submissions && next.submissions[other].status == Pending
      ensures PendingOk(next, next.submissions[other])
    {
      assert PendingOk(st, st.submissions[other]);
    }
  }
}
