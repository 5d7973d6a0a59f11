/** What the evidence of an applied command goes back to in the run: a merge to the candidate its
    record began to merge with, a resolution to its confirmation. */
module MemoryHistory {
  import opened Records
  import opened Authorization
  import opened Evaluator
  import opened EvaluatorRules
  import opened MemoryStore
  import opened MemoryRequests
  import opened MemoryItems
  import opened MemoryInvariant
  import opened MemoryProtocol
  import opened MemoryBacklog
  import opened MemorySteps
  import opened MemoryRuns
  import opened MemoryGuarantees
  import opened MemoryReplay
  import opened MemoryEffects
  import opened MemoryCommands
  import Text

  // ----- which calls change what -----

  ghost predicate Applies(cfg: Config, st: Store, input: Input) {
    input.Invoke? && Execute(cfg, st, input.now, input.call, input.gate).1.mutation == MutationApplied
  }

  /** Only an admitted lifecycle command or request mutation is ever applied. */
  lemma AppliedOperation(cfg: Config, st: Store, now: Time, call: Call, gate: Option<AuthorizationContext>)
    requires Execute(cfg, st, now, call, gate).1.mutation == MutationApplied
    ensures gate.Some? && (KnownLifecycleOperation(call.operation) || IsRequestMutation(call.operation))
  {
    hide ExecuteLifecycle, MutateRequest, RequestFingerprintOf, RoleHasWmsOperation, AuthorizeContext, Remember;
  }

  /** What a step does to a record: the effect of the command that names it, a new record, a
      priority, an observation, or nothing. */
  ghost predicate RecordStep(cfg: Config, st: Store, next: Store, input: Input, w: string)
    requires w in next.workItems
  {
    || (&& w in st.workItems && Applies(cfg, st, input) && KnownLifecycleOperation(input.call.operation) && input.call.operation != Materialize
        && input.call.workItemId == w && input.gate.Some?
        && Earned(cfg, st, next, input.now, input.call, input.gate.value, Execute(cfg, st, input.now, input.call, input.gate).1))
    || (w !in st.workItems && next.workItems[w].state in {Blocked, Waiting, ReadyForBuilding})
    || (w in st.workItems
        && next.workItems[w] == st.workItems[w].(priority := next.workItems[w].priority, inspection := next.workItems[w].inspection,
                                                 reconciliation := next.workItems[w].reconciliation)
        && !(Applies(cfg, st, input) && KnownLifecycleOperation(input.call.operation) && input.call.workItemId == w
             && input.call.operation != Materialize))
  }

  lemma EveryRecordStep(cfg: Config, inputs: seq<Input>, input: Input, w: string)
    requires w in Step(cfg, Reached(cfg, inputs), input).workItems
    ensures RecordStep(cfg, Reached(cfg, inputs), Step(cfg, Reached(cfg, inputs), input), input, w)
  {
    var st := Reached(cfg, inputs);
    hide Reached, Execute, Earned, ObserveConfirmation, ObserveInspection, ObserveReconciliation, ObserveReadiness, SeedApproval, SeedChangeSet;
    match input
    case Invoke(now, call, gate) =>
      CallsAccountForThemselves(cfg, inputs, now, call, gate);
      if Applies(cfg, st, input) {
        AppliedOperation(cfg, st, now, call, gate);
        if !KnownLifecycleOperation(call.operation) {
          RequestRecordStep(cfg, inputs, now, call, gate.value, w);
        } else if call.operation == Materialize {
          NewRecordStep(cfg, inputs, now, call, gate.value, w);
        } else {
          CommandEffect(cfg, inputs, now, call, gate.value);
          OthersStay(cfg, st, now, call, gate.value, w);
        }
      }
    case _ => ObservedRecordStep(cfg, st, input, w);
  }

  lemma ObservedRecordStep(cfg: Config, st: Store, input: Input, w: string)
    requires !input.Invoke? && w in Step(cfg, st, input).workItems
    ensures w in st.workItems
    ensures var a, b := st.workItems[w], Step(cfg, st, input).workItems[w];
            b == a.(inspection := b.inspection, reconciliation := b.reconciliation)
  {
    hide Text.IsBlank, Execute, ObserveConfirmation, ObserveReadiness, ObserveInspection, ObserveReconciliation, SeedChangeSet, SeedApproval;
    match input
    case InspectionObserved(id, evidence) => InspectionStep(st, id, evidence, w);
    case ReconciliationObserved(id, evidence) => ReconciliationStep(st, id, evidence, w);
    case _ => OtherStep(cfg, st, input, w);
  }

  lemma InspectionStep(st: Store, id: string, evidence: InspectionEvidence, w: string)
    requires w in ObserveInspection(st, id, evidence).workItems
    ensures w in st.workItems
    ensures var a, b := st.workItems[w], ObserveInspection(st, id, evidence).workItems[w]; b == a.(inspection := b.inspection)
  {
    hide Text.IsBlank;
  }

  lemma ReconciliationStep(st: Store, id: string, evidence: Reconciliation, w: string)
    requires w in ObserveReconciliation(st, id, evidence).workItems
    ensures w in st.workItems
    ensures var a, b := st.workItems[w], ObserveReconciliation(st, id, evidence).workItems[w]; b == a.(reconciliation := b.reconciliation)
  {
    hide Text.IsBlank;
  }

  lemma OtherStep(cfg: Config, st: Store, input: Input, w: string)
    requires !input.Invoke? && !input.InspectionObserved? && !input.ReconciliationObserved?
    ensures Step(cfg, st, input).workItems == st.workItems
  {
    hide Text.IsBlank, Execute;
  }

  lemma OthersStay(cfg: Config, st: Store, now: Time, call: Call, auth: AuthorizationContext, w: string)
    requires Earned(cfg, st, Execute(cfg, st, now, call, Some(auth)).0, now, call, auth, Execute(cfg, st, now, call, Some(auth)).1)
    requires w in Execute(cfg, st, now, call, Some(auth)).0.workItems
    ensures w in st.workItems && (w != call.workItemId ==> Execute(cfg, st, now, call, Some(auth)).0.workItems[w] == st.workItems[w])
  {
    hide Execute, Normalize, Admitted, Evidence, Destination, LeaseEffect, RefreshEffect, MergeEffect, ReasonEffect, RestUnchanged, StoreContext;
  }

  lemma RequestRecordStep(cfg: Config, inputs: seq<Input>, now: Time, call: Call, auth: AuthorizationContext, w: string)
    requires !KnownLifecycleOperation(call.operation) && IsRequestMutation(call.operation)
    requires Execute(cfg, Reached(cfg, inputs), now, call, Some(auth)).1.mutation == MutationApplied
    requires w in Execute(cfg, Reached(cfg, inputs), now, call, Some(auth)).0.workItems
    ensures w in Reached(cfg, inputs).workItems
    ensures var a, b := Reached(cfg, inputs).workItems[w], Execute(cfg, Reached(cfg, inputs), now, call, Some(auth)).0.workItems[w];
            b == a.(priority := b.priority)
  {
    hide Reached, Execute, OneRevisionOn, ContentOf, Refined, KeyOf, SemanticKeyOf, SubmissionReplaced, ApprovalReplaced, ApprovalSpent;
    RequestEffect(cfg, inputs, now, call, auth);
  }

  lemma NewRecordStep(cfg: Config, inputs: seq<Input>, now: Time, call: Call, auth: AuthorizationContext, w: string)
    requires call.operation == Materialize
    requires Execute(cfg, Reached(cfg, inputs), now, call, Some(auth)).1.mutation == MutationApplied
    requires w in Execute(cfg, Reached(cfg, inputs), now, call, Some(auth)).0.workItems
    ensures var st, next := Reached(cfg, inputs), Execute(cfg, Reached(cfg, inputs), now, call, Some(auth)).0;
            if w in st.workItems then next.workItems[w] == st.workItems[w]
            else next.workItems[w].state in {Blocked, Waiting, ReadyForBuilding}
  {
    hide Reached, Execute, Normalize, LiveDependencies, MaySend, SubmissionSnapshot;
    MaterializeEffect(cfg, inputs, now, call, auth);
  }

  // ----- what was merged -----

  /** The input at `m` begins a merge of the record. */
  ghost predicate BeginsMerge(cfg: Config, inputs: seq<Input>, m: nat, w: string) {
    && m < |inputs| && Applies(cfg, At(cfg, inputs, m), inputs[m])
    && inputs[m].call.operation == BeginMerge && inputs[m].call.workItemId == w && inputs[m].call.payload.LifecyclePayload?
  }

  /** ... and is the last one that does. */
  ghost predicate LastBegin(cfg: Config, inputs: seq<Input>, m: nat, w: string) {
    BeginsMerge(cfg, inputs, m, w) && forall k | m < k < |inputs| :: !BeginsMerge(cfg, inputs, k, w)
  }

  /** A record that is merging expects the candidate the last begin-merge on it presented. */
  lemma {:induction false} MergingSince(cfg: Config, inputs: seq<Input>, w: string) returns (m: nat)
    requires w in Reached(cfg, inputs).workItems && Reached(cfg, inputs).workItems[w].state == Merging
    ensures LastBegin(cfg, inputs, m, w)
    ensures Reached(cfg, inputs).workItems[w].expectedMerge == inputs[m].call.payload.payload.mergeEnvelope
  {
    hide Reached, Applies;
    LastStep(cfg, inputs, w);
    var n := |inputs| - 1;
    if BeginsMerge(cfg, inputs, n, w) {
      m := n;
    } else {
      m := MergingSince(cfg, inputs[..n], w);
      assert inputs[..n][m] == inputs[m];
      SameBegins(cfg, inputs, w);
    }
  }

  lemma ReachedLast(cfg: Config, inputs: seq<Input>, w: string)
    requires w in Reached(cfg, inputs).workItems
    ensures inputs != [] && Reached(cfg, inputs) == Step(cfg, Reached(cfg, inputs[..|inputs| - 1]), inputs[|inputs| - 1])
  {
    hide Step;
  }

  lemma LastStep(cfg: Config, inputs: seq<Input>, w: string)
    requires w in Reached(cfg, inputs).workItems && Reached(cfg, inputs).workItems[w].state == Merging
    ensures inputs != []
    ensures var n, b := |inputs| - 1, Reached(cfg, inputs).workItems[w];
            if BeginsMerge(cfg, inputs, n, w) then b.expectedMerge == inputs[n].call.payload.payload.mergeEnvelope
            else
              && w in Reached(cfg, inputs[..n]).workItems && Reached(cfg, inputs[..n]).workItems[w].state == Merging
              && b.expectedMerge == Reached(cfg, inputs[..n]).workItems[w].expectedMerge
  {
    hide Reached, Step, RecordStep, Applies, Execute;
    ReachedLast(cfg, inputs, w);
    var n := |inputs| - 1;
    var st, input := Reached(cfg, inputs[..n]), inputs[n];
    EveryRecordStep(cfg, inputs[..n], input, w);
    if BeginsMerge(cfg, inputs, n, w) {
      BeganWith(cfg, st, Step(cfg, st, input), input, w);
    } else {
      StaysMerging(cfg, st, Step(cfg, st, input), input, w);
    }
  }

  lemma SameBegins(cfg: Config, inputs: seq<Input>, w: string)
    requires inputs != []
    ensures forall k | 0 <= k < |inputs| - 1 :: BeginsMerge(cfg, inputs, k, w) <==> BeginsMerge(cfg, inputs[..|inputs| - 1], k, w)
  {
    hide Reached, Applies;
    forall k | 0 <= k < |inputs| - 1
      ensures BeginsMerge(cfg, inputs, k, w) <==> BeginsMerge(cfg, inputs[..|inputs| - 1], k, w)
    {
      assert inputs[..|inputs| - 1][..k] == inputs[..k];
    }
  }

  lemma BeganWith(cfg: Config, st: Store, next: Store, input: Input, w: string)
    requires w in next.workItems && RecordStep(cfg, st, next, input, w) && next.workItems[w].state == Merging
    requires Applies(cfg, st, input) && input.call.operation == BeginMerge && input.call.workItemId == w
    ensures input.call.payload.LifecyclePayload? && next.workItems[w].expectedMerge == input.call.payload.payload.mergeEnvelope
  {
    hide Applies, Normalize, Admitted, Evidence, Destination, LeaseEffect, RefreshEffect, ReasonEffect, RestUnchanged, StoreContext, OnlyThisRecord;
  }

  /** Nothing else makes a record merging, or changes what it expects while it is. */
  lemma StaysMerging(cfg: Config, st: Store, next: Store, input: Input, w: string)
    requires w in next.workItems && RecordStep(cfg, st, next, input, w) && next.workItems[w].state == Merging
    requires !(Applies(cfg, st, input) && input.call.operation == BeginMerge && input.call.workItemId == w && input.call.payload.LifecyclePayload?)
    ensures w in st.workItems && st.workItems[w].state == Merging && next.workItems[w].expectedMerge == st.workItems[w].expectedMerge
  {
    hide Earned, Execute;
    if && w in st.workItems && input.Invoke? && input.gate.Some? && input.call.workItemId == w
       && Earned(cfg, st, next, input.now, input.call, input.gate.value, Execute(cfg, st, input.now, input.call, input.gate).1)
    {
      EarnedMerging(cfg, st, next, input.now, input.call, input.gate.value, Execute(cfg, st, input.now, input.call, input.gate).1);
    }
  }

  lemma EarnedMerging(cfg: Config, st: Store, next: Store, now: Time, call: Call, auth: AuthorizationContext, result: Result)
    requires Earned(cfg, st, next, now, call, auth, result)
    ensures call.payload.LifecyclePayload? && call.workItemId in st.workItems && call.workItemId in next.workItems
    ensures call.operation != BeginMerge && next.workItems[call.workItemId].state == Merging ==>
              && st.workItems[call.workItemId].state == Merging
              && next.workItems[call.workItemId].expectedMerge == st.workItems[call.workItemId].expectedMerge
  {
    hide Normalize, MaySend, LeaseEffect, RefreshEffect, ReasonEffect, RestUnchanged, StoreContext, LegalIn, Evidence, BoundResolution;
  }

  /** An applied record-merge has a merge commit, and is of the very candidate the last begin-merge
      on its record presented, at the version the record has now; whether the caller says so or,
      for the Reconciler, the observation of Git does. */
  lemma MergedCandidate(cfg: Config, inputs: seq<Input>, now: Time, call: Call, auth: AuthorizationContext) returns (m: nat)
    requires call.operation == RecordMerge && Execute(cfg, Reached(cfg, inputs), now, call, Some(auth)).1.mutation == MutationApplied
    ensures call.payload.LifecyclePayload? && call.workItemId in Reached(cfg, inputs).workItems
    ensures LastBegin(cfg, inputs, m, call.workItemId)
    ensures var item := Reached(cfg, inputs).workItems[call.workItemId];
            var tested := inputs[m].call.payload.payload.mergeEnvelope;
            var merged := if auth.role == Reconciler then item.reconciliation.envelope else call.payload.payload.mergeEnvelope;
            && tested.Some? && merged.Some? && merged.value.mergeCommit != ""
            && merged.value.productTreeDigest == tested.value.productTreeDigest
            && merged.value.inspectionRunId == tested.value.inspectionRunId
            && merged.value.integrationHead == tested.value.integrationHead
            && merged.value.target == tested.value.target
            && merged.value.contractVersion == tested.value.contractVersion == item.version
  {
    hide Reached, Execute, LastBegin;
    CommandEffect(cfg, inputs, now, call, auth);
    var st := Reached(cfg, inputs);
    MergeEvidence(cfg, st, Execute(cfg, st, now, call, Some(auth)).0, now, call, auth, Execute(cfg, st, now, call, Some(auth)).1);
    m := MergingSince(cfg, inputs, call.workItemId);
  }

  lemma MergeEvidence(cfg: Config, st: Store, next: Store, now: Time, call: Call, auth: AuthorizationContext, result: Result)
    requires Earned(cfg, st, next, now, call, auth, result) && call.operation == RecordMerge
    ensures call.payload.LifecyclePayload? && call.workItemId in st.workItems
    ensures var item := st.workItems[call.workItemId];
            && item.state == Merging
            && MergeOf(item.expectedMerge, if auth.role == Reconciler then item.reconciliation.envelope else call.payload.payload.mergeEnvelope,
                       item.version)
  {
    hide Normalize, MaySend, Destination, LeaseEffect, RefreshEffect, MergeEffect, ReasonEffect, RestUnchanged, StoreContext, OnlyThisRecord,
         MergeOf, BoundResolution;
    SamePayload(cfg, st, call, auth);
  }

  // ----- what was confirmed -----

  /** The input at `m` records the Inspector's confirmation of the submission. */
  ghost predicate Confirms(cfg: Config, inputs: seq<Input>, m: nat, id: SubmissionId, confirmationId: string) {
    && m < |inputs| && inputs[m] == ConfirmationObserved(id, confirmationId)
    && var st, next := At(cfg, inputs, m), At(cfg, inputs, m + 1);
       && id in st.submissions && st.submissions[id].inspectorConfirmationId == ""
       && id in next.submissions && next.submissions[id].inspectorConfirmationId == confirmationId
  }

  lemma ConfirmationStep(cfg: Config, inputs: seq<Input>, input: Input, id: SubmissionId)
    requires var next := Step(cfg, Reached(cfg, inputs), input);
             id in next.submissions && next.submissions[id].inspectorConfirmationId != ""
    ensures var st, next := Reached(cfg, inputs), Step(cfg, Reached(cfg, inputs), input);
            && id in st.submissions
            && (st.submissions[id].inspectorConfirmationId == next.submissions[id].inspectorConfirmationId
                || (input == ConfirmationObserved(id, next.submissions[id].inspectorConfirmationId)
                    && st.submissions[id].inspectorConfirmationId == ""))
  {
    var st := Reached(cfg, inputs);
    hide Reached, Execute, Earned, ObserveInspection, ObserveReconciliation, ObserveReadiness, SeedApproval, SeedChangeSet, ObserveConfirmation;
    match input
    case Invoke(now, call, gate) =>
      CallsAccountForThemselves(cfg, inputs, now, call, gate);
      if Applies(cfg, st, input) {
        AppliedOperation(cfg, st, now, call, gate);
        if KnownLifecycleOperation(call.operation) {
          StoredIds(cfg, inputs);
          LifecycleConfirmsNothing(cfg, st, now, call, gate.value);
        } else {
          RequestConfirmsNothing(cfg, inputs, now, call, gate.value, id);
        }
      }
    case _ => OnlyConfirmation(cfg, st, input, id);
  }

  lemma StoredIds(cfg: Config, inputs: seq<Input>)
    ensures forall id | id in Reached(cfg, inputs).submissions :: Reached(cfg, inputs).submissions[id].id == id
  {
    EveryRunKeeps(cfg, inputs) by {
      hide Inv;
    }
    hide Reached, LifecycleInv, SemanticInv, KeysInv, PendingOk;
  }

  lemma OnlyConfirmation(cfg: Config, st: Store, input: Input, id: SubmissionId)
    requires !input.Invoke? && id in Step(cfg, st, input).submissions
    ensures id in st.submissions
    ensures var a, b := st.submissions[id], Step(cfg, st, input).submissions[id];
            || a.inspectorConfirmationId == b.inspectorConfirmationId
            || (input == ConfirmationObserved(id, b.inspectorConfirmationId) && a.inspectorConfirmationId == "")
  {
    hide Text.IsBlank, Execute;
  }

  ghost predicate SameConfirmations(st: Store, next: Store) {
    && next.submissions.Keys == st.submissions.Keys
    && forall id | id in st.submissions :: next.submissions[id].inspectorConfirmationId == st.submissions[id].inspectorConfirmationId
  }

  lemma LifecycleConfirmsNothing(cfg: Config, st: Store, now: Time, call: Call, auth: AuthorizationContext)
    requires KnownLifecycleOperation(call.operation) && forall id | id in st.submissions :: st.submissions[id].id == id
    ensures SameConfirmations(st, Execute(cfg, st, now, call, Some(auth)).0)
  {
    hide RouteOf, Performed, FingerprintOf, Execute, SameConfirmations;
    LifecycleExecutes(cfg, st, now, call, auth);
    match RouteOf(cfg, st, now, call, auth)
    case Answer(_) => SameStore(st, st);
    case Freeze(request, result) => SameStore(st, Remember(st, request.idempotencyKey, FingerprintOf(request), result));
    case Perform(request, _, _) =>
      PerformedConfirmsNothing(cfg, st, now, request);
      var (after, result) := Performed(cfg, st, now, request);
      Carries(st, after, Remember(after, request.idempotencyKey, FingerprintOf(request), result));
  }

  lemma SameStore(st: Store, next: Store)
    requires next.submissions == st.submissions
    ensures SameConfirmations(st, next)
  {
  }

  lemma Carries(st: Store, after: Store, next: Store)
    requires SameConfirmations(st, after) && next.submissions == after.submissions
    ensures SameConfirmations(st, next)
  {
  }

  lemma PerformedConfirmsNothing(cfg: Config, st: Store, now: Time, request: Request)
    requires forall id | id in st.submissions :: st.submissions[id].id == id
    ensures SameConfirmations(st, Performed(cfg, st, now, request).0)
  {
    hide Evaluate, Moved, MaterializeResult, CurrentItem, RefreshedEvaluation, ResolutionSpent, ResultOfDecision, NewItem, LifecycleEvent,
         SameConfirmations;
    var current := CurrentItem(st, request);
    var evaluation := RefreshedEvaluation(cfg, st, now, request);
    var decision := Evaluate(request, current, evaluation);
    AllowedShape(request, current, evaluation);
    SameStore(st, st);
    if decision.outcome != Rejected {
      if request.operation == Materialize {
        SameStore(st, Materialized(st, request, decision, evaluation));
      } else {
        var advanced := Advanced(cfg, st, request, current.value, decision, evaluation);
        SameStore(st, advanced);
        if request.operation == ResolveBlock {
          SpendableResolution(cfg, st, now, request);
          SpentConfirmsNothing(st, advanced, request);
        }
      }
    }
  }

  lemma SpentConfirmsNothing(st: Store, advanced: Store, request: Request)
    requires advanced.submissions == st.submissions && forall id | id in st.submissions :: st.submissions[id].id == id
    ensures request.payload.humanApprovalId in advanced.approvals && request.payload.resolutionSubmission in advanced.submissions ==>
              SameConfirmations(st, ResolutionSpent(advanced, request))
  {
  }

  lemma RequestConfirmsNothing(cfg: Config, inputs: seq<Input>, now: Time, call: Call, auth: AuthorizationContext, id: SubmissionId)
    requires IsRequestMutation(call.operation) && !KnownLifecycleOperation(call.operation)
    requires Execute(cfg, Reached(cfg, inputs), now, call, Some(auth)).1.mutation == MutationApplied
    requires id in Execute(cfg, Reached(cfg, inputs), now, call, Some(auth)).0.submissions
    ensures var st, next := Reached(cfg, inputs), Execute(cfg, Reached(cfg, inputs), now, call, Some(auth)).0;
            if id in st.submissions then next.submissions[id].inspectorConfirmationId == st.submissions[id].inspectorConfirmationId
            else next.submissions[id].inspectorConfirmationId == ""
  {
    hide Reached, Execute, OneRevisionOn, ContentOf, Refined, KeyOf, SemanticKeyOf, ApprovalReplaced, ApprovalSpent, ValidPriority;
    RequestEffect(cfg, inputs, now, call, auth);
  }

  /** A confirmation on a submission was recorded by an observation in the run. */
  lemma {:induction false} ConfirmedBefore(cfg: Config, inputs: seq<Input>, id: SubmissionId) returns (m: nat)
    requires id in Reached(cfg, inputs).submissions && Reached(cfg, inputs).submissions[id].inspectorConfirmationId != ""
    ensures Confirms(cfg, inputs, m, id, Reached(cfg, inputs).submissions[id].inspectorConfirmationId)
  {
    var n := |inputs| - 1;
    assert Reached(cfg, inputs) == Step(cfg, Reached(cfg, inputs[..n]), inputs[n]);
    hide Reached, Step;
    ConfirmationStep(cfg, inputs[..n], inputs[n], id);
    assert inputs[..n + 1] == inputs;
    if Reached(cfg, inputs[..n]).submissions[id].inspectorConfirmationId == "" {
      m := n;
    } else {
      m := ConfirmedBefore(cfg, inputs[..n], id);
      assert inputs[..n][m] == inputs[m] && inputs[..n][..m] == inputs[..m] && inputs[..n][..m + 1] == inputs[..m + 1];
    }
  }

  /** An applied resolve-block of an out-of-scope answer was confirmed by an Inspector earlier in
      the run; one of an added requirement finds its planned work item completed. */
  lemma ResolvedOnEvidence(cfg: Config, inputs: seq<Input>, now: Time, call: Call, auth: AuthorizationContext)
    requires call.operation == ResolveBlock && Execute(cfg, Reached(cfg, inputs), now, call, Some(auth)).1.mutation == MutationApplied
    ensures call.payload.LifecyclePayload? && call.payload.payload.resolutionSubmission in Reached(cfg, inputs).submissions
    ensures var st, id := Reached(cfg, inputs), call.payload.payload.resolutionSubmission;
            var submission := st.submissions[id];
            && submission.workItemId == call.workItemId && submission.status == Pending
            && submission.kind in {"add-requirement", "out-of-scope", "impact-amendment"}
            && (submission.kind == "out-of-scope" ==> exists m :: Confirms(cfg, inputs, m, id, submission.inspectorConfirmationId))
            && (submission.kind == "add-requirement" ==>
                  && submission.changeSetId in st.changeSets
                  && st.changeSets[submission.changeSetId].buildWorkItemId in st.workItems
                  && st.workItems[st.changeSets[submission.changeSetId].buildWorkItemId].state == Completed)
  {
    hide Reached, Execute, Confirms;
    CommandEffect(cfg, inputs, now, call, auth);
    var st := Reached(cfg, inputs);
    ResolutionEvidence(cfg, st, Execute(cfg, st, now, call, Some(auth)).0, now, call, auth, Execute(cfg, st, now, call, Some(auth)).1);
    if st.submissions[call.payload.payload.resolutionSubmission].kind == "out-of-scope" {
      var m := ConfirmedBefore(cfg, inputs, call.payload.payload.resolutionSubmission);
    }
  }

  lemma ResolutionEvidence(cfg: Config, st: Store, next: Store, now: Time, call: Call, auth: AuthorizationContext, result: Result)
    requires Earned(cfg, st, next, now, call, auth, result) && call.operation == ResolveBlock
    ensures call.payload.LifecyclePayload? && call.payload.payload.resolutionSubmission in st.submissions
    ensures var submission := st.submissions[call.payload.payload.resolutionSubmission];
            && submission.workItemId == call.workItemId && submission.status == Pending
            && submission.kind in {"add-requirement", "out-of-scope", "impact-amendment"}
            && (submission.kind == "out-of-scope" ==> submission.inspectorConfirmationId != "")
            && (submission.kind == "add-requirement" ==> PlannedDependencyComplete(st, submission.changeSetId))
  {
    SameSubmission(cfg, st, call, auth);
    hide Normalize, MaySend, Destination, LeaseEffect, RefreshEffect, MergeEffect, ReasonEffect, RestUnchanged, OnlyThisRecord, RefreshedReady,
         PlannedDependencyComplete, LiveDependencies;
  }

  lemma SameSubmission(cfg: Config, st: Store, call: Call, auth: AuthorizationContext)
    requires call.payload.LifecyclePayload? && call.operation != Materialize
    ensures var request := Normalize(cfg, st, call, auth, call.payload.payload);
            request.payload.resolutionSubmission == call.payload.payload.resolutionSubmission && request.workItemId == call.workItemId
  {
    hide MaterializationKey, LifecycleReferences;
  }
}
