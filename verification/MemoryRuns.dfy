/** What holds of the in-memory work-management system over whole runs: every sequence of
    calls, trusted observations and seeds from the empty store, with any callers, times
    and payloads. */
module MemoryRuns {
  import opened Records
  import opened Authorization
  import opened Evaluator
  import opened MemoryStore
  import opened MemoryRequests
  import opened MemoryItems
  import opened MemoryInvariant
  import opened MemoryProtocol
  import opened MemoryBacklog
  import opened MemoryEvolution
  import opened MemorySteps
  import opened MemoryRequestSteps
  import Text

  // ----- observations and seeds -----

  /** A step that appends no event and leaves every record's lifecycle alone. */
  lemma QuietStep(cfg: Config, st: Store, next: Store)
    requires Inv(cfg, st)
    requires Quiet(st, next) && next.events == st.events
    requires forall id | id in st.workItems :: next.workItems[id].changeType == st.workItems[id].changeType
    requires ApprovalsEvolve(st, next) && SubmissionsEvolve(st, next)
    requires next.idempotency == st.idempotency
    requires next.requests == st.requests && next.semanticRequests == st.semanticRequests && next.nextRequestId == st.nextRequestId
    requires SubmissionInv(next)
    ensures Inv(cfg, next) && Evolves(st, next)
  {
    hide LifecycleInv, SubmissionInv, SemanticInv, ApprovalsEvolve, SubmissionsEvolve;
    QuietKeeps(cfg, st, next);
    QuietEvolves(st, next);
    SameIndex(cfg, st, next);
    hide Quiet, ItemsEvolve;
  }

  /** Records whose inspection or reconciliation evidence alone was replaced. */
  lemma EvidenceIsQuiet(cfg: Config, st: Store, next: Store, id: string)
    requires Inv(cfg, st)
    requires next.(workItems := st.workItems) == st && id in st.workItems && id in next.workItems
    requires next.workItems == st.workItems[id := next.workItems[id]]
    requires var a, b := st.workItems[id], next.workItems[id];
             || b == a.(reconciliation := b.reconciliation)
             || (a.state == Inspecting && b == a.(inspection := b.inspection))
    ensures Inv(cfg, next) && Evolves(st, next)
  {
    hide SubmissionInv, SemanticInv, KeysInv, DependencyInv, AuditInv, TokensInv, MaterializationInv, LeaseOk, IsCandidate, Evolves;
    assert ItemOk(cfg.projectId, st.workItems[id]);
    assert Quiet(st, next);
    hide Quiet, ItemOk, GateOk;
    ProtocolUntouched(st, next);
    EvolvesReflexive(st);
    assert ApprovalsEvolve(st, next) && SubmissionsEvolve(st, next) by {
      SameIsEvolved(st, next);
    }
    hide ItemsInv;
    QuietStep(cfg, st, next);
  }

  lemma InspectionIsGood(cfg: Config, st: Store, id: string, evidence: InspectionEvidence)
    requires Inv(cfg, st)
    ensures Inv(cfg, ObserveInspection(st, id, evidence)) && Evolves(st, ObserveInspection(st, id, evidence))
  {
    hide Inv, Evolves, Text.IsBlank;
    var next := ObserveInspection(st, id, evidence);
    if next == st {
      EvolvesReflexive(st);
    } else {
      EvidenceIsQuiet(cfg, st, next, id);
    }
  }

  lemma ReconciliationIsGood(cfg: Config, st: Store, id: string, evidence: Reconciliation)
    requires Inv(cfg, st)
    ensures Inv(cfg, ObserveReconciliation(st, id, evidence)) && Evolves(st, ObserveReconciliation(st, id, evidence))
  {
    hide Inv, Evolves, Text.IsBlank;
    var next := ObserveReconciliation(st, id, evidence);
    if next == st {
      EvolvesReflexive(st);
    } else {
      EvidenceIsQuiet(cfg, st, next, id);
    }
  }

  lemma SameIsEvolved(st: Store, next: Store)
    ensures next.approvals == st.approvals ==> ApprovalsEvolve(st, next)
    ensures next.submissions == st.submissions ==> SubmissionsEvolve(st, next)
  {
  }

  /** A step that touches nothing the lifecycle invariants speak of. */
  lemma AsideIsQuiet(cfg: Config, st: Store, next: Store)
    requires LifecycleInv(cfg, st)
    requires next.workItems == st.workItems && next.events == st.events && next.nextToken == st.nextToken
    requires next.materializations == st.materializations
    ensures Quiet(st, next)
  {
    hide DependencyInv, AuditInv, TokensInv, MaterializationInv, LeaseOk, GateOk;
  }

  lemma ConfirmationIsGood(cfg: Config, st: Store, id: SubmissionId, confirmationId: string)
    requires Inv(cfg, st)
    ensures Inv(cfg, ObserveConfirmation(st, id, confirmationId)) && Evolves(st, ObserveConfirmation(st, id, confirmationId))
  {
    hide LifecycleInv, SubmissionInv, SemanticInv, KeysInv, Text.IsBlank, Evolves, Quiet;
    var next := ObserveConfirmation(st, id, confirmationId);
    ConfirmationKeeps(st, id, confirmationId);
    AsideIsQuiet(cfg, st, next);
    SameIsEvolved(st, next);
    assert SubmissionsEvolve(st, next) by {
      StoredUnderId(st);
    }
    QuietStep(cfg, st, next);
  }

  lemma StoredUnderId(st: Store)
    requires SubmissionInv(st)
    ensures forall id | id in st.submissions :: st.submissions[id].id == id
  {
    hide PendingOk;
  }

  /** Observed readiness and seeded change sets. */
  lemma AsideIsGood(cfg: Config, st: Store, next: Store)
    requires Inv(cfg, st)
    requires next == st.(changeSets := next.changeSets, observedReadiness := next.observedReadiness)
    ensures Inv(cfg, next) && Evolves(st, next)
  {
    hide LifecycleInv, SubmissionInv, SemanticInv, KeysInv, Evolves, Quiet;
    AsideIsQuiet(cfg, st, next);
    SameIsEvolved(st, next);
    ProtocolUntouched(st, next);
    QuietStep(cfg, st, next);
  }

  lemma ReadinessIsGood(cfg: Config, st: Store, id: string, readiness: Readiness)
    requires Inv(cfg, st)
    ensures Inv(cfg, ObserveReadiness(st, id, readiness)) && Evolves(st, ObserveReadiness(st, id, readiness))
  {
    hide Inv, Evolves, Text.IsBlank;
    AsideIsGood(cfg, st, ObserveReadiness(st, id, readiness));
  }

  lemma ChangeSetIsGood(cfg: Config, st: Store, changeSet: ChangeSet)
    requires Inv(cfg, st)
    ensures Inv(cfg, SeedChangeSet(st, changeSet)) && Evolves(st, SeedChangeSet(st, changeSet))
  {
    hide Inv, Evolves;
    AsideIsGood(cfg, st, SeedChangeSet(st, changeSet));
  }

  lemma AddedApprovals(st: Store, next: Store)
    requires forall id | id in st.approvals :: id in next.approvals && next.approvals[id] == st.approvals[id]
    ensures ApprovalsEvolve(st, next)
  {
  }

  lemma SeedShape(st: Store, id: string, approval: Approval)
    ensures var next := SeedApproval(st, id, approval);
            && next.workItems == st.workItems && next.events == st.events && next.nextToken == st.nextToken
            && next.materializations == st.materializations && next.submissions == st.submissions
            && next.idempotency == st.idempotency && next.requests == st.requests
            && next.semanticRequests == st.semanticRequests && next.nextRequestId == st.nextRequestId
            && forall a | a in st.approvals :: a in next.approvals && next.approvals[a] == st.approvals[a]
  {
    if id != "" && id !in st.approvals {
      var next := st.(approvals := st.approvals[id := approval]);
      assert SeedApproval(st, id, approval) == next;
    }
  }

  lemma SeedIsGood(cfg: Config, st: Store, id: string, approval: Approval)
    requires Inv(cfg, st)
    ensures Inv(cfg, SeedApproval(st, id, approval)) && Evolves(st, SeedApproval(st, id, approval))
  {
    hide LifecycleInv, SubmissionInv, SemanticInv, KeysInv, Evolves, Quiet, ApprovalsEvolve, SubmissionsEvolve, SeedApproval;
    var next := SeedApproval(st, id, approval);
    SeedShape(st, id, approval);
    AsideIsQuiet(cfg, st, next);
    SameIsEvolved(st, next);
    AddedApprovals(st, next);
    SeedKeepsProtocol(st, id, approval);
    QuietStep(cfg, st, next);
  }

  // ----- every step, every run -----

  lemma StepKeeps(cfg: Config, st: Store, input: Input)
    requires Inv(cfg, st)
    ensures Inv(cfg, Step(cfg, st, input)) && Evolves(st, Step(cfg, st, input))
  {
    hide Inv, Evolves, Execute, ObserveConfirmation, ObserveInspection, ObserveReconciliation, ObserveReadiness,
         SeedApproval, SeedChangeSet;
    match input
    case Invoke(now, call, gate) => ExecuteIsGood(cfg, st, now, call, gate);
    case ConfirmationObserved(id, confirmationId) => ConfirmationIsGood(cfg, st, id, confirmationId);
    case ReadinessObserved(id, readiness) => ReadinessIsGood(cfg, st, id, readiness);
    case InspectionObserved(id, evidence) => InspectionIsGood(cfg, st, id, evidence);
    case ReconciliationObserved(id, evidence) => ReconciliationIsGood(cfg, st, id, evidence);
    case ChangeSetSeeded(changeSet) => ChangeSetIsGood(cfg, st, changeSet);
    case ApprovalSeeded(id, approval) => SeedIsGood(cfg, st, id, approval);
  }

  /** The invariants hold in every reachable store. */
  lemma {:induction false} EveryRunKeeps(cfg: Config, inputs: seq<Input>)
    ensures Inv(cfg, Reached(cfg, inputs))
  {
    hide Step;
    if inputs == [] {
      assert Inv(cfg, EMPTY);
    } else {
      hide Inv;
      EveryRunKeeps(cfg, inputs[..|inputs| - 1]);
      StepKeeps(cfg, Reached(cfg, inputs[..|inputs| - 1]), inputs[|inputs| - 1]);
    }
  }

  /** A run's store evolves out of the store of each of its prefixes. */
  lemma {:induction false} EveryRunEvolves(cfg: Config, inputs: seq<Input>, n: nat)
    requires n <= |inputs|
    ensures Evolves(Reached(cfg, inputs[..n]), Reached(cfg, inputs))
  {
    hide Step, Inv, Evolves;
    if n == |inputs| {
      assert inputs[..n] == inputs;
      EvolvesReflexive(Reached(cfg, inputs));
    } else {
      var earlier := inputs[..|inputs| - 1];
      assert earlier[..n] == inputs[..n];
      EveryRunEvolves(cfg, earlier, n);
      EveryRunKeeps(cfg, earlier);
      StepKeeps(cfg, Reached(cfg, earlier), inputs[|inputs| - 1]);
      EvolvesTransitive(Reached(cfg, inputs[..n]), Reached(cfg, earlier), Reached(cfg, inputs));
    }
  }

  /** The store after the first `n` inputs. */
  function At(cfg: Config, inputs: seq<Input>, n: nat): (st: Store)
    requires n <= |inputs|
  {
    Reached(cfg, inputs[..n])
  }

  lemma Onward(cfg: Config, inputs: seq<Input>, n: nat)
    requires n < |inputs|
    ensures At(cfg, inputs, n + 1) == Step(cfg, At(cfg, inputs, n), inputs[n])
  {
    hide Step;
    assert inputs[..n + 1][..n] == inputs[..n];
  }

  /** Both at once, between any two moments of a run. */
  lemma Between(cfg: Config, inputs: seq<Input>, m: nat, n: nat)
    requires m <= n <= |inputs|
    ensures Inv(cfg, At(cfg, inputs, m)) && Inv(cfg, At(cfg, inputs, n))
    ensures Evolves(At(cfg, inputs, m), At(cfg, inputs, n))
  {
    hide Inv, Evolves, Reached;
    EveryRunKeeps(cfg, inputs[..m]);
    EveryRunKeeps(cfg, inputs[..n]);
    assert inputs[..n][..m] == inputs[..m];
    EveryRunEvolves(cfg, inputs[..n], m);
  }
}
