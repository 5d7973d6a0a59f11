/** How the in-memory store may change: the relation every operation keeps, and that it
    composes over whole runs. */
module MemoryEvolution {
  import opened Records
  import opened Evaluator
  import opened MemoryStore
  import opened MemoryItems
  import opened MemoryInvariant

  predicate SameIds(a: seq<Dependency>, b: seq<Dependency>) {
    |a| == |b| && forall i | 0 <= i < |a| :: a[i].id == b[i].id
  }

  /** A record keeps its identity, source and merge target; its state changes only with
      its version; a terminal one is final; and its token is the one it had or one that
      was not issued yet. */
  predicate ItemEvolves(a: WorkItem, b: WorkItem, issued: Token) {
    && b.id == a.id && b.projectId == a.projectId && b.materializationKey == a.materializationKey && b.changeType == a.changeType
    && a.version <= b.version
    && (a.version == b.version ==> a.state == b.state)
    && (IsTerminal(a.state) ==> b.state == a.state && b.version == a.version)
    && (Target(a) != "" ==> Target(b) == Target(a))
    && SameIds(a.dependencies, b.dependencies)
    && (b.lease.Some? ==> (a.lease.Some? && b.lease.value.token == a.lease.value.token) || issued < b.lease.value.token)
  }

  /** An approval keeps its bindings; it is spent or revoked once, from unused. */
  predicate ApprovalEvolves(a: Approval, b: Approval) {
    && b.(status := a.status) == a
    && (b.status != a.status ==> a.status == Unused && b.status in {Consumed, Revoked})
  }

  /** A submission keeps its bindings; it is settled once, from pending. */
  predicate SubmissionEvolves(a: Submission, b: Submission) {
    && b.id == a.id && b.workItemId == a.workItemId && b.kind == a.kind && b.approvalId == a.approvalId
    && b.approvalDigest == a.approvalDigest && b.changeSetId == a.changeSetId
    && (b.status != a.status ==> a.status == Pending && b.status in {Superseded, SubmissionConsumed})
  }

  ghost predicate ItemsEvolve(st: Store, next: Store) {
    && (forall id | id in st.workItems :: id in next.workItems && ItemEvolves(st.workItems[id], next.workItems[id], st.nextToken))
    && (forall id | id in next.workItems && id !in st.workItems && next.workItems[id].lease.Some? ::
          st.nextToken < next.workItems[id].lease.value.token)
  }

  ghost predicate ApprovalsEvolve(st: Store, next: Store) {
    forall id | id in st.approvals :: id in next.approvals && ApprovalEvolves(st.approvals[id], next.approvals[id])
  }

  ghost predicate SubmissionsEvolve(st: Store, next: Store) {
    forall id | id in st.submissions :: id in next.submissions && SubmissionEvolves(st.submissions[id], next.submissions[id])
  }

  ghost predicate KeysEvolve(st: Store, next: Store) {
    && (forall key | key in st.idempotency :: key in next.idempotency && next.idempotency[key] == st.idempotency[key])
    && (forall key | key in st.materializations :: key in next.materializations && next.materializations[key] == st.materializations[key])
  }

  ghost predicate Evolves(st: Store, next: Store) {
    && ItemsEvolve(st, next)
    && ApprovalsEvolve(st, next)
    && SubmissionsEvolve(st, next)
    && KeysEvolve(st, next)
    && st.events <= next.events
    && st.nextToken <= next.nextToken
  }

  lemma EvolvesReflexive(st: Store)
    ensures Evolves(st, st)
  {
  }

  lemma EvolvesTransitive(a: Store, b: Store, c: Store)
    requires Evolves(a, b) && Evolves(b, c)
    ensures Evolves(a, c)
  {
    ItemsTransitive(a, b, c);
    assert a.events <= c.events;
    hide ItemEvolves, ItemsEvolve;
  }

  lemma ItemsTransitive(a: Store, b: Store, c: Store)
    requires ItemsEvolve(a, b) && ItemsEvolve(b, c) && a.nextToken <= b.nextToken
    ensures ItemsEvolve(a, c)
  {
    forall id | id in a.workItems
      ensures id in c.workItems && ItemEvolves(a.workItems[id], c.workItems[id], a.nextToken)
    {
      var x, y, z := a.workItems[id], b.workItems[id], c.workItems[id];
      assert ItemEvolves(x, y, a.nextToken) && ItemEvolves(y, z, b.nextToken);
      hide Target;
    }
    hide Target, SameIds;
  }

  /** The effect of one command, seen as evolution. */
  lemma EffectEvolves(cfg: Config, st: Store, item: WorkItem, moved: WorkItem, e: AuditEvent, issued: Token)
    requires Effect(cfg, st, item, moved, e, issued) && ItemOk(cfg.projectId, item)
    ensures ItemEvolves(item, moved, st.nextToken)
  {
    hide GateOk, Target, Destinations, LegalFrom;
  }

  lemma UpdatedEvolves(cfg: Config, st: Store, next: Store, moved: WorkItem, e: AuditEvent, issued: Token)
    requires ItemsInv(cfg, st)
    requires Updated(st, next, moved, e, issued) && Effect(cfg, st, st.workItems[moved.id], moved, e, issued)
    ensures ItemsEvolve(st, next)
  {
    EffectEvolves(cfg, st, st.workItems[moved.id], moved, e, issued);
    hide Effect, ItemOk;
  }

  /** Steps that move nothing evolve the items. */
  lemma QuietEvolves(st: Store, next: Store)
    requires Quiet(st, next)
    requires forall id | id in st.workItems :: next.workItems[id].changeType == st.workItems[id].changeType
    ensures ItemsEvolve(st, next)
  {
    hide GateOk, IsTerminal;
  }
}
