/** What a performed lifecycle command does to the store, as the invariants see it. */
module MemoryLifecycle {
  import opened Records
  import opened Authorization
  import opened Evaluator
  import opened MemoryStore
  import opened MemoryItems
  import opened MemoryInvariant
  import Text

  /** The record a move leaves, without the store. */
  lemma MovedShape(cfg: Config, project: string, item: WorkItem, request: Request, evaluation: EvaluationContext, decision: Decision)
    requires ItemOk(project, item)
    requires IsMove(item, request, evaluation, decision)
    requires evaluation.nextToken != NO_TOKEN
    ensures var moved := Moved(cfg, item, request, decision.after.value, decision.tokenIssued, evaluation);
            && moved.id == item.id && moved.materializationKey == item.materializationKey
            && StateVersion(moved.state, moved.version) == decision.after.value
            && ItemOk(project, moved)
            && (moved.lease.Some? ==>
                  || (item.lease.Some? && moved.lease.value.token == item.lease.value.token)
                  || moved.lease.value.token == decision.tokenIssued)
            && moved.dependencies ==
               (if RefreshesDependencies(request.operation) && evaluation.refreshDependencies.Some?
                then evaluation.refreshDependencies.value else item.dependencies)
            && (Target(item) != "" ==> Target(moved) == Target(item))
            && moved.changeType == item.changeType
  {
    hide RefreshedBlockReason, ReadinessFailure, Text.SortStrings, FirstIncomplete, CandidateRejection, LegalFrom, Destinations, GateOk,
         LiveFence, ResolutionBinding, AllCompleted, LeaseOk;
    MovedOk(cfg, project, item, request, decision.after.value.state, decision.tokenIssued, evaluation);
    if Target(item) != "" {
      MovedTarget(cfg, item, request, decision.after.value, decision.tokenIssued, evaluation);
    }
  }

  /** `item` is the stored record as a command sees it, and the evidence is what the
      store observes. */
  ghost predicate Observed(cfg: Config, st: Store, request: Request, item: WorkItem, evaluation: EvaluationContext) {
    && item.id in st.workItems
    && item.id == request.workItemId
    && item == st.workItems[item.id].(activeSubmission := item.activeSubmission)
    && evaluation.nextToken == st.nextToken + 1
    && (RefreshesDependencies(request.operation) ==>
          evaluation.refreshDependencies == Some(LiveDependencies(cfg, st, item)))
  }

  lemma SameTarget(a: WorkItem, b: WorkItem)
    requires a.expectedMerge == b.expectedMerge
    ensures Target(a) == Target(b)
  {
  }

  /** An allowed command on a stored record is one `Effect` on it. */
  lemma AdvanceIsEffect(
    cfg: Config, st: Store, request: Request, item: WorkItem, evaluation: EvaluationContext, decision: Decision
  )
    requires ItemsInv(cfg, st)
    requires Observed(cfg, st, request, item, evaluation)
    requires IsMove(item, request, evaluation, decision)
    ensures var moved := Moved(cfg, item, request, decision.after.value, decision.tokenIssued, evaluation);
            var e := LifecycleEvent(st, request, decision);
            && moved.id == item.id == request.workItemId && item.id in st.workItems
            && moved.state == decision.after.value.state
            && st.workItems[item.id].state == item.state
            && Effect(cfg, st, st.workItems[item.id], moved, e, decision.tokenIssued)
            && Updated(st, Advanced(cfg, st, request, item, decision, evaluation), moved, e, decision.tokenIssued)
  {
    hide Moved, LegalFrom, Destinations, CandidateRejection, LiveFence, ResolutionBinding, StartsLease, Target, AllCompleted,
         LiveDependencies, IsCandidate, ApprovalSubject;
    SameTarget(st.workItems[item.id], item);
    assert ItemOk(cfg.projectId, st.workItems[item.id]);
    assert ItemOk(cfg.projectId, item);
    MovedShape(cfg, cfg.projectId, item, request, evaluation, decision);
    var moved := Moved(cfg, item, request, decision.after.value, decision.tokenIssued, evaluation);
    hide ItemOk, ItemsInv;
    if Started(moved.state) && !Started(item.state) {
      PassedGate(cfg, st, item, request, evaluation, decision);
    }
  }

  /** The dependencies a command checked are records the store holds as completed. */
  lemma PassedGate(cfg: Config, st: Store, item: WorkItem, request: Request, evaluation: EvaluationContext, decision: Decision)
    requires Observed(cfg, st, request, item, evaluation)
    requires IsMove(item, request, evaluation, decision)
    requires Started(decision.after.value.state) && !Started(item.state)
    ensures forall i | 0 <= i < |item.dependencies| :: CompletedItem(cfg, st, item.dependencies[i].id)
  {
    hide LegalFrom, Destinations, CandidateRejection, LiveFence, ResolutionBinding, StartsLease;
    var checked := EffectiveDependencies(item, evaluation);
    forall i | 0 <= i < |item.dependencies|
      ensures CompletedItem(cfg, st, item.dependencies[i].id)
    {
      assert checked[i] in checked;
    }
  }

  /** An allowed materialization creates its record. */
  lemma MaterializeCreates(cfg: Config, st: Store, request: Request, evaluation: EvaluationContext, decision: Decision)
    requires ItemsInv(cfg, st)
    requires request.operation == Materialize && request.projectId == cfg.projectId
    requires request.materializationKey !in st.materializations && request.workItemId !in st.workItems
    requires IsNew(request, evaluation, decision) && decision.outcome == Allowed
    requires evaluation.refreshDependencies == Some(LiveDependencies(cfg, st, request.payload.workItem.value))
    ensures Created(cfg, st, Materialized(st, request, decision, evaluation), NewItem(request, decision.after.value, evaluation),
                    LifecycleEvent(st, request, decision))
  {
    hide ItemOk, ReadinessFailure, SourceOf, ItemsInv, TargetRejection, ResultOfDecision, ApprovalSubject, LiveDependencies;
    var item := NewItem(request, decision.after.value, evaluation);
    assert item.id == request.workItemId && item.materializationKey == request.materializationKey;
    assert item.dependencies == LiveDependencies(cfg, st, request.payload.workItem.value);
    assert item.version == 1 && item.state == decision.after.value.state;
    var next := Materialized(st, request, decision, evaluation);
    assert next.workItems == st.workItems[item.id := item];
    assert LegalMove(LifecycleEvent(st, request, decision));
    hide NewItem;
    if Started(item.state) {
      forall i | 0 <= i < |item.dependencies|
        ensures CompletedItem(cfg, st, item.dependencies[i].id)
      {
        assert item.dependencies[i] in item.dependencies;
      }
    }
  }
}
