/** The invariants of the in-memory store, and that each kind of update keeps them. */
module MemoryInvariant {
  import opened Records
  import opened Authorization
  import opened Evaluator
  import opened MemoryStore
  import opened MemoryItems

  // ----- the audit trail and the completion order -----

  /** The events that moved a work item, oldest first. */
  function Trail(events: seq<AuditEvent>, id: string): (trail: seq<AuditEvent>) {
    if events == [] then []
    else
      var last := events[|events| - 1];
      Trail(events[..|events| - 1], id)
      + if last.workItemId == id && last.before.Some? && last.after.Some? then [last] else []
  }

  /** The position of the event that completed a work item, or the length of the log. */
  function CompletionRank(events: seq<AuditEvent>, id: string): (rank: nat)
    ensures rank <= |events|
  {
    if events == [] then 0
    else
      var last := events[|events| - 1];
      var earlier := CompletionRank(events[..|events| - 1], id);
      if earlier < |events| - 1 then earlier
      else if last.workItemId == id && last.after.Some? && last.after.value.state == Completed then |events| - 1
      else |events|
  }

  lemma Appended(events: seq<AuditEvent>, e: AuditEvent, id: string)
    ensures Trail(events + [e], id) == Trail(events, id) + if e.workItemId == id && e.before.Some? && e.after.Some? then [e] else []
    ensures CompletionRank(events + [e], id) ==
            if CompletionRank(events, id) < |events| then CompletionRank(events, id)
            else if e.workItemId == id && e.after.Some? && e.after.value.state == Completed then |events|
            else |events| + 1
  {
    assert (events + [e])[..|events|] == events;
  }

  /** One recorded move: legal in the transition table, one version further. */
  predicate LegalMove(e: AuditEvent) {
    && e.before.Some? && e.after.Some?
    && TransitionAllowed(e.operation, e.before.value.state)
    && e.after.value.state in Destinations(e.operation, e.before.value.state)
    && e.after.value.version == e.before.value.version + 1
  }

  /** An unbroken chain of legal moves from (initial, 0) to a record's state and version. */
  predicate Unbroken(trail: seq<AuditEvent>, end: StateVersion) {
    && trail != []
    && (forall i | 0 <= i < |trail| :: LegalMove(trail[i]))
    && trail[0].before == Some(StateVersion(Initial, 0))
    && (forall i | 0 < i < |trail| :: trail[i].before == trail[i - 1].after)
    && trail[|trail| - 1].after == Some(end)
  }

  // ----- the invariants -----

  ghost predicate ItemsInv(cfg: Config, st: Store) {
    forall id | id in st.workItems ::
      && st.workItems[id].id == id
      && ItemOk(cfg.projectId, st.workItems[id])
      && (st.workItems[id].lease.Some? ==> st.workItems[id].lease.value.token <= st.nextToken)
  }

  ghost predicate TokensInv(st: Store) {
    forall a, b | a in st.workItems && b in st.workItems && a != b
                  && st.workItems[a].lease.Some? && st.workItems[b].lease.Some? ::
      st.workItems[a].lease.value.token != st.workItems[b].lease.value.token
  }

  /** Every dependency of `item` is a completed record, and completed before position `rank`. */
  ghost predicate DependenciesDone(st: Store, item: WorkItem, rank: nat) {
    forall i | 0 <= i < |item.dependencies| ::
      && item.dependencies[i].id in st.workItems
      && st.workItems[item.dependencies[i].id].state == Completed
      && CompletionRank(st.events, item.dependencies[i].id) < rank
  }

  ghost predicate DependencyInv(st: Store) {
    forall id | id in st.workItems ::
      && (st.workItems[id].state == Completed <==> CompletionRank(st.events, id) < |st.events|)
      && (Started(st.workItems[id].state) ==> DependenciesDone(st, st.workItems[id], CompletionRank(st.events, id)))
  }

  ghost predicate AuditInv(st: Store) {
    && (forall id | id in st.workItems ::
          Unbroken(Trail(st.events, id), StateVersion(st.workItems[id].state, st.workItems[id].version)))
    && (forall id | id !in st.workItems :: Trail(st.events, id) == [] && CompletionRank(st.events, id) == |st.events|)
  }

  /** Every record holds its materialization key alone. */
  ghost predicate MaterializationInv(st: Store) {
    forall id | id in st.workItems ::
      && st.workItems[id].materializationKey in st.materializations
      && st.materializations[st.workItems[id].materializationKey].result.workItemId == id
  }

  ghost predicate LifecycleInv(cfg: Config, st: Store) {
    && ItemsInv(cfg, st)
    && TokensInv(st)
    && DependencyInv(st)
    && AuditInv(st)
    && MaterializationInv(st)
  }

  // ----- steps that move no work item -----

  /** Equal but for fields outside the lifecycle. */
  predicate SameLifecycle(a: WorkItem, b: WorkItem) {
    && a.id == b.id && a.projectId == b.projectId && a.materializationKey == b.materializationKey
    && a.state == b.state && a.version == b.version
    && a.owner == b.owner && a.lease == b.lease
    && a.dependencies == b.dependencies && a.expectedMerge == b.expectedMerge
  }

  predicate Silent(e: AuditEvent) {
    e.after.None?
  }

  ghost predicate Quiet(st: Store, next: Store) {
    && next.workItems.Keys == st.workItems.Keys
    && (forall id | id in st.workItems :: SameLifecycle(st.workItems[id], next.workItems[id]) && GateOk(next.workItems[id]))
    && next.nextToken == st.nextToken
    && (forall key | key in st.materializations ::
          key in next.materializations && next.materializations[key] == st.materializations[key])
    && (next.events == st.events
        || (|next.events| == |st.events| + 1 && next.events[..|st.events|] == st.events && Silent(next.events[|st.events|])))
  }

  lemma SilentTrail(st: Store, next: Store, id: string)
    requires Quiet(st, next)
    ensures Trail(next.events, id) == Trail(st.events, id)
    ensures CompletionRank(next.events, id) ==
            if CompletionRank(st.events, id) < |st.events| then CompletionRank(st.events, id) else |next.events|
  {
    if next.events != st.events {
      var e := next.events[|st.events|];
      assert next.events == st.events + [e];
      Appended(st.events, e, id);
    }
  }

  lemma QuietItems(cfg: Config, st: Store, next: Store)
    requires LifecycleInv(cfg, st) && Quiet(st, next)
    ensures ItemsInv(cfg, next) && TokensInv(next) && MaterializationInv(next)
  {
    hide GateOk, DependencyInv, AuditInv;
    forall id | id in next.workItems
      ensures ItemOk(cfg.projectId, next.workItems[id])
    {
      assert ItemOk(cfg.projectId, st.workItems[id]);
    }
    assert TokensInv(next);
  }

  lemma QuietAudit(cfg: Config, st: Store, next: Store)
    requires LifecycleInv(cfg, st) && Quiet(st, next)
    ensures AuditInv(next)
  {
    hide GateOk, ItemsInv, TokensInv, DependencyInv, MaterializationInv, Trail, CompletionRank, Unbroken;
    forall id
      ensures Trail(next.events, id) == Trail(st.events, id)
      ensures CompletionRank(st.events, id) == |st.events| ==> CompletionRank(next.events, id) == |next.events|
    {
      SilentTrail(st, next, id);
    }
  }

  lemma QuietDependencies(cfg: Config, st: Store, next: Store)
    requires LifecycleInv(cfg, st) && Quiet(st, next)
    ensures DependencyInv(next)
  {
    hide GateOk, ItemsInv, TokensInv, AuditInv, MaterializationInv, Trail, CompletionRank;
    forall id | id in next.workItems
      ensures next.workItems[id].state == Completed <==> CompletionRank(next.events, id) < |next.events|
      ensures Started(next.workItems[id].state) ==> DependenciesDone(next, next.workItems[id], CompletionRank(next.events, id))
    {
      SilentTrail(st, next, id);
      var item := st.workItems[id];
      if Started(item.state) {
        forall i | 0 <= i < |item.dependencies|
          ensures item.dependencies[i].id in next.workItems
          ensures next.workItems[item.dependencies[i].id].state == Completed
          ensures CompletionRank(next.events, item.dependencies[i].id) < CompletionRank(next.events, id)
        {
          SilentTrail(st, next, item.dependencies[i].id);
        }
      }
    }
  }

  lemma QuietKeeps(cfg: Config, st: Store, next: Store)
    requires LifecycleInv(cfg, st) && Quiet(st, next)
    ensures LifecycleInv(cfg, next)
  {
    hide Quiet, ItemsInv, TokensInv, DependencyInv, AuditInv, MaterializationInv;
    QuietItems(cfg, st, next);
    QuietAudit(cfg, st, next);
    QuietDependencies(cfg, st, next);
  }

  // ----- a command on an existing record -----

  /** The effect of one command on one record, as the store-wide invariants see it:
      a legal recorded move to a well-formed record, whose token is the old one or the
      one just issued, and whose dependency gate was passed before or is passed now. */
  ghost predicate Effect(cfg: Config, st: Store, item: WorkItem, moved: WorkItem, e: AuditEvent, issued: Token) {
    && moved.id == item.id && moved.materializationKey == item.materializationKey && moved.changeType == item.changeType
    && (Target(item) != "" ==> Target(moved) == Target(item))
    && ItemOk(cfg.projectId, moved)
    && !IsTerminal(item.state)
    && LegalMove(e)
    && e.workItemId == item.id
    && e.before == Some(StateVersion(item.state, item.version))
    && e.after == Some(StateVersion(moved.state, moved.version))
    && (issued == NO_TOKEN || issued == st.nextToken + 1)
    && (moved.lease.Some? ==>
          || (item.lease.Some? && moved.lease.value.token == item.lease.value.token)
          || moved.lease.value.token == issued)
    && |moved.dependencies| == |item.dependencies|
    && (forall i | 0 <= i < |moved.dependencies| :: moved.dependencies[i].id == item.dependencies[i].id)
    && (Started(moved.state) && !Started(item.state) ==>
          forall i | 0 <= i < |moved.dependencies| :: CompletedItem(cfg, st, moved.dependencies[i].id))
  }

  ghost predicate Updated(st: Store, next: Store, moved: WorkItem, e: AuditEvent, issued: Token) {
    && moved.id in st.workItems
    && next.workItems == st.workItems[moved.id := moved]
    && next.events == st.events + [e]
    && next.nextToken == st.nextToken + (if issued != NO_TOKEN then 1 else 0)
    && next.materializations == st.materializations
  }

  lemma UpdatedItems(cfg: Config, st: Store, next: Store, moved: WorkItem, e: AuditEvent, issued: Token)
    requires ItemsInv(cfg, st) && TokensInv(st) && MaterializationInv(st)
    requires Updated(st, next, moved, e, issued) && Effect(cfg, st, st.workItems[moved.id], moved, e, issued)
    ensures ItemsInv(cfg, next) && TokensInv(next) && MaterializationInv(next)
  {
    hide GateOk, LegalMove, CompletedItem;
  }

  lemma UpdatedAudit(cfg: Config, st: Store, next: Store, moved: WorkItem, e: AuditEvent, issued: Token)
    requires AuditInv(st)
    requires Updated(st, next, moved, e, issued) && Effect(cfg, st, st.workItems[moved.id], moved, e, issued)
    ensures AuditInv(next)
  {
    hide ItemOk, LegalMove, CompletedItem, Trail, CompletionRank;
    forall id
      ensures Trail(next.events, id) == Trail(st.events, id) + if id == moved.id then [e] else []
      ensures id != moved.id && CompletionRank(st.events, id) == |st.events| ==> CompletionRank(next.events, id) == |next.events|
    {
      Appended(st.events, e, id);
    }
    var item := st.workItems[moved.id];
    var trail := Trail(st.events, moved.id);
    assert Unbroken(trail, StateVersion(item.state, item.version));
    assert Unbroken(trail + [e], StateVersion(moved.state, moved.version));
  }

  lemma UpdatedDependencies(cfg: Config, st: Store, next: Store, moved: WorkItem, e: AuditEvent, issued: Token)
    requires DependencyInv(st)
    requires Updated(st, next, moved, e, issued) && Effect(cfg, st, st.workItems[moved.id], moved, e, issued)
    ensures DependencyInv(next)
  {
    hide ItemOk, LegalMove, CompletionRank;
    var item := st.workItems[moved.id];
    assert Started(item.state) ==> DependenciesDone(st, item, CompletionRank(st.events, moved.id));
    assert CompletionRank(st.events, moved.id) >= |st.events|;
    forall id | id in next.workItems
      ensures next.workItems[id].state == Completed <==> CompletionRank(next.events, id) < |next.events|
      ensures Started(next.workItems[id].state) ==> DependenciesDone(next, next.workItems[id], CompletionRank(next.events, id))
    {
      Appended(st.events, e, id);
      if Started(next.workItems[id].state) {
        var dependencies := next.workItems[id].dependencies;
        forall i | 0 <= i < |dependencies|
          ensures dependencies[i].id in next.workItems
          ensures next.workItems[dependencies[i].id].state == Completed
          ensures CompletionRank(next.events, dependencies[i].id) < CompletionRank(next.events, id)
        {
          var d := dependencies[i].id;
          Appended(st.events, e, d);
          assert d in st.workItems && st.workItems[d].state == Completed && CompletionRank(st.events, d) < |st.events|;
        }
      }
    }
  }

  lemma UpdateKeeps(cfg: Config, st: Store, next: Store, moved: WorkItem, e: AuditEvent, issued: Token)
    requires LifecycleInv(cfg, st)
    requires Updated(st, next, moved, e, issued) && Effect(cfg, st, st.workItems[moved.id], moved, e, issued)
    ensures LifecycleInv(cfg, next)
  {
    hide ItemsInv, TokensInv, DependencyInv, AuditInv, MaterializationInv, Effect, Updated;
    UpdatedItems(cfg, st, next, moved, e, issued);
    UpdatedAudit(cfg, st, next, moved, e, issued);
    UpdatedDependencies(cfg, st, next, moved, e, issued);
  }

  // ----- a materialization -----

  ghost predicate Created(cfg: Config, st: Store, next: Store, item: WorkItem, e: AuditEvent) {
    && item.id !in st.workItems
    && next.workItems == st.workItems[item.id := item]
    && next.events == st.events + [e]
    && next.nextToken == st.nextToken
    && item.materializationKey !in st.materializations
    && item.materializationKey in next.materializations
    && next.materializations == st.materializations[item.materializationKey := next.materializations[item.materializationKey]]
    && next.materializations[item.materializationKey].result.workItemId == item.id
    && ItemOk(cfg.projectId, item)
    && item.state in {Waiting, ReadyForBuilding, Blocked}
    && LegalMove(e)
    && e.workItemId == item.id
    && e.before == Some(StateVersion(Initial, 0))
    && e.after == Some(StateVersion(item.state, item.version))
    && (Started(item.state) ==> forall i | 0 <= i < |item.dependencies| :: CompletedItem(cfg, st, item.dependencies[i].id))
  }

  lemma CreatedItems(cfg: Config, st: Store, next: Store, item: WorkItem, e: AuditEvent)
    requires ItemsInv(cfg, st) && TokensInv(st) && MaterializationInv(st)
    requires Created(cfg, st, next, item, e)
    ensures ItemsInv(cfg, next) && TokensInv(next) && MaterializationInv(next)
  {
    hide GateOk, LegalMove, CompletedItem;
  }

  lemma CreatedUnleased(cfg: Config, st: Store, next: Store, item: WorkItem, e: AuditEvent)
    requires Created(cfg, st, next, item, e)
    ensures item.lease.None?
  {
    hide GateOk, LegalMove, CompletedItem;
  }

  lemma FirstEvent(e: AuditEvent, end: StateVersion)
    requires LegalMove(e) && e.before == Some(StateVersion(Initial, 0)) && e.after == Some(end)
    ensures Unbroken([e], end)
  {
    hide LegalMove;
  }

  lemma CreatedAudit(cfg: Config, st: Store, next: Store, item: WorkItem, e: AuditEvent)
    requires AuditInv(st)
    requires Created(cfg, st, next, item, e)
    ensures AuditInv(next)
  {
    hide ItemOk, LegalMove, CompletedItem, Trail, CompletionRank, Unbroken;
    FirstEvent(e, StateVersion(item.state, item.version));
    forall id
      ensures Trail(next.events, id) == if id == item.id then Trail(st.events, id) + [e] else Trail(st.events, id)
      ensures id != item.id && CompletionRank(st.events, id) == |st.events| ==> CompletionRank(next.events, id) == |next.events|
    {
      Appended(st.events, e, id);
    }
    assert Trail(next.events, item.id) == [e];
  }

  lemma CreatedDependencies(cfg: Config, st: Store, next: Store, item: WorkItem, e: AuditEvent)
    requires DependencyInv(st) && AuditInv(st)
    requires Created(cfg, st, next, item, e)
    ensures DependencyInv(next)
  {
    hide ItemOk, LegalMove, CompletionRank, Trail, Unbroken;
    forall id | id in next.workItems
      ensures next.workItems[id].state == Completed <==> CompletionRank(next.events, id) < |next.events|
      ensures Started(next.workItems[id].state) ==> DependenciesDone(next, next.workItems[id], CompletionRank(next.events, id))
    {
      Appended(st.events, e, id);
      if Started(next.workItems[id].state) {
        var dependencies := next.workItems[id].dependencies;
        forall i | 0 <= i < |dependencies|
          ensures dependencies[i].id in next.workItems
          ensures next.workItems[dependencies[i].id].state == Completed
          ensures CompletionRank(next.events, dependencies[i].id) < CompletionRank(next.events, id)
        {
          var d := dependencies[i].id;
          Appended(st.events, e, d);
          assert d in st.workItems && st.workItems[d].state == Completed && CompletionRank(st.events, d) < |st.events|;
        }
      }
    }
  }

  lemma CreateKeeps(cfg: Config, st: Store, next: Store, item: WorkItem, e: AuditEvent)
    requires LifecycleInv(cfg, st)
    requires Created(cfg, st, next, item, e)
    ensures LifecycleInv(cfg, next)
  {
    hide ItemsInv, TokensInv, DependencyInv, AuditInv, MaterializationInv, Created;
    CreatedItems(cfg, st, next, item, e);
    CreatedAudit(cfg, st, next, item, e);
    CreatedDependencies(cfg, st, next, item, e);
  }
}
