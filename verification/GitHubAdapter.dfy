/** The GitHub adapter: work items and requests kept in issues, behind in-process indexes
    that are lost on restart. The Coordinator's lock makes each operation one step, whatever
    number of adapters share it.

    Every write is proved, where it is made, to be one the adapter is entitled to. */
module GitHubAdapter {
  import opened Records
  import opened Authorization
  import opened Evaluator
  import opened MemoryStore
  import opened MemoryItems
  import opened MemorySteps
  import opened MemoryRequests
  import opened GitHubStore
  import opened GitHubClient
  import opened GitHubWrites
  import Text

  datatype KeyUse = LifecycleUse(fingerprint: Fingerprint) | CallUse(call: CallFingerprint)

  datatype KeyEntry = KeyEntry(use: KeyUse, result: Result)

  datatype BindingEntry = BindingEntry(source: WorkItem, result: Result, number: nat)

  // ----- answers -----

  function Unavailable(operation: Operation): (r: Result) {
    RefusedResult(operation, WmsUnavailable)
  }

  function UnknownResult(operation: Operation): (r: Result) {
    RefusedResult(operation, UnknownMutation).(mutation := MutationUnknown)
  }

  /** Determinate answers are frozen under their key; the others can be retried under it. */
  predicate ShouldRemember(result: Result) {
    result.mutation != MutationUnknown && result.error != Some(WmsUnavailable)
  }

  function ItemReplay(item: WorkItem): (r: Result) {
    MarkReplayed(AppliedResult(Materialize).(workItemId := item.id, workItemState := item.state, contractVersion := item.version,
                                             item := Some(item)))
  }

  function OmittedReplay(): (r: Result) {
    AppliedResult(Materialize).(submission := "omitted")
  }

  function EntryFor(found: Scanned): (entry: BindingEntry)
    requires !found.doc.RequestDoc?
  {
    BindingEntry(found.doc.source, if found.doc.ItemDoc? then ItemReplay(found.doc.item) else OmittedReplay(), found.number)
  }

  /** The answer an applied claim must have had, rebuilt from its durable record. */
  function ClaimReplay(request: Request, item: WorkItem, claim: ClaimRecord): (r: Result)
    ensures r.ok && r.outcome == Replayed && r.mutation == MutationNone && r.workItemId == item.id && r.error.None?
    ensures claim.token != NO_TOKEN ==> r.decision.Some? && r.decision.value.tokenIssued == claim.token
  {
    var result := AppliedResult(request.operation).(workItemId := item.id, workItemState := item.state, contractVersion := item.version,
                                                    item := Some(item));
    MarkReplayed(
      if claim.token == NO_TOKEN then result
      else
        result.(decision := Some(Decision(
          Allowed, false, Authoritative, "", request.operation,
          Some(StateVersion(request.expectedState, if request.expectedVersion.Some? then request.expectedVersion.value else 0)),
          Some(StateVersion(item.state, item.version)), None, claim.token, None))))
  }

  function Normalized(cfg: Config, call: Call, auth: AuthorizationContext, given: Payload): (request: Request)
    ensures request.operation == call.operation && request.projectId == cfg.projectId && request.authorization == auth
    ensures request.idempotencyKey == call.idempotencyKey && (call.operation != Materialize ==> request.workItemId == call.workItemId)
    ensures request.payload.workItem == given.workItem
  {
    var payload := given.(humanApprovalId := if call.humanApprovalId != "" then call.humanApprovalId else given.humanApprovalId);
    Request(
      call.operation,
      cfg.projectId,
      if call.operation == Materialize && call.workItemId == "" && payload.workItem.Some? then payload.workItem.value.id
      else call.workItemId,
      MaterializationKey(call, payload),
      call.idempotencyKey,
      call.expectedState,
      call.expectedVersion,
      call.fencingToken,
      LifecycleReferences(call.operation, auth.role, payload),
      payload,
      auth)
  }

  // ----- what the indexes may hold -----

  ghost predicate ItemIndexOk(projectId: string, index: map<string, nat>, issues: Issues) {
    forall id | id in index :: index[id] in issues && IsItem(issues[index[id]], projectId, id)
  }

  ghost predicate RequestIndexOk(projectId: string, index: map<RequestId, nat>, issues: Issues) {
    forall id | id in index :: index[id] in issues && IsRequest(issues[index[id]], projectId, id)
  }

  ghost predicate BindingsOk(projectId: string, index: map<string, BindingEntry>, issues: Issues) {
    forall key | key in index ::
      && index[key].number in issues
      && BindsKey(issues[index[key].number], projectId, key)
      && issues[index[key].number].source == index[key].source
      && Names(index[key].result, issues[index[key].number])
  }

  /** The answer recorded for a materialization key: the one remembered, else the one the
      document that holds it gives. */
  function BindingAnswer(bindings: map<string, BindingEntry>, key: string, doc: Doc): (result: Result)
    requires !doc.RequestDoc?
  {
    if key in bindings then bindings[key].result
    else if doc.ItemDoc? then ItemReplay(doc.item)
    else OmittedReplay()
  }

  ghost predicate ApprovalsOk(gate: Gate, approvals: map<string, Approval>) {
    && "" !in approvals
    && forall id | id in approvals :: gate(id) == (approvals[id].projectId, approvals[id].requestId)
  }

  predicate MaterializeUse(use: KeyUse) {
    use.LifecycleUse? && use.fingerprint.LifecycleFingerprint? && use.fingerprint.request.operation == Materialize
  }

  /** Nothing but a materialization is ever recorded as unanswered. */
  ghost predicate KeysOk(keys: map<string, KeyEntry>) {
    forall key | key in keys && keys[key].result.error == Some(WmsUnavailable) :: MaterializeUse(keys[key].use)
  }

  /** The key of a materialization whose binding could not be read when it was first used. */
  predicate Frozen(keys: map<string, KeyEntry>, key: string) {
    key in keys && keys[key].result.error == Some(WmsUnavailable) && MaterializeUse(keys[key].use)
  }

  /** A recorded key answers for the call it was recorded for, and refuses any other. */
  ghost predicate KeyAnswered(keys: map<string, KeyEntry>, key: string, use: KeyUse, result: Result) {
    key in keys ==>
      if keys[key].use == use then result == MarkReplayed(keys[key].result)
      else result.error == Some(IdempotencyConflict("request-fingerprint", key))
  }

  /** A call records its answer under its key, or nothing; a recorded key keeps its record. */
  ghost predicate Recorded(before: map<string, KeyEntry>, after: map<string, KeyEntry>, key: string, use: KeyUse, result: Result) {
    after == before || (key !in before && after == before[key := KeyEntry(use, result)])
  }

  /** The indexes of any adapter outlive the writes of any other. */
  lemma IndexesStay(
    projectId: string, items: map<string, nat>, requests: map<RequestId, nat>, bindings: map<string, BindingEntry>, a: Issues, b: Issues
  )
    requires Evolves(a, b)
    ensures ItemIndexOk(projectId, items, a) ==> ItemIndexOk(projectId, items, b)
    ensures RequestIndexOk(projectId, requests, a) ==> RequestIndexOk(projectId, requests, b)
    ensures BindingsOk(projectId, bindings, a) ==> BindingsOk(projectId, bindings, b)
  {
  }

  lemma LogEvolves(hub: Hub, log: seq<Write>)
    requires hub.Valid() && log <= hub.log
    ensures Evolves(After(log), hub.issues)
  {
    hide Evolves, After;
    assert hub.log[..|log|] == log && hub.log[..|hub.log|] == hub.log;
    EveryLogEvolves(hub.gate, hub.log, |log|, |hub.log|);
  }

  ghost predicate KeyBound(issues: Issues, projectId: string, key: string) {
    exists n | n in issues :: BindsKey(issues[n], projectId, key)
  }

  /** A work item of this source holds the key. */
  ghost predicate KeyBoundBy(issues: Issues, projectId: string, key: string, source: WorkItem) {
    exists n | n in issues :: BindsKey(issues[n], projectId, key) && issues[n].ItemDoc? && issues[n].source == source
  }

  lemma OnlyBinder(issues: Issues, projectId: string, key: string, source: WorkItem, n: nat)
    requires Sound(issues) && n in issues && BindsKey(issues[n], projectId, key)
    ensures KeyBoundBy(issues, projectId, key, source) <==> issues[n].ItemDoc? && issues[n].source == source
  {
    hide DocOk;
    if m :| m in issues && BindsKey(issues[m], projectId, key) && issues[m].ItemDoc? && issues[m].source == source {
      assert m != n ==> Apart(issues[m], issues[n]);
    }
  }

  /** The claim is already durable, on the record the request names. */
  ghost predicate ClaimStands(issues: Issues, projectId: string, request: Request, n: nat) {
    && n in issues
    && IsItem(issues[n], projectId, request.workItemId)
    && issues[n].lastClaim.Some?
    && issues[n].lastClaim.value.operation == request.operation
    && issues[n].lastClaim.value.key == request.idempotencyKey
    && issues[n].lastClaim.value.fingerprint == FingerprintOf(request)
  }

  predicate Keeps<K, V(==)>(before: map<K, V>, after: map<K, V>) {
    forall k | k in before :: k in after && after[k] == before[k]
  }

  /** The operations it takes to look up a work item, and the dependencies of one. */
  function Lookup(id: string): (count: nat) {
    if id == "" then 0 else 1
  }

  function Lookups(dependencies: seq<Dependency>): (count: nat) {
    if dependencies == [] then 0
    else Lookups(dependencies[..|dependencies| - 1]) + Lookup(dependencies[|dependencies| - 1].id)
  }

  lemma NoLookups()
    ensures Lookups([]) == 0
  {
  }

  lemma {:induction false} LookupsGrow(dependencies: seq<Dependency>, i: nat)
    requires i < |dependencies|
    ensures Lookups(dependencies[..i + 1]) == Lookups(dependencies[..i]) + Lookup(dependencies[i].id)
    ensures Lookups(dependencies[..i + 1]) <= Lookups(dependencies)
  {
    assert dependencies[..i + 1][..i] == dependencies[..i];
    if i + 1 < |dependencies| {
      var init := dependencies[..|dependencies| - 1];
      assert init[..i + 1] == dependencies[..i + 1] && init[..i] == dependencies[..i];
      LookupsGrow(init, i);
    } else {
      assert dependencies[..i + 1] == dependencies;
    }
  }

  lemma FinePart(plan: Plan, from: nat, mid: nat, to: nat)
    requires from <= mid <= to
    ensures AllFine(plan, from, to) <==> AllFine(plan, from, mid) && AllFine(plan, mid, to)
  {
  }

  /** The operations before a lifecycle command is judged. */
  function LookupsFor(request: Request): (count: nat) {
    Lookup(request.workItemId) +
    if request.operation == Materialize && request.payload.workItem.Some? then Lookups(request.payload.workItem.value.dependencies) else 0
  }

  /** The scan for the binding of a materialization, were it the next operation, fails. */
  ghost predicate BindingUnread(plan: Plan, ops: nat, bindings: map<string, BindingEntry>, request: Request) {
    && request.operation == Materialize && request.payload.workItem.Some?
    && request.materializationKey != "" && request.materializationKey !in bindings
    && !plan(ops).Fine?
  }

  /** Its work item and dependencies can be looked up, and then the scan for its binding fails. */
  ghost predicate Unreadable(plan: Plan, ops: nat, bindings: map<string, BindingEntry>, request: Request) {
    AllFine(plan, ops, ops + LookupsFor(request)) && BindingUnread(plan, ops + LookupsFor(request), bindings, request)
  }

  /** The record as the durable store holds it, if it does. */
  ghost predicate StoredAs(issues: Issues, projectId: string, id: string, current: Option<WorkItem>) {
    if current.Some? then exists n | n in issues :: IsItem(issues[n], projectId, id) && issues[n].item == current.value
    else forall n | n in issues :: !IsItem(issues[n], projectId, id)
  }

  /** The answer is the evaluator's decision on the durable record and exactly the dependencies
      that are to be seen for it. */
  ghost predicate Decided(issues: Issues, projectId: string, request: Request, base: EvaluationContext, result: Result) {
    exists current: Option<WorkItem>, seen: Option<seq<Dependency>> ::
      && StoredAs(issues, projectId, request.workItemId, current) && SeenFor(issues, projectId, request, current, seen)
      && result.decision == Some(Evaluate(request, current, base.(refreshDependencies := seen)))
  }

  function BaseContext(now: Time, issued: nat, approvals: map<string, Approval>): (base: EvaluationContext) {
    EvaluationContext(Authoritative, now, issued + 1, approvals, map[], None, None, None)
  }

  lemma IsDecided(
    issues: Issues, projectId: string, request: Request, base: EvaluationContext, current: Option<WorkItem>, evaluation: EvaluationContext,
    result: Result
  )
    requires StoredAs(issues, projectId, request.workItemId, current)
    requires SeenFor(issues, projectId, request, current, evaluation.refreshDependencies)
    requires evaluation == base.(refreshDependencies := evaluation.refreshDependencies)
    requires result.decision == Some(Evaluate(request, current, evaluation))
    ensures Decided(issues, projectId, request, base, result)
  {
    hide Evaluate, StoredAs, SeenFor;
  }

  class Adapter {
    const cfg: Config
    const hub: Hub
    var requestIssue: map<RequestId, nat>
    var workItemIssue: map<string, nat>
    var bindings: map<string, BindingEntry>
    var idempotency: map<string, KeyEntry>
    var semanticRequests: map<SemanticKey, RequestId>
    var pendingCreate: map<string, RequestId>
    var changeSets: map<string, ChangeSet>
    var approvals: map<string, Approval>
    var nextRequestSeq: nat
    var nextFenceSeq: nat
    var requestsHydrated: bool

    ghost predicate Valid()
      reads this, hub`issues, hub`next, hub`log
    {
      && hub.Valid()
      && ItemIndexOk(cfg.projectId, workItemIssue, hub.issues)
      && RequestIndexOk(cfg.projectId, requestIssue, hub.issues)
      && BindingsOk(cfg.projectId, bindings, hub.issues)
      && ApprovalsOk(hub.gate, approvals)
      && KeysOk(idempotency)
    }

    /** A started, or restarted, adapter knows nothing. */
    constructor (cfg: Config, hub: Hub)
      requires hub.Valid()
      ensures Valid() && this.cfg == cfg && this.hub == hub
      ensures idempotency == map[] && bindings == map[] && pendingCreate == map[] && semanticRequests == map[] && nextRequestSeq == 0
    {
      this.cfg, this.hub := cfg, hub;
      requestIssue, workItemIssue, bindings, idempotency := map[], map[], map[], map[];
      semanticRequests, pendingCreate, changeSets, approvals := map[], map[], map[], map[];
      nextRequestSeq, nextFenceSeq, requestsHydrated := 0, 0, false;
    }

    // ----- reading the durable store -----

    /** The documents of this project under a label. */
    method ListStored(requests: bool) returns (reply: Reply<seq<Scanned>>)
      modifies hub`ops
      ensures reply.Ok? ==>
                && (forall s | s in reply.value ::
                      && s.number in hub.issues && hub.issues[s.number] == s.doc
                      && s.doc.RequestDoc? == requests && s.doc.projectId == cfg.projectId)
                && (forall n | n in hub.issues && hub.issues[n].RequestDoc? == requests && hub.issues[n].projectId == cfg.projectId ::
                      Scanned(n, hub.issues[n]) in reply.value)
      ensures !reply.Missing?
      ensures hub.ops == old(hub.ops) + 1 && (reply.Ok? <==> hub.plan(old(hub.ops)).Fine?)
      ensures hub.Faults() >= old(hub.Faults()) && (!reply.Ok? ==> hub.Faults() > old(hub.Faults()))
    {
      reply := hub.List(requests);
      if reply.Ok? {
        var all, docs: seq<Scanned> := reply.value, [];
        for i := 0 to |all|
          invariant forall s | s in docs :: s in all[..i] && s.doc.projectId == cfg.projectId
          invariant forall s | s in all[..i] && s.doc.projectId == cfg.projectId :: s in docs
        {
          if all[i].doc.projectId == cfg.projectId {
            docs := docs + [all[i]];
          }
        }
        assert all[..|all|] == all;
        reply := Ok(docs);
      }
    }

    method FirstMatch(docs: seq<Scanned>, matches: Doc -> bool) returns (found: Option<Scanned>)
      ensures found.Some? ==> found.value in docs && matches(found.value.doc)
      ensures found.None? ==> forall s | s in docs :: !matches(s.doc)
    {
      for i := 0 to |docs|
        invariant forall j | 0 <= j < i :: !matches(docs[j].doc)
      {
        if matches(docs[i].doc) {
          return Some(docs[i]);
        }
      }
      found := None;
    }

    /** The durable binding of a materialization key; missing only if there is none. */
    method FindBinding(key: string) returns (reply: Reply<Scanned>)
      requires Valid()
      modifies hub`ops
      ensures Valid()
      ensures reply.Ok? ==> reply.value.number in hub.issues && hub.issues[reply.value.number] == reply.value.doc
                            && BindsKey(reply.value.doc, cfg.projectId, key)
      ensures reply.Missing? ==> forall n | n in hub.issues :: !BindsKey(hub.issues[n], cfg.projectId, key)
      ensures hub.ops == old(hub.ops) + Lookup(key)
      ensures reply.Transient? || reply.Hard? <==> key != "" && !hub.plan(old(hub.ops)).Fine?
      ensures hub.ops >= old(hub.ops) && hub.Faults() >= old(hub.Faults()) && (reply.Transient? || reply.Hard? ==> hub.Faults() > old(hub.Faults()))
    {
      DurableIsSound();
      if key == "" {
        return Missing;
      }
      var docs := ListStored(false);
      if !docs.Ok? {
        return if docs.Transient? then Transient else Hard;
      }
      assert forall n | n in hub.issues && BindsKey(hub.issues[n], cfg.projectId, key) :: Scanned(n, hub.issues[n]) in docs.value;
      var found := FirstMatch(docs.value, (doc: Doc) => !doc.RequestDoc? && doc.key == key);
      reply := if found.Some? then Ok(found.value) else Missing;
    }

    method FindItem(id: string) returns (reply: Reply<Scanned>)
      requires Valid()
      modifies hub`ops
      ensures Valid()
      ensures reply.Ok? ==> reply.value.number in hub.issues && hub.issues[reply.value.number] == reply.value.doc
                            && IsItem(reply.value.doc, cfg.projectId, id)
      ensures reply.Missing? ==> forall n | n in hub.issues :: !IsItem(hub.issues[n], cfg.projectId, id)
      ensures hub.ops == old(hub.ops) + Lookup(id)
      ensures reply.Transient? || reply.Hard? <==> id != "" && !hub.plan(old(hub.ops)).Fine?
      ensures hub.ops >= old(hub.ops) && hub.Faults() >= old(hub.Faults()) && (reply.Transient? || reply.Hard? ==> hub.Faults() > old(hub.Faults()))
    {
      DurableIsSound();
      if id == "" {
        return Missing;
      }
      var docs := ListStored(false);
      if !docs.Ok? {
        return if docs.Transient? then Transient else Hard;
      }
      assert forall n | n in hub.issues && IsItem(hub.issues[n], cfg.projectId, id) :: Scanned(n, hub.issues[n]) in docs.value;
      var found := FirstMatch(docs.value, (doc: Doc) => doc.ItemDoc? && doc.item.id == id);
      reply := if found.Some? then Ok(found.value) else Missing;
    }

    method FindRequest(id: RequestId) returns (reply: Reply<Scanned>)
      requires Valid()
      modifies hub`ops
      ensures Valid()
      ensures reply.Ok? ==> reply.value.number in hub.issues && hub.issues[reply.value.number] == reply.value.doc
                            && IsRequest(reply.value.doc, cfg.projectId, id)
      ensures reply.Missing? ==> forall n | n in hub.issues :: !IsRequest(hub.issues[n], cfg.projectId, id)
      ensures hub.ops == old(hub.ops) + (if id == 0 then 0 else 1)
      ensures reply.Transient? || reply.Hard? <==> id != 0 && !hub.plan(old(hub.ops)).Fine?
      ensures hub.ops >= old(hub.ops) && hub.Faults() >= old(hub.Faults()) && (reply.Transient? || reply.Hard? ==> hub.Faults() > old(hub.Faults()))
    {
      DurableIsSound();
      if id == 0 {
        return Missing;
      }
      var docs := ListStored(true);
      if !docs.Ok? {
        return if docs.Transient? then Transient else Hard;
      }
      assert forall n | n in hub.issues && IsRequest(hub.issues[n], cfg.projectId, id) :: Scanned(n, hub.issues[n]) in docs.value;
      var found := FirstMatch(docs.value, (doc: Doc) => doc.RequestDoc? && doc.request.id == id);
      reply := if found.Some? then Ok(found.value) else Missing;
    }

    /** Loads a work item, through the index or by a scan. Missing means there is none. */
    method LoadItem(id: string) returns (reply: Reply<Scanned>)
      requires Valid()
      modifies this`workItemIssue, hub`ops
      ensures Valid() && Keeps(old(workItemIssue), workItemIssue)
      ensures reply.Ok? ==> reply.value.number in hub.issues && hub.issues[reply.value.number] == reply.value.doc
                            && IsItem(reply.value.doc, cfg.projectId, id)
                            && id in workItemIssue && workItemIssue[id] == reply.value.number
      ensures reply.Missing? ==> forall n | n in hub.issues :: !IsItem(hub.issues[n], cfg.projectId, id)
      ensures id != "" ==> hub.ops == old(hub.ops) + 1 && (reply.Transient? || reply.Hard? <==> !hub.plan(old(hub.ops)).Fine?)
      ensures hub.ops >= old(hub.ops) && hub.Faults() >= old(hub.Faults()) && (reply.Transient? || reply.Hard? ==> hub.Faults() > old(hub.Faults()))
    {
      if id !in workItemIssue {
        reply := FindItem(id);
        if reply.Ok? {
          workItemIssue := workItemIssue[id := reply.value.number];
        }
        return;
      }
      var number := workItemIssue[id];
      var doc := hub.Get(number);
      match doc {
        case Ok(d) => 
          reply := if !d.ItemDoc? then Hard else if d.projectId != cfg.projectId || d.item.id != id then Missing else Ok(Scanned(number, d));
        case Missing => reply := Missing;
        case Transient => reply := Transient;
        case Hard => reply := Hard;
      }
    }

    method TryLoadItem(id: string) returns (reply: Reply<Scanned>)
      requires Valid()
      modifies this`workItemIssue, hub`ops
      ensures Valid() && Keeps(old(workItemIssue), workItemIssue)
      ensures reply.Ok? ==> reply.value.number in hub.issues && hub.issues[reply.value.number] == reply.value.doc
                            && IsItem(reply.value.doc, cfg.projectId, id)
                            && id in workItemIssue && workItemIssue[id] == reply.value.number
      ensures reply.Missing? ==> forall n | n in hub.issues :: !IsItem(hub.issues[n], cfg.projectId, id)
      ensures hub.ops == old(hub.ops) + Lookup(id)
      ensures reply.Transient? || reply.Hard? <==> id != "" && !hub.plan(old(hub.ops)).Fine?
      ensures hub.ops >= old(hub.ops) && hub.Faults() >= old(hub.Faults()) && (reply.Transient? || reply.Hard? ==> hub.Faults() > old(hub.Faults()))
    {
      if id == "" {
        DurableIsSound();
        return Missing;
      }
      reply := LoadItem(id);
    }

    /** The states of a record's dependencies; inconclusive loads give no answer. */
    method ObservedDependencies(item: WorkItem) returns (seen: Option<seq<Dependency>>)
      requires Valid()
      modifies this`workItemIssue, hub`ops
      ensures Valid() && Keeps(old(workItemIssue), workItemIssue)
      ensures seen.Some? ==> Observes(hub.issues, cfg.projectId, item.dependencies, seen)
      ensures seen.Some? <==> AllFine(hub.plan, old(hub.ops), old(hub.ops) + Lookups(item.dependencies))
      ensures seen.Some? ==> hub.ops == old(hub.ops) + Lookups(item.dependencies)
      ensures hub.ops >= old(hub.ops) && hub.Faults() >= old(hub.Faults()) && (seen.None? ==> hub.Faults() > old(hub.Faults()))
    {
      hide Hub.Valid, Adapter.Valid, Shows, Failures, Lookups;
      NoLookups();
      var dependencies: seq<Dependency> := [];
      for i := 0 to |item.dependencies|
        invariant Valid() && Keeps(old(workItemIssue), workItemIssue) && hub.ops >= old(hub.ops) && hub.Faults() >= old(hub.Faults())
        invariant |dependencies| == i
        invariant hub.ops == old(hub.ops) + Lookups(item.dependencies[..i]) && AllFine(hub.plan, old(hub.ops), hub.ops)
        invariant forall j | 0 <= j < i ::
                    dependencies[j].id == item.dependencies[j].id && Shows(hub.issues, cfg.projectId, dependencies[j])
      {
        LookupsGrow(item.dependencies, i);
        var observed := TryLoadItem(item.dependencies[i].id);
        match observed {
          case Ok(found) =>
            Shown(hub.issues, cfg.projectId, item.dependencies[i].id, found.number);
            dependencies := dependencies + [Dependency(item.dependencies[i].id, found.doc.item.state)];
          case Missing =>
            ShownMissing(hub.issues, cfg.projectId, item.dependencies[i].id);
            dependencies := dependencies + [Dependency(item.dependencies[i].id, Initial)];
          case Transient => return None;
          case Hard => return None;
        }
      }
      assert item.dependencies[..|item.dependencies|] == item.dependencies;
      seen := Some(dependencies);
    }

    // ----- keys -----

    method Remember(key: string, use: KeyUse, result: Result)
      requires Valid() && (ShouldRemember(result) || MaterializeUse(use))
      modifies this`idempotency
      ensures Valid() && idempotency == old(idempotency)[key := KeyEntry(use, result)]
    {
      hide ItemIndexOk, RequestIndexOk, BindingsOk, ApprovalsOk, Hub.Valid;
      idempotency := idempotency[key := KeyEntry(use, result)];
    }

    /** The binding of a materialization key, cached or found; missing only if there is none. */
    method LoadBinding(key: string) returns (reply: Reply<BindingEntry>)
      requires Valid()
      modifies this`bindings, hub`ops
      ensures Valid()
      ensures reply.Ok? ==>
                && reply.value.number in hub.issues && BindsKey(hub.issues[reply.value.number], cfg.projectId, key)
                && hub.issues[reply.value.number].source == reply.value.source
                && Names(reply.value.result, hub.issues[reply.value.number])
                && reply.value.result == BindingAnswer(old(bindings), key, hub.issues[reply.value.number])
      ensures !reply.Ok? ==> bindings == old(bindings)
      ensures reply.Missing? ==> !KeyBound(hub.issues, cfg.projectId, key)
      ensures reply.Transient? || reply.Hard? <==> key != "" && key !in old(bindings) && !hub.plan(old(hub.ops)).Fine?
      ensures hub.ops >= old(hub.ops) && hub.Faults() >= old(hub.Faults()) && (reply.Transient? || reply.Hard? ==> hub.Faults() > old(hub.Faults()))
    {
      if key in bindings {
        return Ok(bindings[key]);
      }
      var found := FindBinding(key);
      match found {
        case Ok(binding) =>
          bindings := bindings[key := EntryFor(binding)];
          reply := Ok(bindings[key]);
        case Missing => reply := Missing;
        case Transient => reply := Transient;
        case Hard => reply := Hard;
      }
    }

    /** Create-or-return: the answer of a bound key, or why it is refused; nothing only if the
        key is free. `failed` says that the binding could not be read. */
    method CheckMaterialization(request: Request) returns (answer: Option<Result>, ghost failed: bool)
      requires Valid()
      modifies this`bindings, hub`ops
      ensures Valid()
      ensures answer.None? ==> request.payload.workItem.None? || !KeyBound(hub.issues, cfg.projectId, request.materializationKey)
      ensures answer.None? ==> bindings == old(bindings)
      ensures answer.Some? ==> answer.value.mutation == MutationNone && request.payload.workItem.Some?
      ensures answer.Some? && !failed ==> BoundAnswered(old(bindings), hub.issues, cfg.projectId, request, answer.value)
      ensures hub.ops >= old(hub.ops) && hub.Faults() >= old(hub.Faults()) && (failed ==> hub.Faults() > old(hub.Faults()))
      ensures failed <==> answer.Some? && !ShouldRemember(answer.value)
      ensures request.operation == Materialize ==> (failed <==> BindingUnread(hub.plan, old(hub.ops), old(bindings), request))
      ensures failed ==> answer.value.error == Some(WmsUnavailable) && answer.value.outcome == Refused
    {
      hide Hub.Faults, Hub.Valid, Adapter.Valid, RefusedDecision, BoundAnswered, BoundAnswer, BoundResult, Names, BindingAnswer;
      failed := false;
      if request.payload.workItem.None? {
        return None, false;
      }
      ghost var known := bindings;
      var entry := LoadBinding(request.materializationKey);
      RefusedDecisions(request);
      if entry.Missing? {
        return None, false;
      }
      if !entry.Ok? {
        return Some(RefusedDecision(request, WmsUnavailable)), true;
      }
      answer := Some(BoundResult(request, entry.value));
      BoundResultAnswers(known, request, entry.value, hub.issues[entry.value.number]);
      AnsweredBy(known, hub.issues, cfg.projectId, request, entry.value.number, answer.value);
    }

    /** Answers from a recorded key or a bound materialization key. Whatever a bound or
        unreadable materialization key answers is frozen under the idempotency key. */
    method ReplayLifecycle(request: Request) returns (answer: Option<Result>, ghost failed: bool)
      requires Valid()
      modifies this`idempotency, this`bindings, hub`ops
      ensures Valid()
      ensures answer.Some? ==> answer.value.mutation == MutationNone
      ensures answer.None? ==>
                && request.idempotencyKey !in old(idempotency) && idempotency == old(idempotency) && bindings == old(bindings)
                && (request.operation == Materialize && request.payload.workItem.Some? ==>
                      !KeyBound(hub.issues, cfg.projectId, request.materializationKey))
      ensures request.operation != Materialize && request.idempotencyKey !in old(idempotency) ==> answer.None?
      ensures request.idempotencyKey in old(idempotency) ==>
                && answer.Some? && idempotency == old(idempotency)
                && KeyAnswered(old(idempotency), request.idempotencyKey, LifecycleUse(FingerprintOf(request)), answer.value)
      ensures answer.Some? && request.idempotencyKey !in old(idempotency) ==>
                && idempotency == old(idempotency)[request.idempotencyKey := KeyEntry(LifecycleUse(FingerprintOf(request)), answer.value)]
                && (!failed ==> BoundAnswered(old(bindings), hub.issues, cfg.projectId, request, answer.value))
      ensures hub.ops >= old(hub.ops) && hub.Faults() >= old(hub.Faults()) && (failed ==> hub.Faults() > old(hub.Faults()))
      ensures failed <==> request.idempotencyKey !in old(idempotency) && Frozen(idempotency, request.idempotencyKey)
      ensures failed <==> request.idempotencyKey !in old(idempotency) && BindingUnread(hub.plan, old(hub.ops), old(bindings), request)
      ensures failed ==>
                request.operation == Materialize && request.payload.workItem.Some? && answer.Some? && answer.value.outcome == Refused
      ensures answer.Some? && !ShouldRemember(answer.value) ==>
                failed || (request.operation == Materialize && Frozen(old(idempotency), request.idempotencyKey))
      ensures request.operation != Materialize ==> hub.ops == old(hub.ops)
    {
      hide SourceOf, CanonicalSource, Hub.Valid, ItemIndexOk, RequestIndexOk, BindingsOk, ApprovalsOk, RefusedDecision, KeyBound,
           BoundAnswered;
      RefusedDecisions(request);
      failed := false;
      var use := LifecycleUse(FingerprintOf(request));
      if request.idempotencyKey in idempotency {
        var entry := idempotency[request.idempotencyKey];
        if entry.use == use {
          return Some(MarkReplayed(entry.result)), false;
        }
        return Some(RefusedDecision(request, IdempotencyConflict("request-fingerprint", request.idempotencyKey))), false;
      }
      if request.operation != Materialize {
        return None, false;
      }
      answer, failed := CheckMaterialization(request);
      if answer.Some? {
        Remember(request.idempotencyKey, use, answer.value);
      }
    }

    /** A claim that is already durable under this key and fingerprint is answered from its
        record. */
    method ReconcileClaim(request: Request, item: WorkItem) returns (answer: Option<Result>)
      requires Valid()
      requires item.id in workItemIssue && hub.issues[workItemIssue[item.id]].item == item && item.id == request.workItemId
      modifies hub`ops
      ensures answer.Some? ==>
                || answer.value == Unavailable(request.operation)
                || exists n | n in hub.issues ::
                     ClaimStands(hub.issues, cfg.projectId, request, n)
                     && answer.value == ClaimReplay(request, hub.issues[n].item, hub.issues[n].lastClaim.value)
      ensures answer.None? ==> !ClaimStands(hub.issues, cfg.projectId, request, workItemIssue[item.id])
      ensures hub.ops >= old(hub.ops) && hub.Faults() >= old(hub.Faults())
      ensures answer.Some? && !ShouldRemember(answer.value) ==> hub.Faults() > old(hub.Faults())
    {
      hide FingerprintOf, ClaimReplay, Unavailable;
      var number := workItemIssue[item.id];
      var doc := hub.Get(number);
      if !doc.Ok? {
        return Some(Unavailable(request.operation));
      }
      if !doc.value.ItemDoc? || doc.value.lastClaim.None? {
        return None;
      }
      var claim := doc.value.lastClaim.value;
      if claim.operation != request.operation || claim.key != request.idempotencyKey || claim.fingerprint != FingerprintOf(request) {
        return None;
      }
      assert ClaimStands(hub.issues, cfg.projectId, request, number);
      answer := Some(ClaimReplay(request, item, claim));
    }

    // ----- writing work items -----

    method CreateIssue(doc: Doc) returns (reply: Reply<nat>)
      requires Valid() && MayCreate(hub.issues, doc)
      modifies hub
      ensures Valid() && old(hub.log) <= hub.log && !reply.Missing?
      ensures reply.Ok? ==> reply.value !in old(hub.issues) && hub.issues == old(hub.issues)[reply.value := doc]
      ensures if IsMade(hub.plan(old(hub.ops))) then exists n: nat :: n !in old(hub.issues) && hub.issues == old(hub.issues)[n := doc]
              else hub.issues == old(hub.issues)
      ensures hub.ops == old(hub.ops) + 1 && Answers(hub.plan(old(hub.ops)), reply)
      ensures hub.ops >= old(hub.ops) && hub.Faults() >= old(hub.Faults()) && (!reply.Ok? ==> hub.Faults() > old(hub.Faults()))
    {
      hide MayCreate, After, ItemIndexOk, RequestIndexOk, BindingsOk, ApprovalsOk;
      ghost var log, issues := hub.log, hub.issues;
      reply := hub.Create(doc);
      StillValid(log, issues);
    }

    method AdvanceFence(issued: bool)
      requires Valid()
      modifies this`nextFenceSeq
      ensures Valid() && nextFenceSeq == old(nextFenceSeq) + if issued then 1 else 0
    {
      if issued {
        nextFenceSeq := nextFenceSeq + 1;
      }
    }

    /** Rewrites a work-item issue, keeping what the write does not set. */
    method UpdateItemIssue(number: nat, item: WorkItem, claim: Option<ClaimRecord>, requestId: RequestId, changeSetId: string)
      returns (reply: Reply<()>)
      requires Valid() && number in hub.issues && hub.issues[number].ItemDoc?
      requires MayUpdateItem(hub.issues[number], ItemDocAfter(hub.issues[number], item, claim, requestId, changeSetId))
      modifies hub
      ensures hub.Valid() && old(hub.log) <= hub.log
      ensures reply.Ok? ==>
                hub.issues == old(hub.issues)[number := ItemDocAfter(old(hub.issues)[number], item, claim, requestId, changeSetId)]
      ensures
        || hub.issues == old(hub.issues)
        || hub.issues == old(hub.issues)[number := ItemDocAfter(old(hub.issues)[number], item, claim, requestId, changeSetId)]
      ensures UpdateAnswers(hub.plan, old(hub.ops), reply)
      ensures !UpdateMade(hub.plan, old(hub.ops)) ==> hub.issues == old(hub.issues)
      ensures UpdateMade(hub.plan, old(hub.ops)) ==>
                hub.issues == old(hub.issues)[number := ItemDocAfter(old(hub.issues)[number], item, claim, requestId, changeSetId)]
      ensures hub.ops >= old(hub.ops) && hub.Faults() >= old(hub.Faults()) && (!reply.Ok? ==> hub.Faults() > old(hub.Faults()))
    {
      hide MayUpdateItem, ItemDocAfter, After, Entitled, ItemIndexOk, RequestIndexOk, BindingsOk, ApprovalsOk, KeysOk, Failures;
      var prior := hub.Get(number);
      match prior {
        case Ok(doc) => reply := hub.Update(number, ItemDocAfter(doc, item, claim, requestId, changeSetId));
        case Missing => reply := Missing;
        case Transient => reply := Transient;
        case Hard => reply := Hard;
      }
    }

    method BindItem(found: Scanned, result: Result)
      requires Valid() && found.number in hub.issues && hub.issues[found.number] == found.doc
      requires found.doc.ItemDoc? && found.doc.projectId == cfg.projectId && Names(result, found.doc)
      modifies this`workItemIssue, this`bindings
      ensures Valid()
    {
      workItemIssue := workItemIssue[found.doc.item.id := found.number];
      bindings := bindings[found.doc.key := BindingEntry(found.doc.source, result, found.number)];
    }

    /** After a create of unknown outcome: was a matching work item made after all? */
    method RebindMaterialization(key: string, source: WorkItem, given: Result) returns (bound: bool, result: Result)
      requires Valid() && given.ok && given.error.None? && given.mutation == MutationApplied && given.outcome == Applied && key != ""
      modifies this`workItemIssue, this`bindings, hub`ops
      ensures Valid()
      ensures bound ==> exists n | n in hub.issues ::
                          BindsKey(hub.issues[n], cfg.projectId, key) && hub.issues[n].ItemDoc? && hub.issues[n].source == source
      ensures bound <==> hub.plan(old(hub.ops)).Fine? && KeyBoundBy(hub.issues, cfg.projectId, key, source)
      ensures bound ==> exists n | n in hub.issues :: BindsKey(hub.issues[n], cfg.projectId, key) && ReportsDoc(result, hub.issues[n])
      ensures hub.ops >= old(hub.ops) && hub.Faults() >= old(hub.Faults())
      ensures result.decision == given.decision && result.mutation == MutationApplied && result.outcome == Applied && result.error.None?
    {
      hide Hub.Faults, Hub.Valid, Adapter.Valid, Failures, Sound;
      DurableIsSound();
      result := given;
      var found := FindBinding(key);
      if found.Ok? {
        OnlyBinder(hub.issues, cfg.projectId, key, source, found.value.number);
      }
      if !found.Ok? || !found.value.doc.ItemDoc? || found.value.doc.source != source {
        return false, given;
      }
      var item := found.value.doc.item;
      result := given.(workItemId := item.id, workItemState := item.state, contractVersion := item.version, item := Some(item));
      BindItem(found.value, result);
      bound := true;
      assert ReportsDoc(result, hub.issues[found.value.number]);
    }

    method CommitMaterialization(request: Request, decision: Decision, evaluation: EvaluationContext) returns (result: Result)
      requires Valid() && request.projectId == cfg.projectId
      requires IsNew(request, evaluation, decision) && decision.outcome == Allowed && decision.authority == Authoritative
      requires !KeyBound(hub.issues, cfg.projectId, request.materializationKey)
      requires forall n | n in hub.issues :: !IsItem(hub.issues[n], cfg.projectId, request.workItemId)
      requires request.operation == Materialize && Granted(hub.issues, cfg.projectId, request, None, decision, evaluation)
      modifies this`workItemIssue, this`bindings, hub
      ensures Valid() && old(hub.log) <= hub.log
      ensures Written(old(hub.issues), hub.issues, cfg, evaluation.time, request, result)
      ensures result.mutation == MutationApplied ==>
                exists n | n in hub.issues ::
                  && BindsKey(hub.issues[n], cfg.projectId, request.materializationKey)
                  && hub.issues[n].ItemDoc? && hub.issues[n].source == decision.reservation.value.source
      ensures result.mutation == MutationApplied ==>
                KeyBoundTo(hub.issues, cfg.projectId, request.materializationKey, decision.reservation.value.source)
      ensures CreateRan(hub.plan, old(hub.ops), old(hub.issues), hub.issues, result)
      ensures hub.ops >= old(hub.ops) && hub.Faults() >= old(hub.Faults())
      ensures result.mutation != MutationApplied ==> hub.Faults() > old(hub.Faults())
      ensures result.mutation == MutationApplied ==> result.decision == Some(decision) && ShouldRemember(result)
      ensures result.mutation != MutationApplied ==> !ShouldRemember(result)
      ensures result.outcome != Replayed
    {
      hide Hub.Faults, Hub.Valid, Adapter.Valid, MayCreate, NewItem, IsNew, ResultOfDecision, UnknownResult, Unavailable, CreateRan, KeyBoundBy,
           Granted, Written, NewDoc, SourceFor;
      ghost var n, before, found := hub.ops, hub.issues, false;
      NewKey(request, evaluation, decision);
      var key, source := request.materializationKey, decision.reservation.value.source;
      var item := NewItem(request, decision.after.value, evaluation);
      var doc := ItemDoc(cfg.projectId, item, key, source, 0, "", "", None);
      NewItemIsFresh(cfg.projectId, hub.issues, request, evaluation, decision, doc);
      GrantedNew(before, cfg.projectId, request, decision, evaluation);
      DecisionResult(request.operation, decision);
      Indeterminate(request.operation);
      result := ResultOfDecision(request.operation, decision);
      var created := CreateIssue(doc);
      NewBinding(before, hub.issues, doc, hub.plan(n), key, source);
      if created.Ok? {
        result := result.(workItemId := item.id, workItemState := item.state, contractVersion := item.version, item := Some(item));
        assert hub.issues[created.value] == doc && BindsKey(doc, cfg.projectId, key);
        BindItem(Scanned(created.value, doc), result);
      } else if created.Transient? {
        var bound, rebound := RebindMaterialization(key, source, result);
        result := if bound then rebound else UnknownResult(request.operation);
        found := bound;
        if bound {
          SoleBinding(before, hub.issues, doc, key, result);
        }
      } else {
        result := Unavailable(request.operation);
      }
      Ran(hub.plan, n, before, hub.issues, found, result);
      NewWritten(before, hub.issues, cfg, evaluation.time, request, doc, IsMade(hub.plan(n)), result);
    }

    /** A source that needs no implementation still reserves its key. */
    method CommitOmission(request: Request, decision: Decision, evaluation: EvaluationContext) returns (result: Result)
      requires Valid() && request.payload.workItem.Some? && request.materializationKey != ""
      requires decision.outcome == Omitted && decision.authority == Authoritative
      requires !KeyBound(hub.issues, cfg.projectId, request.materializationKey)
      requires request.operation == Materialize && Granted(hub.issues, cfg.projectId, request, None, decision, evaluation)
      modifies this`bindings, hub
      ensures Valid() && old(hub.log) <= hub.log
      ensures Written(old(hub.issues), hub.issues, cfg, evaluation.time, request, result)
      ensures result.mutation == MutationApplied ==>
                exists n | n in hub.issues ::
                  && BindsKey(hub.issues[n], cfg.projectId, request.materializationKey)
                  && hub.issues[n].OmittedDoc? && hub.issues[n].source == SourceFor(request)
      ensures result.mutation == MutationApplied ==> KeyBoundTo(hub.issues, cfg.projectId, request.materializationKey, SourceFor(request))
      ensures CreateRan(hub.plan, old(hub.ops), old(hub.issues), hub.issues, result)
      ensures hub.ops >= old(hub.ops) && hub.Faults() >= old(hub.Faults())
      ensures result.mutation != MutationApplied ==> hub.Faults() > old(hub.Faults())
      ensures result.mutation == MutationApplied ==> result.decision == Some(decision) && ShouldRemember(result)
      ensures result.mutation != MutationApplied ==> !ShouldRemember(result)
      ensures result.outcome != Replayed
    {
      hide Hub.Faults, CreateRan, Hub.Valid, Adapter.Valid, SourceOf, CanonicalSource, ResultOfDecision, UnknownResult, Unavailable,
           Granted, Written, NewDoc;
      ghost var n, before := hub.ops, hub.issues;
      var key, source := request.materializationKey, SourceOf(CanonicalSource(request.payload.workItem.value, request.payload.changeType));
      var doc := OmittedDoc(cfg.projectId, key, source);
      DecisionResult(request.operation, decision);
      Indeterminate(request.operation);
      result := ResultOfDecision(request.operation, decision).(submission := "omitted");
      assert MayCreate(hub.issues, doc);
      hide MayCreate;
      GrantedNew(before, cfg.projectId, request, decision, evaluation);
      var created := CreateIssue(doc);
      if created.Ok? {
        assert hub.issues[created.value] == doc && BindsKey(doc, cfg.projectId, key);
        BindOmitted(Scanned(created.value, doc), result);
      } else if created.Transient? {
        var found := FindBinding(key);
        if !found.Ok? || !found.value.doc.OmittedDoc? || found.value.doc.source != source {
          result := UnknownResult(request.operation);
          Ran(hub.plan, n, before, hub.issues, false, result);
          NewWritten(before, hub.issues, cfg, evaluation.time, request, doc, IsMade(hub.plan(n)), result);
          return;
        }
        BindOmitted(found.value, OmittedReplay());
      } else {
        result := Unavailable(request.operation);
      }
      Ran(hub.plan, n, before, hub.issues, created.Transient?, result);
      NewWritten(before, hub.issues, cfg, evaluation.time, request, doc, IsMade(hub.plan(n)), result);
    }

    method BindOmitted(found: Scanned, result: Result)
      requires Valid() && found.number in hub.issues && hub.issues[found.number] == found.doc
      requires found.doc.OmittedDoc? && found.doc.projectId == cfg.projectId && Names(result, found.doc)
      modifies this`bindings
      ensures Valid()
    {
      bindings := bindings[found.doc.key := BindingEntry(found.doc.source, result, found.number)];
    }

    /** The lease and the record of the claim are written together. */
    method CommitClaim(request: Request, item: WorkItem, decision: Decision, evaluation: EvaluationContext) returns (result: Result)
      requires Valid() && item.id in workItemIssue && hub.issues[workItemIssue[item.id]].item == item && item.id == request.workItemId
      requires request.operation == Claim && evaluation.nextToken != NO_TOKEN
      requires IsMove(item, request, evaluation, decision) && decision.outcome == Allowed && decision.authority == Authoritative
      requires Granted(hub.issues, cfg.projectId, request, Some(item), decision, evaluation)
      modifies hub
      ensures Valid() && old(hub.log) <= hub.log
      ensures Written(old(hub.issues), hub.issues, cfg, evaluation.time, request, result)
      ensures NewClaims(old(hub.issues), hub.issues, decision.tokenIssued)
      ensures result.mutation == MutationApplied ==>
                result.decision == Some(decision) && ClaimAnswered(hub.issues, cfg.projectId, request, result)
      ensures UpdateRan(hub.plan, old(hub.ops), old(hub.issues), hub.issues, result)
      ensures hub.ops >= old(hub.ops) && hub.Faults() >= old(hub.Faults())
      ensures result.mutation != MutationApplied ==> hub.Faults() > old(hub.Faults())
      ensures result.mutation == MutationApplied ==> ShouldRemember(result)
      ensures result.mutation != MutationApplied ==> !ShouldRemember(result)
      ensures result.outcome != Replayed
    {
      hide Hub.Faults, MayUpdateItem, IsMove, FingerprintOf, After, ResultOfDecision, UpdateRan, ItemIndexOk, RequestIndexOk, BindingsOk,
           ApprovalsOk, KeysOk, Granted, ClaimedDoc, Written, ItemDocAfter, Sound, Entitled, ClaimStands, Unavailable,
           UnknownResult, UpdateMade, UpdateAnswers, Failures;
      ghost var log, issues, n := hub.log, hub.issues, hub.ops;
      MoveHasAfter(item, request, evaluation, decision);
      hub.Soundness();
      IndexedItem();
      var number, after := workItemIssue[item.id], decision.after.value;
      var updated := item.(state := after.state, version := after.version, reconciliation := NO_RECONCILIATION);
      updated := updated.(
        owner := request.authorization.subject,
        lease := Some(Lease(request.authorization.subject, decision.tokenIssued, evaluation.time + cfg.leaseDuration)));
      var claim := ClaimRecord(request.operation, request.idempotencyKey, FingerprintOf(request), decision.tokenIssued);
      ghost var doc := ItemDocAfter(issues[number], updated, Some(claim), 0, "");
      ClaimIsMade(issues, cfg, request, number, decision, evaluation, updated, claim);
      DecisionResult(request.operation, decision);
      Indeterminate(request.operation);
      var written := UpdateItemIssue(number, updated, Some(claim), 0, "");
      StillValid(log, issues);
      if written.Ok? {
        result := ResultOfDecision(request.operation, decision).(
          workItemId := updated.id, workItemState := updated.state, contractVersion := updated.version, item := Some(updated));
      } else {
        result := if written.Transient? then UnknownResult(request.operation) else Unavailable(request.operation);
      }
      Updated(hub.plan, n, issues, hub.issues, written, result);
      ClaimWritten(issues, hub.issues, cfg, evaluation.time, request, number, doc, result);
      ClaimedUnder(issues, hub.issues, number, doc, claim);
    }

    /** Evaluates a materialization or a claim and makes its write. */
    method ApplyLifecycle(request: Request, current: Option<WorkItem>, evaluation: EvaluationContext) returns (result: Result)
      requires Valid() && request.projectId == cfg.projectId && request.operation in {Materialize, Claim}
      requires evaluation.authority == Authoritative && evaluation.nextToken == nextFenceSeq + 1
      requires SeenFor(hub.issues, cfg.projectId, request, current, evaluation.refreshDependencies)
      requires request.operation == Materialize ==>
                 && (current.None? ==> forall n | n in hub.issues :: !IsItem(hub.issues[n], cfg.projectId, request.workItemId))
                 && (request.payload.workItem.Some? ==> !KeyBound(hub.issues, cfg.projectId, request.materializationKey))
      requires request.operation == Claim ==>
                 && current.Some? && current.value.id == request.workItemId && request.workItemId in workItemIssue
                 && hub.issues[workItemIssue[request.workItemId]].item == current.value
      modifies this`workItemIssue, this`bindings, this`idempotency, this`nextFenceSeq, hub
      ensures Valid() && old(hub.log) <= hub.log
      ensures Fenced(old(hub.issues), hub.issues, old(nextFenceSeq), nextFenceSeq)
      ensures LifecycleAnswered(old(hub.issues), hub.issues, cfg, evaluation.time, request, result)
      ensures hub.ops >= old(hub.ops) && hub.Faults() >= old(hub.Faults()) && (!ShouldRemember(result) ==> hub.Faults() > old(hub.Faults()))
      ensures ShouldRemember(result) ==> result.decision == Some(Evaluate(request, current, evaluation))
      ensures result.outcome != Replayed
      ensures idempotency == if ShouldRemember(result)
                             then old(idempotency)[request.idempotencyKey := KeyEntry(LifecycleUse(FingerprintOf(request)), result)]
                             else old(idempotency)
    {
      hide Evaluate, IsMove, IsNew, FingerprintOf, NewItem, KeyBound, KeyBoundTo, ClaimAnswered, ResultOfDecision, ShouldRemember, SourceFor,
           SeenFor, Wrote, Hub.Valid, Adapter.Valid, Fenced, NewClaims, Written;
      NoneIssued(hub.issues, nextFenceSeq);
      var decision := Evaluate(request, current, evaluation);
      AllowedShape(request, current, evaluation);
      EvaluateKeepsAuthority(request, current, evaluation);
      DecisionResult(request.operation, decision);
      NeverUnavailable(request, current, evaluation);
      Issued(request, current, evaluation);
      ghost var issues := hub.issues;
      AdvanceFence(decision.tokenIssued != NO_TOKEN);
      if decision.outcome == Rejected {
        result := ResultOfDecision(request.operation, decision);
        NothingWritten(hub.issues, cfg, evaluation.time, request, result);
      } else if request.operation == Materialize {
        AllowedIsNew(request, current, evaluation);
        NewKey(request, evaluation, decision);
        if decision.outcome == Allowed {
          result := CommitMaterialization(request, decision, evaluation);
        } else {
          result := CommitOmission(request, decision, evaluation);
        }
        NewUnclaimed(issues, hub.issues, cfg, evaluation.time, request, result);
        FencedBy(issues, hub.issues, old(nextFenceSeq), NO_TOKEN);
      } else {
        AllowedIsMove(current.value, request, evaluation);
        result := CommitClaim(request, current.value, decision, evaluation);
        FencedBy(issues, hub.issues, old(nextFenceSeq), decision.tokenIssued);
      }
      if ShouldRemember(result) {
        Remember(request.idempotencyKey, LifecycleUse(FingerprintOf(request)), result);
      }
    }

    /** An authorized command under a key: answered from the record of the key, from the
        durable claim, or applied. */
    method AdmitLifecycle(request: Request, current: Option<WorkItem>, given: EvaluationContext) returns (result: Result, ghost failed: bool)
      requires Valid() && request.projectId == cfg.projectId && request.operation in {Materialize, Claim}
      requires given.authority == Authoritative && given.nextToken == nextFenceSeq + 1
      requires LookedUp(hub.issues, cfg.projectId, request, given.refreshDependencies)
      requires current.None? ==> forall n | n in hub.issues :: !IsItem(hub.issues[n], cfg.projectId, request.workItemId)
      requires current.Some? ==>
                 && current.value.id == request.workItemId && request.workItemId in workItemIssue
                 && hub.issues[workItemIssue[request.workItemId]].item == current.value
      requires request.operation == Claim ==> current.Some?
      modifies this, hub
      ensures Valid() && old(hub.log) <= hub.log
      ensures Fenced(old(hub.issues), hub.issues, old(nextFenceSeq), nextFenceSeq)
      ensures LifecycleKept(old(hub.issues), hub.issues, old(idempotency), cfg, given.time, request, result)
      ensures hub.ops >= old(hub.ops) && hub.Faults() >= old(hub.Faults())
      ensures hub.Faults() == old(hub.Faults()) ==>
                && LifecycleReplayed(old(hub.issues), old(idempotency), old(bindings), cfg.projectId, request, result)
                && LifecycleDecided(old(hub.issues), old(idempotency), cfg.projectId, request, given, result)
      ensures Noted(old(idempotency), idempotency, request, result, failed)
      ensures failed <==> request.idempotencyKey !in old(idempotency) && BindingUnread(hub.plan, old(hub.ops), old(bindings), request)
      ensures failed ==> hub.Faults() > old(hub.Faults()) && hub.issues == old(hub.issues) && request.payload.workItem.Some?
      ensures !ShouldRemember(result) ==>
                hub.Faults() > old(hub.Faults()) || (request.operation == Materialize && Frozen(old(idempotency), request.idempotencyKey))
    {
      hide FingerprintOf, ClaimReplay, Evaluate, KeyBound, KeyBoundTo, LifecycleKept, LifecycleReplayed, LifecycleAnswered, Hub.Valid,
           Adapter.Valid, Sound, ClaimStands, ShouldRemember, Unavailable, Noted, SourceFor,
           LifecycleDecided, LookedUp, BoundAnswered, Fenced;
      NoneIssued(hub.issues, nextFenceSeq);
      DurableIsSound();
      ghost var issues, keys := hub.issues, idempotency;
      var answer;
      answer, failed := ReplayLifecycle(request);
      if answer.Some? {
        result := answer.value;
        AnsweredFromKey(issues, keys, old(bindings), idempotency, cfg, given.time, request, result, failed);
        if !failed {
          AnsweredByKey(issues, keys, old(bindings), cfg.projectId, request, given, result);
        }
        return;
      }
      result := SettleLifecycle(request, current, given);
    }

    /** ... its key being fresh, from the durable claim or by applying it. */
    method SettleLifecycle(request: Request, current: Option<WorkItem>, given: EvaluationContext) returns (result: Result)
      requires Valid() && request.projectId == cfg.projectId && request.operation in {Materialize, Claim}
      requires given.authority == Authoritative && given.nextToken == nextFenceSeq + 1
      requires LookedUp(hub.issues, cfg.projectId, request, given.refreshDependencies)
      requires current.None? ==> forall n | n in hub.issues :: !IsItem(hub.issues[n], cfg.projectId, request.workItemId)
      requires current.Some? ==>
                 && current.value.id == request.workItemId && request.workItemId in workItemIssue
                 && hub.issues[workItemIssue[request.workItemId]].item == current.value
      requires request.operation == Claim ==> current.Some?
      requires request.idempotencyKey !in idempotency
      requires request.operation == Materialize && request.payload.workItem.Some? ==>
                 !KeyBound(hub.issues, cfg.projectId, request.materializationKey)
      modifies this, hub
      ensures Valid() && old(hub.log) <= hub.log
      ensures Fenced(old(hub.issues), hub.issues, old(nextFenceSeq), nextFenceSeq)
      ensures LifecycleKept(old(hub.issues), hub.issues, old(idempotency), cfg, given.time, request, result)
      ensures hub.ops >= old(hub.ops) && hub.Faults() >= old(hub.Faults()) && (!ShouldRemember(result) ==> hub.Faults() > old(hub.Faults()))
      ensures hub.Faults() == old(hub.Faults()) ==>
                && LifecycleReplayed(old(hub.issues), old(idempotency), old(bindings), cfg.projectId, request, result)
                && LifecycleDecided(old(hub.issues), old(idempotency), cfg.projectId, request, given, result)
      ensures Noted(old(idempotency), idempotency, request, result, false)
    {
      hide FingerprintOf, ClaimReplay, Evaluate, KeyBound, KeyBoundTo, LifecycleKept, LifecycleReplayed, LifecycleAnswered, Hub.Valid,
           Adapter.Valid, Sound, ClaimStands, ShouldRemember, Unavailable, Noted, SourceFor,
           Decided, LookedUp, Unanswered, Fenced;
      NoneIssued(hub.issues, nextFenceSeq);
      Indeterminate(request.operation);
      DurableIsSound();
      ghost var issues, keys := hub.issues, idempotency;
      if current.Some? {
        IndexedItem();
      }
      if request.operation == Claim {
        var reconciled := ReconcileClaim(request, current.value);
        if reconciled.Some? {
          result := reconciled.value;
          Reconciled(issues, keys, old(bindings), cfg, given.time, request, result);
          AnsweredByClaim(issues, keys, cfg.projectId, request, given, result);
          NothingNoted(keys, request, result);
          return;
        }
        NoClaim(issues, keys, cfg.projectId, request, workItemIssue[request.workItemId]);
      } else {
        NoClaimNeeded(issues, keys, cfg.projectId, request);
      }
      result := DecideLifecycle(request, current, given);
    }

    /** ... by applying it. */
    method DecideLifecycle(request: Request, current: Option<WorkItem>, given: EvaluationContext) returns (result: Result)
      requires Valid() && request.projectId == cfg.projectId && request.operation in {Materialize, Claim}
      requires given.authority == Authoritative && given.nextToken == nextFenceSeq + 1
      requires LookedUp(hub.issues, cfg.projectId, request, given.refreshDependencies)
      requires current.None? ==> forall n | n in hub.issues :: !IsItem(hub.issues[n], cfg.projectId, request.workItemId)
      requires current.Some? ==>
                 && current.value.id == request.workItemId && request.workItemId in workItemIssue
                 && hub.issues[workItemIssue[request.workItemId]].item == current.value
      requires request.operation == Claim ==> current.Some?
      requires Unanswered(hub.issues, idempotency, cfg.projectId, request)
      modifies this, hub
      ensures Valid() && old(hub.log) <= hub.log
      ensures Fenced(old(hub.issues), hub.issues, old(nextFenceSeq), nextFenceSeq)
      ensures LifecycleKept(old(hub.issues), hub.issues, old(idempotency), cfg, given.time, request, result)
      ensures hub.ops >= old(hub.ops) && hub.Faults() >= old(hub.Faults()) && (!ShouldRemember(result) ==> hub.Faults() > old(hub.Faults()))
      ensures LifecycleReplayed(old(hub.issues), old(idempotency), old(bindings), cfg.projectId, request, result)
      ensures Noted(old(idempotency), idempotency, request, result, false)
      ensures hub.Faults() == old(hub.Faults()) ==> Decided(old(hub.issues), cfg.projectId, request, given, result)
    {
      hide FingerprintOf, ClaimReplay, Evaluate, KeyBound, KeyBoundTo, LifecycleKept, LifecycleReplayed, LifecycleAnswered, Hub.Valid,
           Adapter.Valid, ClaimStands, ShouldRemember, Unavailable, Noted, SourceFor, LookedUp, StoredAs, Decided, Fenced;
      NoneIssued(hub.issues, nextFenceSeq);
      Indeterminate(request.operation);
      ghost var issues, keys := hub.issues, idempotency;
      IndexedItem();
      IsStored(issues, cfg.projectId, request.workItemId, current, if current.Some? then workItemIssue[request.workItemId] else 0);
      var evaluation := given;
      if current.Some? && request.operation == Materialize {
        var dependencies := ObservedDependencies(current.value);
        if dependencies.None? {
          result := Unavailable(request.operation);
          Unapplied(issues, keys, cfg, given.time, request, result);
          NothingOwed(issues, keys, old(bindings), cfg.projectId, request, result);
          NothingNoted(keys, request, result);
          return;
        }
        evaluation := evaluation.(refreshDependencies := dependencies);
      }
      result := ApplyLifecycle(request, current, evaluation);
      AppliedKeeps(issues, hub.issues, keys, old(bindings), cfg, given.time, request, result);
      AnswerNoted(keys, idempotency, request, result);
      if ShouldRemember(result) {
        IsDecided(issues, cfg.projectId, request, given, current, evaluation, result);
      }
    }

    /** A command on a record that does not exist. */
    method RefuseMissing(request: Request, evaluation: EvaluationContext, authorized: bool) returns (result: Result)
      requires Valid() && request.operation == Claim
      requires evaluation.authority == Authoritative && LookedUp(hub.issues, cfg.projectId, request, evaluation.refreshDependencies)
      requires forall n | n in hub.issues :: !IsItem(hub.issues[n], cfg.projectId, request.workItemId)
      modifies this`idempotency, this`bindings, hub`ops
      ensures Valid() && result.mutation == MutationNone
      ensures !result.ok || request.idempotencyKey in old(idempotency)
      ensures hub.ops == old(hub.ops) && ShouldRemember(result)
      ensures LifecycleKept(hub.issues, hub.issues, old(idempotency), cfg, evaluation.time, request, result)
      ensures authorized && request.idempotencyKey != "" ==>
                && LifecycleReplayed(hub.issues, old(idempotency), old(bindings), cfg.projectId, request, result)
                && LifecycleDecided(hub.issues, old(idempotency), cfg.projectId, request, evaluation, result)
      ensures Noted(old(idempotency), idempotency, request, result, false)
    {
      hide FingerprintOf, Evaluate, Hub.Valid, Adapter.Valid, LifecycleKept, LifecycleReplayed, Noted, ClaimStands, KeyBoundTo, SourceFor,
           Sound, LookedUp, StoredAs, Decided, Unanswered, LifecycleDecided;
      DurableIsSound();
      ghost var keys := idempotency;
      TurnedAway(request, None, evaluation);
      EvaluateKeepsAuthority(request, None, evaluation);
      NeverUnavailable(request, None, evaluation);
      DecisionResult(request.operation, Evaluate(request, None, evaluation));
      NoItemNoClaim(hub.issues, keys, old(bindings), cfg.projectId, request);
      result := ResultOfDecision(request.operation, Evaluate(request, None, evaluation));
      hide ResultOfDecision, ShouldRemember;
      Unapplied(hub.issues, keys, cfg, evaluation.time, request, result);
      NothingNoted(keys, request, result);
      if authorized && request.idempotencyKey != "" {
        var answer, failed := ReplayLifecycle(request);
        if answer.Some? {
          result := answer.value;
          AnsweredFromKey(hub.issues, keys, old(bindings), idempotency, cfg, evaluation.time, request, result, failed);
          AnsweredByKey(hub.issues, keys, old(bindings), cfg.projectId, request, evaluation, result);
          return;
        }
        MissingIsDecided(hub.issues, keys, cfg.projectId, request, evaluation, result);
        Remember(request.idempotencyKey, LifecycleUse(FingerprintOf(request)), result);
        AnswerNoted(keys, idempotency, request, result);
      }
    }

    /** The checks before a key is looked at: `None` lets the command through. */
    method CheckLifecycle(now: Time, call: Call, request: Request, current: Option<WorkItem>, evaluation: EvaluationContext)
      returns (refused: Option<Result>)
      requires evaluation.authority == Authoritative && evaluation.time == now
      ensures refused.None? <==> Authorized(call, request, now) && request.idempotencyKey != ""
      ensures refused.Some? ==> refused.value.mutation == MutationNone && !refused.value.ok && refused.value.outcome == Refused
      ensures refused.Some? ==> ShouldRemember(refused.value)
    {
      hide Evaluate, AuthorizeLifecycle, ResultOfDecision, RefusedDecision;
      RefusedDecisions(request);
      var auth := request.authorization;
      if AuthorizeLifecycle(auth, request.operation, request.projectId, request.workItemId, request.payload.changeSetId,
                            request.references, now).Some?
      {
        UnauthorizedIsRejected(request, current, evaluation);
        NeverUnavailable(request, current, evaluation);
        DecisionResult(call.operation, Evaluate(request, current, evaluation));
        EvaluateKeepsAuthority(request, current, evaluation);
        TurnedAway(request, current, evaluation);
        return Some(ResultOfDecision(call.operation, Evaluate(request, current, evaluation)));
      }
      if call.policyVersion != "" && call.policyVersion != auth.policyVersion {
        var rejection := UnauthorizedAction(call.operation, if call.workItemId != "" then "work-item" else "project", auth.policyVersion);
        return Some(RefusedDecision(request, rejection));
      }
      if request.idempotencyKey == "" {
        return Some(RefusedResult(call.operation, InvalidRequest("idempotency_key")));
      }
      refused := None;
    }

    /** A materialization or claim call. A bound key is never written again, and an applied
        answer is durable; the retry of a claim that is already durable writes nothing and,
        if it is authorized and nothing fails, is answered with exactly the token it took. A
        fresh key is frozen as unavailable exactly if the call is an authorized materialization
        the scan for whose binding fails. */
    method RunLifecycle(now: Time, call: Call, auth: AuthorizationContext) returns (result: Result, ghost failed: bool)
      requires Valid() && call.operation in {Materialize, Claim}
      modifies this, hub
      ensures Valid() && old(hub.log) <= hub.log
      ensures Fenced(old(hub.issues), hub.issues, old(nextFenceSeq), nextFenceSeq)
      ensures !call.payload.LifecyclePayload? ==>
                hub.issues == old(hub.issues) && result.mutation != MutationApplied && idempotency == old(idempotency) && !failed
      ensures call.payload.LifecyclePayload? ==>
                var request := Normalized(cfg, call, auth, call.payload.payload);
                && LifecycleKept(old(hub.issues), hub.issues, old(idempotency), cfg, now, request, result)
                && Noted(old(idempotency), idempotency, request, result, failed)
                && (hub.Faults() == old(hub.Faults()) && Authorized(call, request, now) && call.idempotencyKey != "" ==>
                      && LifecycleReplayed(old(hub.issues), old(idempotency), old(bindings), cfg.projectId, request, result)
                      && LifecycleDecided(old(hub.issues), old(idempotency), cfg.projectId, request,
                                          BaseContext(now, old(nextFenceSeq), old(approvals)), result))
                && (failed <==> request.idempotencyKey !in old(idempotency) && Authorized(call, request, now) && request.idempotencyKey != ""
                                && Unreadable(hub.plan, old(hub.ops), old(bindings), request))
                && (failed ==> hub.issues == old(hub.issues) && hub.ops > old(hub.ops) + LookupsFor(request))
      ensures hub.ops >= old(hub.ops) && hub.Faults() >= old(hub.Faults()) && (failed ==> hub.Faults() > old(hub.Faults()))
      ensures !ShouldRemember(result) ==>
                hub.Faults() > old(hub.Faults()) || (call.operation == Materialize && Frozen(old(idempotency), call.idempotencyKey))
    {
      if !call.payload.LifecyclePayload? {
        return RefusedResult(call.operation, InvalidRequest("payload")), false;
      }
      hide LifecycleKept, LifecycleReplayed, LifecycleDecided, BaseContext, Noted, Normalized, Authorized, Hub.Valid, Adapter.Valid, Fenced;
      NoneIssued(hub.issues, nextFenceSeq);
      var request := Normalized(cfg, call, auth, call.payload.payload);
      result, failed := RunRequestedLifecycle(now, call, request);
    }

    method RunRequestedLifecycle(now: Time, call: Call, request: Request) returns (result: Result, ghost failed: bool)
      requires Valid() && request.operation in {Materialize, Claim} && request.projectId == cfg.projectId
      modifies this, hub
      ensures Valid() && old(hub.log) <= hub.log
      ensures Fenced(old(hub.issues), hub.issues, old(nextFenceSeq), nextFenceSeq)
      ensures LifecycleKept(old(hub.issues), hub.issues, old(idempotency), cfg, now, request, result)
      ensures Noted(old(idempotency), idempotency, request, result, failed)
      ensures hub.Faults() == old(hub.Faults()) && Authorized(call, request, now) && request.idempotencyKey != "" ==>
                && LifecycleReplayed(old(hub.issues), old(idempotency), old(bindings), cfg.projectId, request, result)
                && LifecycleDecided(old(hub.issues), old(idempotency), cfg.projectId, request,
                                    BaseContext(now, old(nextFenceSeq), old(approvals)), result)
      ensures failed <==>
                && request.idempotencyKey !in old(idempotency) && Authorized(call, request, now) && request.idempotencyKey != ""
                && Unreadable(hub.plan, old(hub.ops), old(bindings), request)
      ensures failed ==> hub.issues == old(hub.issues) && hub.ops > old(hub.ops) + LookupsFor(request)
      ensures hub.ops >= old(hub.ops) && hub.Faults() >= old(hub.Faults()) && (failed ==> hub.Faults() > old(hub.Faults()))
      ensures !ShouldRemember(result) ==>
                hub.Faults() > old(hub.Faults()) || (request.operation == Materialize && Frozen(old(idempotency), request.idempotencyKey))
    {
      hide LifecycleKept, LifecycleReplayed, Noted, Evaluate, Authorized, Hub.Valid, Adapter.Valid, FingerprintOf, ShouldRemember, Unavailable,
           LifecycleDecided, LookedUp, LookupsFor, Failures, Frozen, IsItem, BindingUnread, AllFine, Fenced;
      NoneIssued(hub.issues, nextFenceSeq);
      Indeterminate(request.operation);
      ghost var issues, keys := hub.issues, idempotency;
      failed := false;
      ghost var base := BaseContext(now, nextFenceSeq, approvals);
      var loaded, evaluation := LookUp(request, BaseContext(now, nextFenceSeq, approvals));
      if loaded.Transient? || loaded.Hard? {
        result := Unavailable(request.operation);
        Unapplied(issues, keys, cfg, now, request, result);
        NothingNoted(keys, request, result);
        return;
      }
      ghost var faults := hub.Faults();
      result, failed := JudgeLifecycle(now, call, request, loaded, evaluation);
      if hub.Faults() == faults && Authorized(call, request, now) && request.idempotencyKey != "" {
        SameBase(issues, keys, cfg.projectId, request, base, evaluation, result);
      }
    }

    /** Looks up the record of a command, and the dependencies of one to be materialized. */
    method LookUp(request: Request, base: EvaluationContext) returns (loaded: Reply<Scanned>, evaluation: EvaluationContext)
      requires Valid() && base.refreshDependencies.None?
      modifies this`workItemIssue, hub`ops
      ensures Valid()
      ensures loaded.Ok? ==> loaded.value.number in hub.issues && hub.issues[loaded.value.number] == loaded.value.doc
                             && IsItem(loaded.value.doc, cfg.projectId, request.workItemId)
                             && request.workItemId in workItemIssue && workItemIssue[request.workItemId] == loaded.value.number
      ensures loaded.Missing? ==> forall n | n in hub.issues :: !IsItem(hub.issues[n], cfg.projectId, request.workItemId)
      ensures loaded.Ok? || loaded.Missing? <==> AllFine(hub.plan, old(hub.ops), old(hub.ops) + LookupsFor(request))
      ensures loaded.Ok? || loaded.Missing? ==> hub.ops == old(hub.ops) + LookupsFor(request)
      ensures evaluation == base.(refreshDependencies := evaluation.refreshDependencies)
      ensures loaded.Ok? || loaded.Missing? ==> LookedUp(hub.issues, cfg.projectId, request, evaluation.refreshDependencies)
      ensures hub.ops >= old(hub.ops) && hub.Faults() >= old(hub.Faults())
      ensures loaded.Transient? || loaded.Hard? ==> hub.Faults() > old(hub.Faults())
    {
      hide Hub.Faults, Hub.Valid, Adapter.Valid, Observes, Lookups, Failures;
      evaluation := base;
      ghost var start := hub.ops;
      loaded := TryLoadItem(request.workItemId);
      FinePart(hub.plan, start, start + Lookup(request.workItemId), start + LookupsFor(request));
      if (loaded.Ok? || loaded.Missing?) && request.operation == Materialize && request.payload.workItem.Some? {
        var dependencies := ObservedDependencies(request.payload.workItem.value);
        if dependencies.None? {
          return Transient, base;
        }
        evaluation := base.(refreshDependencies := dependencies);
      }
    }

    /** The checks on a command whose record was looked up, and what comes of them. */
    method JudgeLifecycle(now: Time, call: Call, request: Request, loaded: Reply<Scanned>, evaluation: EvaluationContext)
      returns (result: Result, ghost failed: bool)
      requires Valid() && request.operation in {Materialize, Claim} && request.projectId == cfg.projectId
      requires loaded.Ok? || loaded.Missing?
      requires loaded.Ok? ==> loaded.value.number in hub.issues && hub.issues[loaded.value.number] == loaded.value.doc
                              && IsItem(loaded.value.doc, cfg.projectId, request.workItemId)
                              && request.workItemId in workItemIssue && workItemIssue[request.workItemId] == loaded.value.number
      requires loaded.Missing? ==> forall n | n in hub.issues :: !IsItem(hub.issues[n], cfg.projectId, request.workItemId)
      requires evaluation.authority == Authoritative && evaluation.time == now && evaluation.nextToken == nextFenceSeq + 1
      requires LookedUp(hub.issues, cfg.projectId, request, evaluation.refreshDependencies)
      modifies this, hub
      ensures Valid() && old(hub.log) <= hub.log
      ensures Fenced(old(hub.issues), hub.issues, old(nextFenceSeq), nextFenceSeq)
      ensures LifecycleKept(old(hub.issues), hub.issues, old(idempotency), cfg, now, request, result)
      ensures Noted(old(idempotency), idempotency, request, result, failed)
      ensures hub.Faults() == old(hub.Faults()) && Authorized(call, request, now) && request.idempotencyKey != "" ==>
                && LifecycleReplayed(old(hub.issues), old(idempotency), old(bindings), cfg.projectId, request, result)
                && LifecycleDecided(old(hub.issues), old(idempotency), cfg.projectId, request, evaluation, result)
      ensures failed <==>
                && request.idempotencyKey !in old(idempotency) && Authorized(call, request, now) && request.idempotencyKey != ""
                && BindingUnread(hub.plan, old(hub.ops), old(bindings), request)
      ensures failed ==> hub.issues == old(hub.issues)
      ensures hub.ops >= old(hub.ops) && hub.Faults() >= old(hub.Faults()) && (failed ==> hub.Faults() > old(hub.Faults()))
      ensures !ShouldRemember(result) ==>
                hub.Faults() > old(hub.Faults()) || (request.operation == Materialize && Frozen(old(idempotency), request.idempotencyKey))
    {
      hide LifecycleKept, LifecycleReplayed, Noted, Evaluate, Authorized, Hub.Valid, Adapter.Valid, FingerprintOf, ShouldRemember,
           LifecycleDecided, LookedUp, Failures, Frozen, Fenced;
      NoneIssued(hub.issues, nextFenceSeq);
      ghost var issues, keys := hub.issues, idempotency;
      failed := false;
      var current := if loaded.Ok? then Some(loaded.value.doc.item) else None;
      if request.operation != Materialize && loaded.Missing? {
        result := RefuseMissing(request, evaluation, Authorized(call, request, now));
        return;
      }
      var refused := CheckLifecycle(now, call, request, current, evaluation);
      if refused.Some? {
        result := refused.value;
        Unapplied(issues, keys, cfg, now, request, result);
        NothingNoted(keys, request, result);
        return;
      }
      result, failed := AdmitLifecycle(request, current, evaluation);
    }

    // ----- requests -----

    method IndexRequest(found: Scanned)
      requires Valid() && found.number in hub.issues && hub.issues[found.number] == found.doc
      requires found.doc.RequestDoc? && found.doc.projectId == cfg.projectId
      modifies this`requestIssue, this`semanticRequests, this`nextRequestSeq
      ensures Valid() && nextRequestSeq == if old(nextRequestSeq) < found.doc.request.id then found.doc.request.id else old(nextRequestSeq)
      ensures semanticRequests.Keys == old(semanticRequests).Keys + {KeyOf(cfg, found.doc.request)}
    {
      hide KeyOf, ItemIndexOk, BindingsOk, ApprovalsOk, Hub.Valid;
      var request := found.doc.request;
      if request.id !in requestIssue {
        requestIssue := requestIssue[request.id := found.number];
      }
      if KeyOf(cfg, request) !in semanticRequests {
        semanticRequests := semanticRequests[KeyOf(cfg, request) := request.id];
      }
      if nextRequestSeq < request.id {
        nextRequestSeq := request.id;
      }
    }

    /** Rebuilds the request indexes from the durable store. */
    method HydrateRequests() returns (reply: Reply<seq<Scanned>>)
      requires Valid()
      modifies this`requestIssue, this`semanticRequests, this`nextRequestSeq, hub`ops
      ensures Valid() && !reply.Missing?
      ensures reply.Ok? ==>
                && (forall s | s in reply.value ::
                      && s.number in hub.issues && hub.issues[s.number] == s.doc
                      && s.doc.RequestDoc? && s.doc.projectId == cfg.projectId)
                && (forall n | n in hub.issues && hub.issues[n].RequestDoc? && hub.issues[n].projectId == cfg.projectId ::
                      Scanned(n, hub.issues[n]) in reply.value && hub.issues[n].request.id <= nextRequestSeq)
                && IsTop(hub.issues, cfg.projectId, old(nextRequestSeq), nextRequestSeq)
      ensures forall k | k in semanticRequests :: k in old(semanticRequests) || Taken(hub.issues, cfg, k)
      ensures reply.Ok? ==> Indexed(hub.issues, cfg, semanticRequests)
      ensures hub.ops == old(hub.ops) + 1 && (reply.Ok? <==> hub.plan(old(hub.ops)).Fine?)
      ensures hub.Faults() >= old(hub.Faults()) && (!reply.Ok? ==> hub.Faults() > old(hub.Faults()))
    {
      hide Hub.Valid, Adapter.Valid, KeyOf, Failures, Taken, Indexed;
      reply := ListStored(true);
      if reply.Ok? {
        IndexAll(reply.value);
        AllIndexed(hub.issues, cfg, reply.value, semanticRequests);
      }
    }

    method IndexAll(docs: seq<Scanned>)
      requires Valid()
      requires forall s | s in docs ::
                 s.number in hub.issues && hub.issues[s.number] == s.doc && s.doc.RequestDoc? && s.doc.projectId == cfg.projectId
      modifies this`requestIssue, this`semanticRequests, this`nextRequestSeq
      ensures Valid() && old(nextRequestSeq) <= nextRequestSeq
      ensures forall s | s in docs :: s.doc.request.id <= nextRequestSeq && KeyOf(cfg, s.doc.request) in semanticRequests
      ensures nextRequestSeq == old(nextRequestSeq) || exists n | n in hub.issues :: IsRequest(hub.issues[n], cfg.projectId, nextRequestSeq)
      ensures forall k | k in semanticRequests :: k in old(semanticRequests) || Taken(hub.issues, cfg, k)
    {
      hide Hub.Valid, Adapter.Valid, KeyOf;
      for i := 0 to |docs|
        invariant Valid() && old(nextRequestSeq) <= nextRequestSeq
        invariant forall j | 0 <= j < i :: docs[j].doc.request.id <= nextRequestSeq && KeyOf(cfg, docs[j].doc.request) in semanticRequests
        invariant forall k | k in semanticRequests :: k in old(semanticRequests) || Taken(hub.issues, cfg, k)
        invariant nextRequestSeq == old(nextRequestSeq)
                  || exists n | n in hub.issues :: IsRequest(hub.issues[n], cfg.projectId, nextRequestSeq)
      {
        assert docs[i] in docs;
        assert IsRequest(hub.issues[docs[i].number], cfg.projectId, docs[i].doc.request.id);
        IndexRequest(docs[i]);
      }
    }

    method EnsureRequestsHydrated() returns (ok: bool)
      requires Valid()
      modifies this`requestIssue, this`semanticRequests, this`nextRequestSeq, this`requestsHydrated, hub`ops
      ensures Valid()
      ensures hub.ops >= old(hub.ops) && hub.Faults() >= old(hub.Faults()) && (!ok ==> hub.Faults() > old(hub.Faults()))
    {
      if requestsHydrated {
        return true;
      }
      var docs := HydrateRequests();
      ok := docs.Ok?;
      requestsHydrated := ok;
    }

    method BindRequest(found: Scanned, key: SemanticKey)
      requires Valid() && found.number in hub.issues && hub.issues[found.number] == found.doc
      requires found.doc.RequestDoc? && found.doc.projectId == cfg.projectId
      modifies this`requestIssue, this`semanticRequests
      ensures Valid()
    {
      hide ItemIndexOk, BindingsOk, ApprovalsOk;
      requestIssue := requestIssue[found.doc.request.id := found.number];
      semanticRequests := semanticRequests[key := found.doc.request.id];
    }

    /** The create call of a request that is already durable under this key. */
    method ReplayDurableCreate(call: Call, auth: AuthorizationContext, docs: seq<Scanned>) returns (answer: Option<Result>)
      requires Valid() && forall s | s in docs :: s.doc.RequestDoc?
      modifies this`pendingCreate
      ensures Valid()
      ensures answer.Some? ==> exists s | s in docs :: s.doc.createKey == call.idempotencyKey && answer.value == CreateReplay(call, auth, s.doc)
      ensures answer.None? ==> pendingCreate == old(pendingCreate) && forall s | s in docs :: s.doc.createKey != call.idempotencyKey
      ensures answer.Some? ==> ShouldRemember(answer.value)
    {
      var found := FirstMatch(docs, (doc: Doc) => doc.RequestDoc? && doc.createKey == call.idempotencyKey);
      if found.None? {
        return None;
      }
      if found.value.doc.createFingerprint != CallFingerprintOf(call, auth) {
        return Some(RefusedResult(call.operation, IdempotencyConflict("request-fingerprint", call.idempotencyKey)));
      }
      pendingCreate := pendingCreate - {call.idempotencyKey};
      answer := Some(MarkReplayed(RequestApplied(call, found.value.doc.request)));
    }

    /** A request id reserved by an earlier create of unknown outcome under this key: whatever
        request holds it now is taken to be the one that create made. */
    method ReconcilePendingCreate(call: Call, key: SemanticKey) returns (answer: Option<Result>)
      requires Valid()
      modifies this`pendingCreate, this`requestIssue, this`semanticRequests, hub`ops
      ensures Valid()
      ensures answer.Some? ==> call.idempotencyKey in old(pendingCreate)
      ensures call.idempotencyKey !in old(pendingCreate) ==> hub.ops == old(hub.ops) && semanticRequests == old(semanticRequests)
      ensures answer.Some? && answer.value != Unavailable(call.operation) ==>
                HeldBy(hub.issues, cfg.projectId, old(pendingCreate)[call.idempotencyKey], call, answer.value)
      ensures answer.None? ==>
                && pendingCreate == old(pendingCreate) && semanticRequests == old(semanticRequests)
                && (call.idempotencyKey in pendingCreate ==>
                      forall n | n in hub.issues :: !IsRequest(hub.issues[n], cfg.projectId, pendingCreate[call.idempotencyKey]))
      ensures hub.ops >= old(hub.ops) && hub.Faults() >= old(hub.Faults())
      ensures answer.Some? && !ShouldRemember(answer.value) ==> hub.Faults() > old(hub.Faults())
    {
      hide ItemIndexOk, BindingsOk, ApprovalsOk;
      if call.idempotencyKey !in pendingCreate {
        return None;
      }
      var found := FindRequest(pendingCreate[call.idempotencyKey]);
      if found.Missing? {
        return None;
      }
      if !found.Ok? {
        return Some(Unavailable(call.operation));
      }
      pendingCreate := pendingCreate - {call.idempotencyKey};
      BindRequest(found.value, key);
      answer := Some(RequestApplied(call, found.value.doc.request));
    }

    method PersistNewRequest(call: Call, auth: AuthorizationContext, key: SemanticKey) returns (result: Result)
      requires Valid() && ValidCreate(call) && call.idempotencyKey != ""
      requires !Taken(hub.issues, cfg, SemanticKeyOf(cfg, call.payload.intent, call.payload.interfaces, call.payload.scopes))
      requires forall n | n in hub.issues :: !CreatedUnder(hub.issues[n], cfg.projectId, call.idempotencyKey)
      requires call.idempotencyKey in pendingCreate ==>
                 forall n | n in hub.issues :: !IsRequest(hub.issues[n], cfg.projectId, pendingCreate[call.idempotencyKey])
      requires forall n | n in hub.issues && hub.issues[n].RequestDoc? && hub.issues[n].projectId == cfg.projectId ::
                 hub.issues[n].request.id <= nextRequestSeq
      modifies this`pendingCreate, this`requestIssue, this`semanticRequests, this`nextRequestSeq, hub
      ensures Valid() && old(hub.log) <= hub.log
      ensures result.mutation == MutationApplied ==> CreatedBy(hub.issues, cfg.projectId, call, auth, result)
      ensures AddsOne(old(hub.issues), hub.issues, cfg.projectId, call.idempotencyKey)
      ensures CreateWritten(old(hub.issues), hub.issues, cfg, call, auth, result)
      ensures hub.ops > old(hub.ops) && CreateRan(hub.plan, old(hub.ops), old(hub.issues), hub.issues, result)
      ensures call.idempotencyKey !in old(pendingCreate) ==>
                && nextRequestSeq == old(nextRequestSeq) + 1
                && (result.mutation == MutationApplied ==> result.requestId == nextRequestSeq)
                && (result.mutation == MutationUnknown ==> pendingCreate == old(pendingCreate)[call.idempotencyKey := nextRequestSeq])
      ensures hub.ops >= old(hub.ops) && hub.Faults() >= old(hub.Faults())
      ensures result.mutation != MutationApplied ==> hub.Faults() > old(hub.Faults())
      ensures result.mutation == MutationApplied ==> ShouldRemember(result)
      ensures result.mutation != MutationApplied ==> !ShouldRemember(result)
    {
      hide Hub.Valid, Adapter.Valid, SemanticKeyOf, Text.Trim, Text.SortedUnique, CallFingerprintOf, MayCreate, CreatedBy, AddsOne,
           ShouldRemember, CreateRan, Failures, Taken, CreateWritten, Text.IsBlank;
      ghost var n, before := hub.ops, hub.issues;
      var id := if call.idempotencyKey in pendingCreate then pendingCreate[call.idempotencyKey] else 0;
      if id == 0 {
        id := NextRequestId();
      }
      var p := call.payload;
      var request := RequestRecord(id, Text.Trim(p.intent), Text.Trim(p.rationale), auth.subject, "", Text.SortedUnique(p.interfaces),
                                   Text.SortedUnique(p.scopes), "", "unrefined", "", [], "", "", 1);
      var doc := RequestDoc(cfg.projectId, request, call.idempotencyKey, CallFingerprintOf(call, auth), [], None);
      NewRequestIsFresh(hub.issues, doc);
      assert AskedDoc(before, cfg, call, auth, doc);
      hide AskedDoc;
      result := PersistRequest(call, auth, key, doc);
      AskedIsWritten(before, hub.issues, cfg, call, auth, doc, IsMade(hub.plan(n)), result);
    }

    /** Writes a new request; after a failed write the request is looked for, and its id kept in
        reserve if it is not found. */
    method PersistRequest(call: Call, auth: AuthorizationContext, key: SemanticKey, doc: Doc) returns (result: Result)
      requires Valid() && MayCreate(hub.issues, doc) && CreatedUnder(doc, cfg.projectId, call.idempotencyKey)
      requires doc.request.id != 0 && doc.createFingerprint == CallFingerprintOf(call, auth)
      requires forall n | n in hub.issues :: !IsRequest(hub.issues[n], cfg.projectId, doc.request.id)
      modifies this`pendingCreate, this`requestIssue, this`semanticRequests, hub
      ensures Valid() && old(hub.log) <= hub.log
      ensures result.mutation == MutationApplied ==>
                CreatedBy(hub.issues, cfg.projectId, call, auth, result) && result == RequestApplied(call, doc.request)
      ensures if IsMade(hub.plan(old(hub.ops))) then exists n: nat :: n !in old(hub.issues) && hub.issues == old(hub.issues)[n := doc]
              else hub.issues == old(hub.issues)
      ensures AddsOne(old(hub.issues), hub.issues, cfg.projectId, call.idempotencyKey)
      ensures result.mutation == MutationUnknown ==> pendingCreate == old(pendingCreate)[call.idempotencyKey := doc.request.id]
      ensures hub.ops > old(hub.ops) && CreateRan(hub.plan, old(hub.ops), old(hub.issues), hub.issues, result)
      ensures hub.ops >= old(hub.ops) && hub.Faults() >= old(hub.Faults())
      ensures result.mutation != MutationApplied ==> hub.Faults() > old(hub.Faults())
      ensures result.mutation == MutationApplied ==> ShouldRemember(result)
      ensures result.mutation != MutationApplied ==> !ShouldRemember(result)
    {
      hide Hub.Faults, Hub.Valid, Adapter.Valid, UnknownResult, Unavailable, CallFingerprintOf, MayCreate;
      Indeterminate(call.operation);
      var created := CreateIssue(doc);
      result := RequestApplied(call, doc.request);
      if created.Ok? {
        SetPending(call.idempotencyKey, 0);
        assert CreatedUnder(hub.issues[created.value], cfg.projectId, call.idempotencyKey);
        BindRequest(Scanned(created.value, doc), key);
      } else if created.Transient? {
        SetPending(call.idempotencyKey, doc.request.id);
        var found := FindRequest(doc.request.id);
        if !found.Ok? {
          return UnknownResult(call.operation);
        }
        assert found.value.doc == doc;
        assert CreatedUnder(hub.issues[found.value.number], cfg.projectId, call.idempotencyKey);
        SetPending(call.idempotencyKey, 0);
        BindRequest(found.value, key);
        result := RequestApplied(call, found.value.doc.request);
      } else {
        result := Unavailable(call.operation);
      }
    }

    method NextRequestId() returns (id: RequestId)
      requires Valid()
      modifies this`nextRequestSeq
      ensures Valid() && id == nextRequestSeq == old(nextRequestSeq) + 1
    {
      nextRequestSeq := nextRequestSeq + 1;
      id := nextRequestSeq;
    }

    /** Reserves a request id for a create key, or drops the reservation. */
    method SetPending(key: string, id: RequestId)
      requires Valid()
      modifies this`pendingCreate
      ensures Valid() && pendingCreate == if id == 0 then old(pendingCreate) - {key} else old(pendingCreate)[key := id]
    {
      pendingCreate := if id == 0 then pendingCreate - {key} else pendingCreate[key := id];
    }

    /** request.create: a durable create under the key is answered, never repeated. An applied
        answer is of the request made under this key, unless another create has taken the id
        that an earlier try reserved. */
    method RunCreate(call: Call, auth: AuthorizationContext) returns (result: Result)
      requires Valid() && call.idempotencyKey != ""
      modifies this, hub
      ensures Valid() && old(hub.log) <= hub.log && idempotency == old(idempotency)
      ensures CreateKept(old(hub.issues), hub.issues, old(pendingCreate), cfg.projectId, call, auth, result)
      ensures CreateWritten(old(hub.issues), hub.issues, cfg, call, auth, result)
      ensures hub.Faults() == old(hub.Faults()) ==> CreateReplayed(old(hub.issues), old(pendingCreate), cfg.projectId, call, auth, result)
      ensures Numbered(old(hub.issues), cfg.projectId, old(nextRequestSeq), nextRequestSeq, old(pendingCreate), pendingCreate, call, result)
      ensures FirstCreate(old(hub.issues), old(pendingCreate), old(semanticRequests), cfg, call) && hub.plan(old(hub.ops)).Fine? ==>
                hub.ops > old(hub.ops) + 1 && CreateRan(hub.plan, old(hub.ops) + 1, old(hub.issues), hub.issues, result)
      ensures hub.ops >= old(hub.ops) && hub.Faults() >= old(hub.Faults()) && (!ShouldRemember(result) ==> hub.Faults() > old(hub.Faults()))
    {
      hide Hub.Faults, Text.IsBlank, SemanticKeyOf, Hub.Valid, Adapter.Valid, CallFingerprintOf, Sound, CreateAnswered, CreateKept, CreateReplayed,
           CreateReplay, HeldBy, CreatedBy, IsTop, CreateRan, Taken, Failures, CreateWritten, Indexed;
      DurableIsSound();
      ghost var issues, reserved := hub.issues, pendingCreate;
      CreateRefusals(issues, reserved, cfg.projectId, call, auth);
      NothingCreated(issues, cfg, call, auth);
      if !call.payload.CreatePayload? {
        return RefusedResult(call.operation, InvalidRequest("payload"));
      }
      var p := call.payload;
      if Text.IsBlank(p.intent) || Text.IsBlank(p.rationale) {
        return RefusedResult(call.operation, InvalidRequest("intent/rationale"));
      }
      var key := SemanticKeyOf(cfg, p.intent, p.interfaces, p.scopes);
      var docs := HydrateRequests();
      if !docs.Ok? {
        return Unavailable(call.operation);
      }
      assert forall n | n in hub.issues && CreatedUnder(hub.issues[n], cfg.projectId, call.idempotencyKey) ::
          Scanned(n, hub.issues[n]) in docs.value;
      var replay := ReplayDurableCreate(call, auth, docs.value);
      if replay.Some? {
        OneCreate(issues, reserved, cfg.projectId, call, auth, docs.value, replay.value);
        return replay.value;
      }
      assert Uncreated(hub.issues, cfg.projectId, call.idempotencyKey);
      result := SettleCreate(call, auth, key);
    }

    /** ... its key being fresh: from the reservation of an earlier try, or by making it. */
    method SettleCreate(call: Call, auth: AuthorizationContext, key: SemanticKey) returns (result: Result)
      requires Valid() && ValidCreate(call) && call.idempotencyKey != ""
      requires key == SemanticKeyOf(cfg, call.payload.intent, call.payload.interfaces, call.payload.scopes)
      requires Indexed(hub.issues, cfg, semanticRequests)
      requires Uncreated(hub.issues, cfg.projectId, call.idempotencyKey)
      requires forall n | n in hub.issues && hub.issues[n].RequestDoc? && hub.issues[n].projectId == cfg.projectId ::
                 hub.issues[n].request.id <= nextRequestSeq
      modifies this`pendingCreate, this`requestIssue, this`semanticRequests, this`nextRequestSeq, hub
      ensures Valid() && old(hub.log) <= hub.log
      ensures CreateKept(old(hub.issues), hub.issues, old(pendingCreate), cfg.projectId, call, auth, result)
      ensures CreateWritten(old(hub.issues), hub.issues, cfg, call, auth, result)
      ensures hub.Faults() == old(hub.Faults()) ==> CreateReplayed(old(hub.issues), old(pendingCreate), cfg.projectId, call, auth, result)
      ensures call.idempotencyKey !in old(pendingCreate) && result.mutation in {MutationApplied, MutationUnknown} ==>
                && nextRequestSeq == old(nextRequestSeq) + 1
                && (result.mutation == MutationApplied ==> result.requestId == nextRequestSeq)
                && (result.mutation == MutationUnknown ==> pendingCreate == old(pendingCreate)[call.idempotencyKey := nextRequestSeq])
      ensures call.idempotencyKey !in old(pendingCreate) && key !in old(semanticRequests) ==>
                hub.ops > old(hub.ops) && CreateRan(hub.plan, old(hub.ops), old(hub.issues), hub.issues, result)
      ensures hub.ops >= old(hub.ops) && hub.Faults() >= old(hub.Faults()) && (!ShouldRemember(result) ==> hub.Faults() > old(hub.Faults()))
    {
      hide Hub.Valid, Adapter.Valid, CallFingerprintOf, Sound, CreateAnswered, CreateKept, CreateReplayed, HeldBy, CreatedBy, CreateRan, Failures,
           CreateWritten, Indexed, Taken, SemanticKeyOf, Text.IsBlank;
      ghost var issues, reserved := hub.issues, pendingCreate;
      CreateRefusals(issues, reserved, cfg.projectId, call, auth);
      NothingCreated(issues, cfg, call, auth);
      var pending := ReconcilePendingCreate(call, key);
      if pending.Some? {
        if pending.value != Unavailable(call.operation) {
          UsurpedKeeps(issues, reserved, cfg.projectId, call, auth, pending.value);
        }
        return pending.value;
      }
      assert pendingCreate == reserved && hub.issues == issues;
      NotUsurped(hub.issues, pendingCreate, cfg.projectId, call);
      if key in semanticRequests {
        result := RefusedResult(call.operation, DuplicateRequest(semanticRequests[key]));
        FreshKeeps(issues, hub.issues, reserved, cfg.projectId, call, auth, result);
        return;
      }
      NotTaken(hub.issues, cfg, semanticRequests, key);
      result := PersistNewRequest(call, auth, key);
      FreshKeeps(issues, hub.issues, reserved, cfg.projectId, call, auth, result);
    }

    /** Loads a request, through the index or by a scan. */
    method LoadRequest(id: RequestId) returns (reply: Reply<Scanned>)
      requires Valid()
      modifies this`requestIssue, hub`ops
      ensures Valid()
      ensures reply.Ok? ==> reply.value.number in hub.issues && hub.issues[reply.value.number] == reply.value.doc
                            && IsRequest(reply.value.doc, cfg.projectId, id)
      ensures reply.Missing? ==> forall n | n in hub.issues :: !IsRequest(hub.issues[n], cfg.projectId, id)
      ensures hub.ops >= old(hub.ops) && hub.Faults() >= old(hub.Faults()) && (reply.Transient? || reply.Hard? ==> hub.Faults() > old(hub.Faults()))
    {
      hide ItemIndexOk, BindingsOk, ApprovalsOk, Hub.Valid;
      if id !in requestIssue {
        var found := FindRequest(id);
        if !found.Ok? {
          return found;
        }
        var again := hub.Get(found.value.number);
        match again {
          case Ok(doc) =>
            requestIssue := requestIssue[id := found.value.number];
            reply := Ok(Scanned(found.value.number, doc));
          case Missing => reply := Missing;
          case Transient => reply := Transient;
          case Hard => reply := Hard;
        }
        return;
      }
      var number := requestIssue[id];
      var doc := hub.Get(number);
      match doc {
        case Ok(d) =>
          reply := if !d.RequestDoc? then Hard else if d.projectId != cfg.projectId || d.request.id != id then Missing else Ok(Scanned(number, d));
        case Missing => reply := Missing;
        case Transient => reply := Transient;
        case Hard => reply := Hard;
      }
    }

    /** Writes the next revision of a request, with the record of the call that made it and
        the approval it spent, in one update. */
    method CommitMutation(call: Call, auth: AuthorizationContext, found: Scanned, changed: RequestRecord, effect: MutationEffect)
      returns (result: Result)
      requires Valid() && call.operation in {RequestRefine, RequestUpdatePriority, RequestLinkChangeSet, RequestLinkBuildWorkItem}
      requires found.number in hub.issues && hub.issues[found.number] == found.doc
      requires IsRequest(found.doc, cfg.projectId, call.requestId)
      requires call.expectedRequestRevision == Some(found.doc.request.revision)
      requires changed.id == found.doc.request.id && changed.revision == found.doc.request.revision
      requires if call.operation == RequestRefine
               then effect.approvalId !in found.doc.consumed && effect.approvalId != ""
                    && hub.gate(effect.approvalId) == (cfg.projectId, call.requestId)
               else effect.approvalId == ""
      modifies hub
      ensures Valid() && old(hub.log) <= hub.log
      ensures Committed(hub.issues, cfg.projectId, call, auth, found.number, result)
      ensures result.mutation == MutationApplied ==>
                Revised(old(hub.issues), hub.issues, found.number, changed.(revision := changed.revision + 1))
      ensures UpdateRan(hub.plan, old(hub.ops), old(hub.issues), hub.issues, result)
      ensures hub.ops >= old(hub.ops) && hub.Faults() >= old(hub.Faults())
      ensures result.mutation != MutationApplied ==> hub.Faults() > old(hub.Faults())
      ensures result.mutation == MutationApplied ==> ShouldRemember(result)
      ensures result.mutation != MutationApplied ==> !ShouldRemember(result)
    {
      hide Hub.Faults, UpdateRan, KeysOk, After, ItemIndexOk, RequestIndexOk, BindingsOk, ApprovalsOk, RevisionDoc, RecordedResult, Committed,
           MayUpdateRequest, MayUpdateItem, UnknownResult, Unavailable, ShouldRemember;
      Indeterminate(call.operation);
      ghost var log, issues, n := hub.log, hub.issues, hub.ops;
      var prior := hub.Get(found.number);
      if !prior.Ok? {
        result := if prior.Transient? then UnknownResult(call.operation) else Unavailable(call.operation);
        NothingCommitted(hub.issues, cfg.projectId, call, auth, found.number);
        Updated(hub.plan, n, issues, hub.issues, if prior.Transient? then Transient else Hard, result);
        return;
      }
      var doc := RevisionDoc(prior.value, call, auth, changed, effect);
      RevisionIsEntitled(hub.gate, cfg.projectId, call, auth, found.doc, changed, effect);
      var written := hub.Update(found.number, doc);
      StillValid(log, issues);
      NothingCommitted(hub.issues, cfg.projectId, call, auth, found.number);
      if written.Ok? {
        result := RecordedResult(call, doc);
        RevisionCommits(hub.issues, cfg.projectId, call, auth, found.number, result);
      } else {
        result := if written.Transient? then UnknownResult(call.operation) else Unavailable(call.operation);
      }
      Updated(hub.plan, n, issues, hub.issues, written, result);
    }

    method CheckRelationships(relationships: seq<Relationship>, self: RequestId) returns (rejection: Option<Rejection>)
      requires Valid()
      modifies this`requestIssue, hub`ops
      ensures Valid()
      ensures rejection.None? ==> AllRelated(hub.issues, cfg.projectId, relationships, self)
      ensures rejection.Some? && hub.Faults() == old(hub.Faults()) ==> !AllRelated(hub.issues, cfg.projectId, relationships, self)
      ensures rejection.Some? ==> !rejection.value.DuplicateRequest?
      ensures hub.ops >= old(hub.ops) && hub.Faults() >= old(hub.Faults()) && (rejection == Some(WmsUnavailable) ==> hub.Faults() > old(hub.Faults()))
    {
      hide Hub.Valid, Adapter.Valid, ValidRelationshipKind;
      var seen: set<Relationship> := {};
      for i := 0 to |relationships|
        invariant Valid() && hub.ops >= old(hub.ops) && hub.Faults() >= old(hub.Faults())
        invariant seen == set r | r in relationships[..i]
        invariant forall j | 0 <= j < i :: Related(hub.issues, cfg.projectId, relationships, self, j)
      {
        var r := relationships[i];
        assert Related(hub.issues, cfg.projectId, relationships, self, i) ==>
            r.target != 0 && r.target != self && ValidRelationshipKind(r.kind) && r !in relationships[..i];
        if r.target == 0 || r.target == self || !ValidRelationshipKind(r.kind) {
          return Some(InvalidRequest("relationships"));
        }
        var target := LoadRequest(r.target);
        if !target.Ok? {
          return Some(LoadRejection(target.Missing?, "request"));
        }
        if r in seen {
          return Some(InvalidRequest("relationships"));
        }
        assert IsRequest(hub.issues[target.value.number], cfg.projectId, r.target);
        assert relationships[..i + 1] == relationships[..i] + [r];
        seen := seen + {r};
      }
      rejection := None;
    }

    method RefineLoaded(now: Time, call: Call, auth: AuthorizationContext, found: Scanned) returns (result: Result)
      requires Valid() && Loaded(hub.issues, cfg.projectId, call, found)
      requires call.operation == RequestRefine
      modifies this`requestIssue, this`semanticRequests, this`approvals, hub
      ensures Valid() && old(hub.log) <= hub.log
      ensures Committed(hub.issues, cfg.projectId, call, auth, found.number, result)
      ensures Carried(old(hub.issues), hub.issues, cfg, now, call, auth, found, old(changeSets), old(approvals),
                      hub.Faults() == old(hub.Faults()), result)
      ensures hub.ops >= old(hub.ops) && hub.Faults() >= old(hub.Faults()) && (!ShouldRemember(result) ==> hub.Faults() > old(hub.Faults()))
    {
      hide Hub.Faults, RefinementFieldRejection, RefineRequirement, ValidateApproval, Refined, ContentOf, KeyOf, Hub.Valid, Adapter.Valid, Committed,
           Carried, MayMutate, AllRelated;
      ghost var issues, held := hub.issues, approvals;
      NotCommitted(issues, cfg.projectId, call, auth, found.number);
      NeedsApproval(issues, cfg, now, call, auth, found.doc, changeSets, held);
      NotCarried(issues, cfg, now, call, auth, found, changeSets, held);
      if !call.payload.RefinePayload? {
        return RefusedResult(call.operation, InvalidRequest("payload"));
      }
      var p, request := call.payload.refinement, found.doc.request;
      if RefinementFieldRejection(p).Some? {
        return RefusedResult(call.operation, RefinementFieldRejection(p).value);
      }
      var approvalId := if call.humanApprovalId != "" then call.humanApprovalId else p.humanApprovalId;
      if approvalId in found.doc.consumed || approvalId !in approvals {
        return RefusedResult(call.operation, UnauthorizedAction(call.operation, "project", auth.policyVersion));
      }
      var approval := approvals[approvalId];
      var invalid := ValidateApproval(approval, RefineRequirement(cfg.projectId, auth, request.id, p.approvalDigest), now);
      if invalid.Some? {
        return RefusedResult(call.operation, invalid.value);
      }
      BoundByGate(approvalId, RefineRequirement(cfg.projectId, auth, request.id, p.approvalDigest), now, auth, p.approvalDigest);
      if p.relationships.Some? {
        var broken := CheckRelationships(p.relationships.value, request.id);
        if broken.Some? {
          return RefusedResult(call.operation, broken.value);
        }
      }
      var refined := Refined(request, p);
      var priorKey, nextKey := KeyOf(cfg, request), KeyOf(cfg, refined);
      if nextKey in semanticRequests && semanticRequests[nextKey] != refined.id {
        return RefusedResult(call.operation, DuplicateRequest(semanticRequests[nextKey]));
      }
      if ContentOf(refined) != approval.digest {
        return RefusedResult(call.operation, UnauthorizedAction(call.operation, "project", auth.policyVersion));
      }
      result := CommitMutation(call, auth, found, refined, MutationEffect(approvalId, Consumed, "", ""));
      CommitCarries(issues, hub.issues, cfg, now, call, auth, found, changeSets, held, result, hub.Faults() == old(hub.Faults()));
      if result.ok {
        SpendApproval(approvalId, priorKey, nextKey, refined.id);
      }
    }

    /** What is kept in process of a refinement: the semantic index and the spent approval. */
    method SpendApproval(approvalId: string, priorKey: SemanticKey, nextKey: SemanticKey, id: RequestId)
      requires Valid() && approvalId in approvals
      modifies this`semanticRequests, this`approvals
      ensures Valid() && approvals == old(approvals)[approvalId := old(approvals)[approvalId].(status := Consumed)]
    {
      hide Hub.Valid, ItemIndexOk, RequestIndexOk, BindingsOk;
      if priorKey != nextKey {
        semanticRequests := semanticRequests - {priorKey};
      }
      semanticRequests := semanticRequests[nextKey := id];
      approvals := approvals[approvalId := approvals[approvalId].(status := Consumed)];
    }

    /** A valid approval is bound by the Gate to this project and request. */
    lemma BoundByGate(approvalId: string, requirement: ApprovalRequirement, now: Time, auth: AuthorizationContext, digest: Digest)
      requires Valid() && approvalId in approvals && ValidateApproval(approvals[approvalId], requirement, now).None?
      ensures hub.gate(approvalId) == (requirement.projectId, requirement.requestId) && approvalId != ""
      ensures forall id :: RefineRequirement(cfg.projectId, auth, id, digest).projectId == cfg.projectId
                           && RefineRequirement(cfg.projectId, auth, id, digest).requestId == id
    {
    }

    /** The linked work item is written before the request. */
    method WriteLinkedItem(found: Scanned, item: Scanned, priority: string, requestId: RequestId, changeSetId: string) returns (reply: Reply<()>)
      requires Valid() && found.number in hub.issues && hub.issues[found.number] == found.doc && found.doc.RequestDoc?
      requires item.number in hub.issues && hub.issues[item.number] == item.doc && item.doc.ItemDoc?
      modifies hub
      ensures Valid() && old(hub.log) <= hub.log
      ensures found.number in hub.issues && hub.issues[found.number] == found.doc
      ensures reply.Ok? ==>
                && item.number in hub.issues && hub.issues[item.number].ItemDoc? && item.number != found.number
                && hub.issues[item.number] == ItemDocAfter(item.doc, item.doc.item.(priority := priority), None, requestId, changeSetId)
      ensures hub.ops >= old(hub.ops) && hub.Faults() >= old(hub.Faults()) && (!reply.Ok? ==> hub.Faults() > old(hub.Faults()))
    {
      hide After, ItemIndexOk, RequestIndexOk, BindingsOk, ApprovalsOk;
      ghost var log, issues := hub.log, hub.issues;
      hub.Soundness();
      assert MayUpdateItem(item.doc, ItemDocAfter(item.doc, item.doc.item.(priority := priority), None, requestId, changeSetId)) by {
        assert DocOk(item.doc);
      }
      hide MayUpdateItem, Sound;
      reply := UpdateItemIssue(item.number, item.doc.item.(priority := priority), None, requestId, changeSetId);
      StillValid(log, issues);
    }

    /** Writes the linked work item, if there is one, and then the request. */
    method CommitLinked(
      call: Call, auth: AuthorizationContext, found: Scanned, item: Option<Scanned>, priority: string, changed: RequestRecord, effect: MutationEffect
    ) returns (result: Result)
      requires Valid() && Loaded(hub.issues, cfg.projectId, call, found) && call.operation in {RequestUpdatePriority, RequestLinkBuildWorkItem}
      requires item.Some? ==>
                 item.value.number in hub.issues && hub.issues[item.value.number] == item.value.doc && item.value.doc.ItemDoc?
      requires changed.id == found.doc.request.id && changed.revision == found.doc.request.revision && effect.approvalId == ""
      modifies hub
      ensures Valid() && old(hub.log) <= hub.log
      ensures Committed(hub.issues, cfg.projectId, call, auth, found.number, result)
      ensures result.mutation == MutationApplied ==>
                && found.number in hub.issues && hub.issues[found.number].RequestDoc?
                && hub.issues[found.number].request == changed.(revision := changed.revision + 1)
                && (item.Some? ==>
                      && item.value.number in hub.issues && hub.issues[item.value.number].ItemDoc?
                      && hub.issues[item.value.number] ==
                         ItemDocAfter(item.value.doc, item.value.doc.item.(priority := priority), None, found.doc.request.id,
                                      found.doc.request.changeSetId))
      ensures hub.ops >= old(hub.ops) && hub.Faults() >= old(hub.Faults())
      ensures result.mutation != MutationApplied ==> hub.Faults() > old(hub.Faults())
      ensures result.mutation == MutationApplied ==> ShouldRemember(result)
      ensures result.mutation != MutationApplied ==> !ShouldRemember(result)
    {
      hide Hub.Valid, Adapter.Valid, Committed, ItemDocAfter;
      if item.Some? {
        var written := WriteLinkedItem(found, item.value, priority, found.doc.request.id, found.doc.request.changeSetId);
        NotCommitted(hub.issues, cfg.projectId, call, auth, found.number);
        if !written.Ok? {
          return if written.Transient? then UnknownResult(call.operation) else Unavailable(call.operation);
        }
      }
      result := CommitMutation(call, auth, found, changed, effect);
    }

    method PriorityLoaded(now: Time, call: Call, auth: AuthorizationContext, found: Scanned) returns (result: Result)
      requires Valid() && Loaded(hub.issues, cfg.projectId, call, found)
      requires call.operation == RequestUpdatePriority
      modifies this`changeSets, this`workItemIssue, hub
      ensures Valid() && old(hub.log) <= hub.log
      ensures Committed(hub.issues, cfg.projectId, call, auth, found.number, result)
      ensures Carried(old(hub.issues), hub.issues, cfg, now, call, auth, found, old(changeSets), old(approvals),
                      hub.Faults() == old(hub.Faults()), result)
      ensures hub.ops >= old(hub.ops) && hub.Faults() >= old(hub.Faults()) && (!ShouldRemember(result) ==> hub.Faults() > old(hub.Faults()))
    {
      hide Hub.Faults, ValidPriority, Hub.Valid, Adapter.Valid, Committed, Carried, MayMutate, HasItem, ItemDocAfter;
      ghost var issues, sets := hub.issues, changeSets;
      NotCommitted(issues, cfg.projectId, call, auth, found.number);
      NeedsPriority(issues, cfg, now, call, auth, found.doc, sets, approvals);
      NotCarried(issues, cfg, now, call, auth, found, sets, approvals);
      if !call.payload.PriorityPayload? {
        return RefusedResult(call.operation, InvalidRequest("payload"));
      }
      var priority, request := call.payload.businessPriority, found.doc.request;
      if !ValidPriority(priority) {
        return RefusedResult(call.operation, InvalidRequest("business_priority"));
      }
      if request.changeSetId != "" {
        if request.changeSetId !in changeSets {
          return RefusedResult(call.operation, NotFound("change-set"));
        }
        SetChangeSetPriority(request.changeSetId, priority);
      }
      result := PrioritizeLinked(now, call, auth, found, sets);
    }

    /** ... the change set having been seen to. */
    method PrioritizeLinked(now: Time, call: Call, auth: AuthorizationContext, found: Scanned, ghost sets: map<string, ChangeSet>)
      returns (result: Result)
      requires Valid() && Loaded(hub.issues, cfg.projectId, call, found)
      requires call.operation == RequestUpdatePriority && call.payload.PriorityPayload? && ValidPriority(call.payload.businessPriority)
      requires found.doc.request.changeSetId == "" || found.doc.request.changeSetId in sets
      modifies this`workItemIssue, hub
      ensures Valid() && old(hub.log) <= hub.log
      ensures Committed(hub.issues, cfg.projectId, call, auth, found.number, result)
      ensures Carried(old(hub.issues), hub.issues, cfg, now, call, auth, found, sets, approvals, hub.Faults() == old(hub.Faults()), result)
      ensures hub.ops >= old(hub.ops) && hub.Faults() >= old(hub.Faults()) && (!ShouldRemember(result) ==> hub.Faults() > old(hub.Faults()))
    {
      hide Hub.Faults, ValidPriority, Hub.Valid, Adapter.Valid, Committed, Carried, MayMutate, HasItem, ItemDocAfter;
      ghost var issues := hub.issues;
      NotCommitted(issues, cfg.projectId, call, auth, found.number);
      NeedsPriority(issues, cfg, now, call, auth, found.doc, sets, approvals);
      NotCarried(issues, cfg, now, call, auth, found, sets, approvals);
      var priority, request := call.payload.businessPriority, found.doc.request;
      var linked := None;
      if request.buildWorkItemId != "" {
        var item := LoadItem(request.buildWorkItemId);
        NoItem(hub.issues, cfg.projectId, request.buildWorkItemId, item);
        if !item.Ok? {
          return RefusedResult(call.operation, LoadRejection(item.Missing?, "work-item"));
        }
        linked := Some(item.value);
      }
      result := CommitLinked(call, auth, found, linked, priority, request.(businessPriority := priority),
                             MutationEffect("", NO_APPROVAL_STATUS, if request.changeSetId != "" then priority else "",
                                            if request.buildWorkItemId != "" then priority else ""));
      LinkedCarries(issues, hub.issues, cfg, now, call, auth, found, sets, approvals, linked, priority, result, hub.Faults() == old(hub.Faults()));
    }

    method SetChangeSetPriority(id: string, priority: string)
      requires Valid() && id in changeSets
      modifies this`changeSets
      ensures Valid() && changeSets == old(changeSets)[id := old(changeSets)[id].(businessPriority := priority)]
    {
      changeSets := changeSets[id := changeSets[id].(businessPriority := priority)];
    }

    method LinkChangeSetLoaded(now: Time, call: Call, auth: AuthorizationContext, found: Scanned) returns (result: Result)
      requires Valid() && Loaded(hub.issues, cfg.projectId, call, found)
      requires call.operation == RequestLinkChangeSet
      modifies hub
      ensures Valid() && old(hub.log) <= hub.log
      ensures Committed(hub.issues, cfg.projectId, call, auth, found.number, result)
      ensures Carried(old(hub.issues), hub.issues, cfg, now, call, auth, found, old(changeSets), old(approvals),
                      hub.Faults() == old(hub.Faults()), result)
      ensures hub.ops >= old(hub.ops) && hub.Faults() >= old(hub.Faults()) && (!ShouldRemember(result) ==> hub.Faults() > old(hub.Faults()))
    {
      hide Hub.Faults, Hub.Valid, Adapter.Valid, Committed, Carried, MayMutate;
      ghost var issues := hub.issues;
      NotCommitted(issues, cfg.projectId, call, auth, found.number);
      NeedsOpenChangeSet(issues, cfg, now, call, auth, found.doc, changeSets, approvals);
      NotCarried(issues, cfg, now, call, auth, found, changeSets, approvals);
      if !call.payload.ChangeSetLinkPayload? {
        return RefusedResult(call.operation, InvalidRequest("payload"));
      }
      var id, request := call.payload.changeSetId, found.doc.request;
      if id !in changeSets {
        return RefusedResult(call.operation, NotFound("change-set"));
      }
      var changeSet := changeSets[id];
      if || id == "" || request.changeSetId == id
         || (call.payload.targetRevision != "" && changeSet.revision != call.payload.targetRevision)
         || (changeSet.revision != "proposed" && changeSet.revision != "approved")
      {
        return RefusedResult(call.operation, InvalidRequest("change_set_id/target_revision"));
      }
      request := request.(changeSetId := changeSet.id,
                          businessPriority := if changeSet.businessPriority != "" then changeSet.businessPriority else request.businessPriority);
      result := CommitMutation(call, auth, found, request, MutationEffect("", NO_APPROVAL_STATUS, changeSet.businessPriority, ""));
      CommitCarries(issues, hub.issues, cfg, now, call, auth, found, changeSets, approvals, result, hub.Faults() == old(hub.Faults()));
    }

    method LinkWorkItemLoaded(now: Time, call: Call, auth: AuthorizationContext, found: Scanned) returns (result: Result)
      requires Valid() && Loaded(hub.issues, cfg.projectId, call, found)
      requires call.operation == RequestLinkBuildWorkItem
      modifies this`workItemIssue, hub
      ensures Valid() && old(hub.log) <= hub.log
      ensures Committed(hub.issues, cfg.projectId, call, auth, found.number, result)
      ensures Carried(old(hub.issues), hub.issues, cfg, now, call, auth, found, old(changeSets), old(approvals),
                      hub.Faults() == old(hub.Faults()), result)
      ensures hub.ops >= old(hub.ops) && hub.Faults() >= old(hub.Faults()) && (!ShouldRemember(result) ==> hub.Faults() > old(hub.Faults()))
    {
      hide Hub.Faults, Hub.Valid, Adapter.Valid, Committed, Carried, MayMutate, HasItem, ItemDocAfter;
      ghost var issues := hub.issues;
      NotCommitted(issues, cfg.projectId, call, auth, found.number);
      NeedsWorkItem(issues, cfg, now, call, auth, found.doc, changeSets, approvals);
      NotCarried(issues, cfg, now, call, auth, found, changeSets, approvals);
      if !call.payload.WorkItemLinkPayload? {
        return RefusedResult(call.operation, InvalidRequest("payload"));
      }
      var id, request := call.payload.buildWorkItemId, found.doc.request;
      var item := LoadItem(id);
      NoItem(hub.issues, cfg.projectId, id, item);
      if !item.Ok? {
        return RefusedResult(call.operation, LoadRejection(item.Missing?, "work-item"));
      }
      if id == "" || request.buildWorkItemId == id {
        return RefusedResult(call.operation, InvalidRequest("build_work_item_id"));
      }
      var priority := if request.businessPriority != "" then request.businessPriority else item.value.doc.item.priority;
      result := CommitLinked(call, auth, found, Some(item.value), priority, request.(buildWorkItemId := item.value.doc.item.id),
                             MutationEffect("", NO_APPROVAL_STATUS, "", priority));
      LinkedCarries(issues, hub.issues, cfg, now, call, auth, found, changeSets, approvals, Some(item.value), priority, result,
                    hub.Faults() == old(hub.Faults()));
    }

    method MutateLoaded(now: Time, call: Call, auth: AuthorizationContext, found: Scanned) returns (result: Result)
      requires Valid() && Loaded(hub.issues, cfg.projectId, call, found)
      requires call.operation in {RequestRefine, RequestUpdatePriority, RequestLinkChangeSet, RequestLinkBuildWorkItem}
      modifies this`requestIssue, this`workItemIssue, this`semanticRequests, this`approvals, this`changeSets, hub
      ensures Valid() && old(hub.log) <= hub.log
      ensures Committed(hub.issues, cfg.projectId, call, auth, found.number, result)
      ensures Carried(old(hub.issues), hub.issues, cfg, now, call, auth, found, old(changeSets), old(approvals),
                      hub.Faults() == old(hub.Faults()), result)
      ensures hub.ops >= old(hub.ops) && hub.Faults() >= old(hub.Faults()) && (!ShouldRemember(result) ==> hub.Faults() > old(hub.Faults()))
    {
      hide Hub.Valid, Adapter.Valid, Committed, Loaded;
      match call.operation {
        case RequestRefine => result := RefineLoaded(now, call, auth, found);
        case RequestUpdatePriority => result := PriorityLoaded(now, call, auth, found);
        case RequestLinkChangeSet => result := LinkChangeSetLoaded(now, call, auth, found);
        case RequestLinkBuildWorkItem => result := LinkWorkItemLoaded(now, call, auth, found);
      }
    }

    /** A mutation of an existing request. A retry whose effect still stands writes nothing
        and, if nothing fails, is answered with that effect's revision. */
    method RunMutation(now: Time, call: Call, auth: AuthorizationContext) returns (result: Result)
      requires Valid() && call.idempotencyKey != ""
      requires call.operation in {RequestRefine, RequestUpdatePriority, RequestLinkChangeSet, RequestLinkBuildWorkItem}
      modifies this, hub
      ensures Valid() && old(hub.log) <= hub.log && idempotency == old(idempotency)
      ensures MutationKept(old(hub.issues), hub.issues, cfg.projectId, call, auth, result)
      ensures hub.Faults() == old(hub.Faults()) ==> MutationReplayed(old(hub.issues), cfg.projectId, call, auth, result)
      ensures MutationCarried(old(hub.issues), hub.issues, cfg, now, call, auth, old(changeSets), old(approvals),
                              hub.Faults() == old(hub.Faults()), result)
      ensures hub.ops >= old(hub.ops) && hub.Faults() >= old(hub.Faults()) && (!ShouldRemember(result) ==> hub.Faults() > old(hub.Faults()))
    {
      hide Hub.Valid, Adapter.Valid, Committed, MutationKept, MutationReplayed, Sound, ResolveRevision, MutationCarried, Carried;
      DurableIsSound();
      ghost var issues := hub.issues;
      var loaded := LoadRequest(call.requestId);
      if !loaded.Ok? {
        result := RefusedResult(call.operation, LoadRejection(loaded.Missing?, "request"));
        RefusalKeeps(issues, cfg.projectId, call, auth, LoadRejection(loaded.Missing?, "request"));
        assert hub.issues == issues;
        if loaded.Missing? {
          assert forall n | n in issues :: !IsRequest(issues[n], cfg.projectId, call.requestId);
          NoRequestNoMutation(issues, cfg.projectId, call, auth, result);
        }
        NothingLoaded(issues, cfg, now, call, auth, changeSets, approvals, hub.Faults() == old(hub.Faults()),
                      LoadRejection(loaded.Missing?, "request"));
        return;
      }
      var resolved := ResolveRevision(call, auth, loaded.value.doc);
      if resolved.Some? {
        ResolvedKeeps(issues, cfg.projectId, call, auth, loaded.value);
        LoadedCarries(issues, issues, cfg, now, call, auth, loaded.value, changeSets, approvals, hub.Faults() == old(hub.Faults()), resolved.value);
        return resolved.value;
      }
      Unresolved(issues, cfg.projectId, call, auth, loaded.value);
      ghost var faults := hub.Faults();
      result := MutateLoaded(now, call, auth, loaded.value);
      CommittedKeeps(issues, hub.issues, cfg.projectId, call, auth, loaded.value, result);
      StillCarried(issues, hub.issues, cfg, now, call, auth, loaded.value, old(changeSets), old(approvals), hub.Faults() == faults,
                   hub.Faults() == old(hub.Faults()), result);
      LoadedCarries(issues, hub.issues, cfg, now, call, auth, loaded.value, old(changeSets), old(approvals), hub.Faults() == old(hub.Faults()),
                    result);
    }

    /** A read: found or not; what a query lists is not modelled. */
    method RunRead(call: Call) returns (result: Result)
      requires Valid()
      modifies this`requestIssue, this`workItemIssue, hub`ops
      ensures Valid() && result.mutation == MutationNone
      ensures hub.ops >= old(hub.ops) && hub.Faults() >= old(hub.Faults()) && (!ShouldRemember(result) ==> hub.Faults() > old(hub.Faults()))
    {
      hide Hub.Valid, Adapter.Valid;
      if call.operation == RequestGet {
        var loaded := LoadRequest(call.requestId);
        result := if loaded.Ok? then RequestApplied(call, loaded.value.doc.request).(outcome := Read, mutation := MutationNone,
                                                                                      idempotency := NotIdempotent)
                  else RefusedResult(call.operation, LoadRejection(loaded.Missing?, "request"));
      } else if call.operation == WorkItemGet {
        var loaded := LoadItem(call.workItemId);
        result := if loaded.Ok? then BlankResult(call.operation)
                  else RefusedResult(call.operation, LoadRejection(loaded.Missing?, "work-item"));
      } else {
        result := BlankResult(call.operation);
      }
    }

    method RunRequest(now: Time, call: Call, auth: AuthorizationContext) returns (result: Result)
      requires Valid() && call.operation !in {Materialize, Claim}
      modifies this, hub
      ensures Valid() && old(hub.log) <= hub.log
      ensures CallKept(old(hub.issues), hub.issues, old(idempotency), old(pendingCreate), cfg, now, call, auth, result)
      ensures hub.ops >= old(hub.ops) && hub.Faults() >= old(hub.Faults()) && (!ShouldRemember(result) ==> hub.Faults() > old(hub.Faults()))
      ensures hub.Faults() == old(hub.Faults()) && MutatesRequest(call.operation) && call.idempotencyKey != "" ==>
                RequestReplayed(old(hub.issues), old(idempotency), old(pendingCreate), cfg.projectId, call, auth, result)
      ensures Recorded(old(idempotency), idempotency, call.idempotencyKey, CallUse(CallFingerprintOf(call, auth)), result)
      ensures idempotency != old(idempotency) ==> ShouldRemember(result)
      ensures call.operation == RequestCreate && call.idempotencyKey !in old(idempotency) ==>
                Numbered(old(hub.issues), cfg.projectId, old(nextRequestSeq), nextRequestSeq, old(pendingCreate), pendingCreate, call, result)
      ensures call.operation == RequestCreate && call.idempotencyKey !in old(idempotency) && call.idempotencyKey != ""
              && FirstCreate(old(hub.issues), old(pendingCreate), old(semanticRequests), cfg, call) && hub.plan(old(hub.ops)).Fine? ==>
                hub.ops > old(hub.ops) + 1 && CreateRan(hub.plan, old(hub.ops) + 1, old(hub.issues), hub.issues, result)
      ensures MutatesOne(call.operation) && call.idempotencyKey !in old(idempotency) && call.idempotencyKey != "" ==>
                MutationCarried(old(hub.issues), hub.issues, cfg, now, call, auth, old(changeSets), old(approvals),
                                hub.Faults() == old(hub.Faults()), result)
    {
      hide Hub.Valid, Adapter.Valid, CallFingerprintOf, CallKept, RequestReplayed, Recorded, ShouldRemember, Unavailable, IsTop, MutationCarried,
           FirstCreate, CreateRan, Failures;
      Indeterminate(call.operation);
      RefusedKeeps(hub.issues, idempotency, pendingCreate, cfg, now, call, auth);
      NothingRecorded(idempotency, call.idempotencyKey, CallUse(CallFingerprintOf(call, auth)));
      if MutatesRequest(call.operation) {
        result := RunRequestMutation(now, call, auth);
      } else {
        result := RunQuery(call);
        ReadKeeps(hub.issues, idempotency, pendingCreate, cfg, now, call, auth, result);
      }
    }

    method RunQuery(call: Call) returns (result: Result)
      requires Valid()
      modifies this`requestIssue, this`workItemIssue, this`semanticRequests, this`nextRequestSeq, this`requestsHydrated, hub`ops
      ensures Valid() && result.mutation == MutationNone
      ensures hub.ops >= old(hub.ops) && hub.Faults() >= old(hub.Faults()) && (!ShouldRemember(result) ==> hub.Faults() > old(hub.Faults()))
    {
      hide Hub.Valid, Adapter.Valid;
      if call.operation !in {WorkItemGet, WorkItemQuery, BlockedWorkQuery} {
        var ready := EnsureRequestsHydrated();
        if !ready {
          return Unavailable(call.operation);
        }
      }
      result := RunRead(call);
    }

    method RunRequestMutation(now: Time, call: Call, auth: AuthorizationContext) returns (result: Result)
      requires Valid() && MutatesRequest(call.operation)
      modifies this, hub
      ensures Valid() && old(hub.log) <= hub.log
      ensures CallKept(old(hub.issues), hub.issues, old(idempotency), old(pendingCreate), cfg, now, call, auth, result)
      ensures hub.ops >= old(hub.ops) && hub.Faults() >= old(hub.Faults()) && (!ShouldRemember(result) ==> hub.Faults() > old(hub.Faults()))
      ensures hub.Faults() == old(hub.Faults()) && call.idempotencyKey != "" ==>
                RequestReplayed(old(hub.issues), old(idempotency), old(pendingCreate), cfg.projectId, call, auth, result)
      ensures Recorded(old(idempotency), idempotency, call.idempotencyKey, CallUse(CallFingerprintOf(call, auth)), result)
      ensures idempotency != old(idempotency) ==> ShouldRemember(result)
      ensures call.operation == RequestCreate && call.idempotencyKey !in old(idempotency) ==>
                Numbered(old(hub.issues), cfg.projectId, old(nextRequestSeq), nextRequestSeq, old(pendingCreate), pendingCreate, call, result)
      ensures call.operation == RequestCreate && call.idempotencyKey !in old(idempotency) && call.idempotencyKey != ""
              && FirstCreate(old(hub.issues), old(pendingCreate), old(semanticRequests), cfg, call) && hub.plan(old(hub.ops)).Fine? ==>
                hub.ops > old(hub.ops) + 1 && CreateRan(hub.plan, old(hub.ops) + 1, old(hub.issues), hub.issues, result)
      ensures MutatesOne(call.operation) && call.idempotencyKey !in old(idempotency) && call.idempotencyKey != "" ==>
                MutationCarried(old(hub.issues), hub.issues, cfg, now, call, auth, old(changeSets), old(approvals),
                                hub.Faults() == old(hub.Faults()), result)
    {
      hide Hub.Faults, Hub.Valid, Adapter.Valid, CallFingerprintOf, CallKept, RequestReplayed, CreateKept, CreateWritten,
           CreateReplayed, MutationKept, MutationReplayed,
           MarkReplayed, IsTop, MutationCarried, FirstCreate, CreateRan, Failures;
      ghost var issues, keys, pending := hub.issues, idempotency, pendingCreate;
      RefusedKeeps(issues, keys, pending, cfg, now, call, auth);
      if call.idempotencyKey == "" {
        return RefusedResult(call.operation, InvalidRequest("idempotency_key"));
      }
      if call.operation != RequestCreate {
        var ready := EnsureRequestsHydrated();
        if !ready {
          NothingLoaded(issues, cfg, now, call, auth, changeSets, approvals, false, WmsUnavailable);
          return Unavailable(call.operation);
        }
      }
      var use := CallUse(CallFingerprintOf(call, auth));
      if call.idempotencyKey in idempotency {
        if idempotency[call.idempotencyKey].use == use {
          CallsAreAnswered(call.idempotencyKey);
          result := MarkReplayed(idempotency[call.idempotencyKey].result);
        } else {
          result := RefusedResult(call.operation, IdempotencyConflict("request-fingerprint", call.idempotencyKey));
        }
        AnsweredFromRecord(issues, keys, pending, cfg, now, call, auth, result);
        return;
      }
      ghost var faults, sets, held := hub.Faults(), changeSets, approvals;
      result := RunFreshRequest(now, call, auth);
      if call.operation != RequestCreate {
        AllStillCarried(issues, hub.issues, cfg, now, call, auth, sets, held, hub.Faults() == faults, hub.Faults() == old(hub.Faults()), result);
      }
    }

    /** ... its key being fresh. */
    method RunFreshRequest(now: Time, call: Call, auth: AuthorizationContext) returns (result: Result)
      requires Valid() && MutatesRequest(call.operation) && call.idempotencyKey != "" && call.idempotencyKey !in idempotency
      modifies this, hub
      ensures Valid() && old(hub.log) <= hub.log
      ensures CallKept(old(hub.issues), hub.issues, old(idempotency), old(pendingCreate), cfg, now, call, auth, result)
      ensures hub.ops >= old(hub.ops) && hub.Faults() >= old(hub.Faults()) && (!ShouldRemember(result) ==> hub.Faults() > old(hub.Faults()))
      ensures hub.Faults() == old(hub.Faults()) ==>
                RequestReplayed(old(hub.issues), old(idempotency), old(pendingCreate), cfg.projectId, call, auth, result)
      ensures Recorded(old(idempotency), idempotency, call.idempotencyKey, CallUse(CallFingerprintOf(call, auth)), result)
      ensures idempotency != old(idempotency) ==> ShouldRemember(result)
      ensures call.operation == RequestCreate ==>
                Numbered(old(hub.issues), cfg.projectId, old(nextRequestSeq), nextRequestSeq, old(pendingCreate), pendingCreate, call, result)
      ensures call.operation == RequestCreate
              && FirstCreate(old(hub.issues), old(pendingCreate), old(semanticRequests), cfg, call) && hub.plan(old(hub.ops)).Fine? ==>
                hub.ops > old(hub.ops) + 1 && CreateRan(hub.plan, old(hub.ops) + 1, old(hub.issues), hub.issues, result)
      ensures MutatesOne(call.operation) ==>
                MutationCarried(old(hub.issues), hub.issues, cfg, now, call, auth, old(changeSets), old(approvals),
                                hub.Faults() == old(hub.Faults()), result)
    {
      hide Hub.Faults, Hub.Valid, Adapter.Valid, CallFingerprintOf, CallKept, RequestReplayed, CreateKept, CreateWritten, CreateReplayed,
           MutationKept, MutationReplayed, Numbered, MutationCarried, FirstCreate, CreateRan, Failures;
      ghost var issues, keys, pending := hub.issues, idempotency, pendingCreate;
      if call.operation == RequestCreate {
        result := RunCreate(call, auth);
      } else {
        result := RunMutation(now, call, auth);
      }
      FreshCall(issues, hub.issues, keys, pending, cfg, now, call, auth, result);
      if ShouldRemember(result) {
        Remember(call.idempotencyKey, CallUse(CallFingerprintOf(call, auth)), result);
      }
    }

    /** One call, under the Coordinator's lock. */
    method Run(now: Time, call: Call, gate: Option<AuthorizationContext>) returns (result: Result)
      requires Valid()
      modifies this, hub
      ensures Valid() && old(hub.log) <= hub.log
      ensures call.operation in {Materialize, Claim} ==> Fenced(old(hub.issues), hub.issues, old(nextFenceSeq), nextFenceSeq)
      ensures gate.None? ==> hub.issues == old(hub.issues) && idempotency == old(idempotency)
      ensures gate.Some? ==>
                && CallKept(old(hub.issues), hub.issues, old(idempotency), old(pendingCreate), cfg, now, call, gate.value, result)
                && CallNoted(old(idempotency), idempotency, cfg, call, gate.value, result,
                             Freezes(cfg, hub.plan, old(hub.ops), old(bindings), old(idempotency), call, gate.value, now))
      ensures gate.Some? && hub.Faults() == old(hub.Faults()) && Heard(cfg, call, gate.value, now) ==>
                && CallReplayed(old(hub.issues), old(idempotency), old(bindings), old(pendingCreate), cfg, call, gate.value, result)
                && (call.operation in {Materialize, Claim} ==>
                      LifecycleDecided(old(hub.issues), old(idempotency), cfg.projectId, Normalized(cfg, call, gate.value, call.payload.payload),
                                       BaseContext(now, old(nextFenceSeq), old(approvals)), result))
      ensures gate.Some? && Freezes(cfg, hub.plan, old(hub.ops), old(bindings), old(idempotency), call, gate.value, now) ==>
                && hub.issues == old(hub.issues) && result.error == Some(WmsUnavailable)
                && hub.ops > old(hub.ops) + LookupsFor(Normalized(cfg, call, gate.value, call.payload.payload))
      ensures gate.Some? && Heard(cfg, call, gate.value, now) && call.operation == RequestCreate && call.idempotencyKey !in old(idempotency)
              && FirstCreate(old(hub.issues), old(pendingCreate), old(semanticRequests), cfg, call) && hub.plan(old(hub.ops)).Fine? ==>
                hub.ops > old(hub.ops) + 1 && CreateRan(hub.plan, old(hub.ops) + 1, old(hub.issues), hub.issues, result)
      ensures gate.Some? && Heard(cfg, call, gate.value, now) && MutatesOne(call.operation) && call.idempotencyKey !in old(idempotency) ==>
                MutationCarried(old(hub.issues), hub.issues, cfg, now, call, gate.value, old(changeSets), old(approvals),
                                hub.Faults() == old(hub.Faults()), result)
      ensures gate.Some? && call.operation == RequestCreate && call.idempotencyKey !in old(idempotency) ==>
                Numbered(old(hub.issues), cfg.projectId, old(nextRequestSeq), nextRequestSeq, old(pendingCreate), pendingCreate, call, result)
      ensures hub.ops >= old(hub.ops) && hub.Faults() >= old(hub.Faults())
      ensures !ShouldRemember(result) ==>
                hub.Faults() > old(hub.Faults()) || (call.operation == Materialize && Frozen(old(idempotency), call.idempotencyKey))
    {
      hide Hub.Valid, Adapter.Valid, CallKept, CallNoted, CallReplayed, RoleHasWmsOperation, AuthorizeContext, Normalized, IsTop,
           LifecycleDecided, BaseContext, MutationCarried, FirstCreate, CreateRan, Failures, Fenced;
      NoneIssued(hub.issues, nextFenceSeq);
      if gate.None? {
        return RefusedResult(call.operation, UnauthorizedAction(call.operation, Scope(call), ""));
      }
      var auth := gate.value;
      RefusedKeeps(hub.issues, idempotency, pendingCreate, cfg, now, call, auth);
      RefusedNotes(idempotency, cfg, call, auth);
      if !Supported(call.operation) {
        return RefusedResult(call.operation, UnauthorizedAction(call.operation, Scope(call), ""));
      }
      if !RoleHasWmsOperation(auth.role, call.operation) {
        return RefusedResult(call.operation, UnauthorizedAction(call.operation, Scope(call), auth.policyVersion));
      }
      var unauthorized := AuthorizeContext(auth, call.operation, cfg.projectId, call.workItemId, "", ["project:" + cfg.projectId], now);
      if unauthorized.Some? {
        return RefusedResult(call.operation, unauthorized.value);
      }
      if call.policyVersion != "" && call.policyVersion != auth.policyVersion {
        return RefusedResult(call.operation, UnauthorizedAction(call.operation, Scope(call), auth.policyVersion));
      }
      result := RunPermitted(now, call, auth);
    }

    method RunPermitted(now: Time, call: Call, auth: AuthorizationContext) returns (result: Result)
      requires Valid() && Permitted(cfg, call, auth, now)
      modifies this, hub
      ensures Valid() && old(hub.log) <= hub.log
      ensures call.operation in {Materialize, Claim} ==> Fenced(old(hub.issues), hub.issues, old(nextFenceSeq), nextFenceSeq)
      ensures CallKept(old(hub.issues), hub.issues, old(idempotency), old(pendingCreate), cfg, now, call, auth, result)
      ensures CallNoted(old(idempotency), idempotency, cfg, call, auth, result,
                        Freezes(cfg, hub.plan, old(hub.ops), old(bindings), old(idempotency), call, auth, now))
      ensures hub.Faults() == old(hub.Faults()) && Heard(cfg, call, auth, now) ==>
                && CallReplayed(old(hub.issues), old(idempotency), old(bindings), old(pendingCreate), cfg, call, auth, result)
                && (call.operation in {Materialize, Claim} ==>
                      LifecycleDecided(old(hub.issues), old(idempotency), cfg.projectId, Normalized(cfg, call, auth, call.payload.payload),
                                       BaseContext(now, old(nextFenceSeq), old(approvals)), result))
      ensures Freezes(cfg, hub.plan, old(hub.ops), old(bindings), old(idempotency), call, auth, now) ==>
                && hub.issues == old(hub.issues) && result.error == Some(WmsUnavailable)
                && hub.ops > old(hub.ops) + LookupsFor(Normalized(cfg, call, auth, call.payload.payload))
      ensures call.operation == RequestCreate && call.idempotencyKey !in old(idempotency) ==>
                Numbered(old(hub.issues), cfg.projectId, old(nextRequestSeq), nextRequestSeq, old(pendingCreate), pendingCreate, call, result)
      ensures call.operation == RequestCreate && call.idempotencyKey !in old(idempotency) && call.idempotencyKey != ""
              && FirstCreate(old(hub.issues), old(pendingCreate), old(semanticRequests), cfg, call) && hub.plan(old(hub.ops)).Fine? ==>
                hub.ops > old(hub.ops) + 1 && CreateRan(hub.plan, old(hub.ops) + 1, old(hub.issues), hub.issues, result)
      ensures MutatesOne(call.operation) && call.idempotencyKey !in old(idempotency) && call.idempotencyKey != "" ==>
                MutationCarried(old(hub.issues), hub.issues, cfg, now, call, auth, old(changeSets), old(approvals),
                                hub.Faults() == old(hub.Faults()), result)
      ensures hub.ops >= old(hub.ops) && hub.Faults() >= old(hub.Faults())
      ensures !ShouldRemember(result) ==>
                hub.Faults() > old(hub.Faults()) || (call.operation == Materialize && Frozen(old(idempotency), call.idempotencyKey))
    {
      hide Hub.Valid, Adapter.Valid, CallKept, CallNoted, CallReplayed, Permitted, Normalized, LifecycleKept, LifecycleReplayed, Noted,
           RequestReplayed, Recorded, Frozen, CallFingerprintOf, Authorized, ShouldRemember, IsTop, LifecycleDecided, BaseContext,
           MutationCarried, FirstCreate, CreateRan, Failures, LookupsFor, Fenced;
      NoneIssued(hub.issues, nextFenceSeq);
      ghost var issues, keys, pending := hub.issues, idempotency, pendingCreate;
      if call.operation in {Materialize, Claim} {
        ghost var failed;
        result, failed := RunLifecycle(now, call, auth);
        assert failed <==> Freezes(cfg, hub.plan, old(hub.ops), old(bindings), keys, call, auth, now) by {
          hide Unreadable;
        }
        LifecycleCallKept(issues, hub.issues, keys, pending, cfg, now, call, auth, result);
        LifecycleCallNoted(issues, keys, idempotency, old(bindings), pending, cfg, call, auth, result, failed);
        if failed {
          FrozenWith(keys, idempotency, cfg, call, auth, result);
        }
      } else {
        result := RunRequest(now, call, auth);
        RequestCallNoted(issues, keys, idempotency, old(bindings), pending, cfg, call, auth, result);
      }
    }

    // ----- seeds -----

    method SeedChange(changeSet: ChangeSet) returns (ok: bool)
      requires Valid()
      modifies this`changeSets
      ensures Valid() && ok == (changeSet.id != "" && changeSet.id !in old(changeSets))
      ensures changeSets == if ok then old(changeSets)[changeSet.id := changeSet] else old(changeSets)
    {
      ok := changeSet.id != "" && changeSet.id !in changeSets;
      if ok {
        changeSets := changeSets[changeSet.id := changeSet];
      }
    }

    /** The Gate binds an approval id to one project and one request. */
    method SeedGateApproval(id: string, approval: Approval) returns (ok: bool)
      requires Valid() && hub.gate(id) == (approval.projectId, approval.requestId)
      modifies this`approvals
      ensures Valid() && ok == (id != "" && id !in old(approvals))
      ensures approvals == if ok then old(approvals)[id := approval] else old(approvals)
    {
      ok := id != "" && id !in approvals;
      if ok {
        approvals := approvals[id := approval];
      }
    }

    lemma CallsAreAnswered(key: string)
      requires Valid() && key in idempotency && idempotency[key].use.CallUse?
      ensures ShouldRemember(MarkReplayed(idempotency[key].result))
      ensures MarkReplayed(idempotency[key].result).mutation == MutationNone
    {
      hide ItemIndexOk, RequestIndexOk, BindingsOk, ApprovalsOk, Hub.Valid;
    }

    lemma DurableIsSound()
      requires Valid()
      ensures Sound(hub.issues)
    {
      hub.Soundness();
    }

    lemma IndexedItem()
      requires Valid()
      ensures forall id | id in workItemIssue :: workItemIssue[id] in hub.issues && IsItem(hub.issues[workItemIssue[id]], cfg.projectId, id)
    {
    }

    /** The indexes are still right after writes to the hub. */
    lemma StillValid(log: seq<Write>, issues: Issues)
      requires hub.Valid() && log <= hub.log && issues == After(log)
      requires ItemIndexOk(cfg.projectId, workItemIssue, issues) && RequestIndexOk(cfg.projectId, requestIssue, issues)
      requires BindingsOk(cfg.projectId, bindings, issues) && ApprovalsOk(hub.gate, approvals) && KeysOk(idempotency)
      ensures Valid()
    {
      hide After, Evolves;
      LogEvolves(hub, log);
      IndexesStay(cfg.projectId, workItemIssue, requestIssue, bindings, issues, hub.issues);
    }
  }

  /** A new work item under a free key and a free id may be created. */
  lemma NewItemIsFresh(
    projectId: string, issues: Issues, request: Request, evaluation: EvaluationContext, decision: Decision, doc: Doc
  )
    requires request.projectId == projectId
    requires IsNew(request, evaluation, decision) && decision.outcome == Allowed
    requires !KeyBound(issues, projectId, request.materializationKey)
    requires forall n | n in issues :: !IsItem(issues[n], projectId, request.workItemId)
    requires doc == ItemDoc(projectId, NewItem(request, decision.after.value, evaluation), request.materializationKey,
                            decision.reservation.value.source, 0, "", "", None)
    ensures MayCreate(issues, doc) && doc.item.id == request.workItemId
  {
    hide GateOk, ReadinessFailure, SourceOf, AllCompleted;
  }

  lemma NewRequestIsFresh(issues: Issues, doc: Doc)
    requires doc.RequestDoc? && doc.request.id != 0 && doc.createKey != "" && doc.request.revision == 1
    requires doc.consumed == [] && doc.lastMutation.None?
    requires forall n | n in issues ::
               !IsRequest(issues[n], doc.projectId, doc.request.id) && !CreatedUnder(issues[n], doc.projectId, doc.createKey)
    ensures MayCreate(issues, doc)
  {
  }

  /** An allowed claim is a claim of an unclaimed ready item. */
  lemma ClaimIsEntitled(
    prior: Doc, request: Request, evaluation: EvaluationContext, decision: Decision, updated: WorkItem, claim: ClaimRecord
  )
    requires prior.ItemDoc? && DocOk(prior)
    requires request.operation == Claim && evaluation.nextToken != NO_TOKEN
    requires IsMove(prior.item, request, evaluation, decision)
    requires claim.token == decision.tokenIssued
    requires updated.lease.Some? && updated.lease.value.token == claim.token && updated.owner == updated.lease.value.owner
    requires updated.state == decision.after.value.state && updated.version == decision.after.value.version
    requires updated.id == prior.item.id && updated.projectId == prior.item.projectId
    requires updated.materializationKey == prior.item.materializationKey
    ensures MayUpdateItem(prior, ItemDocAfter(prior, updated, Some(claim), 0, ""))
  {
    hide CandidateRejection, LiveFence, ResolutionBinding, AllCompleted;
  }

  /** A claim changes the document. */
  lemma NotClaimedYet(
    prior: Doc, request: Request, evaluation: EvaluationContext, decision: Decision, updated: WorkItem, claim: ClaimRecord
  )
    requires prior.ItemDoc? && request.operation == Claim && IsMove(prior.item, request, evaluation, decision)
    requires updated.version == decision.after.value.version
    ensures ItemDocAfter(prior, updated, Some(claim), 0, "") != prior
  {
    hide CandidateRejection, LiveFence, ResolutionBinding, AllCompleted;
  }

  lemma MoveHasAfter(item: WorkItem, request: Request, evaluation: EvaluationContext, decision: Decision)
    requires IsMove(item, request, evaluation, decision)
    ensures decision.after.Some?
  {
  }

  /** An allowed claim is one the adapter may write, and is the claim of this request. */
  lemma ClaimIsMade(
    issues: Issues, cfg: Config, request: Request, n: nat, decision: Decision, evaluation: EvaluationContext, updated: WorkItem,
    claim: ClaimRecord
  )
    requires Sound(issues) && n in issues && IsItem(issues[n], cfg.projectId, request.workItemId)
    requires request.operation == Claim && evaluation.nextToken != NO_TOKEN
    requires IsMove(issues[n].item, request, evaluation, decision)
    requires Granted(issues, cfg.projectId, request, Some(issues[n].item), decision, evaluation)
    requires updated == issues[n].item.(
               state := decision.after.value.state, version := decision.after.value.version, reconciliation := NO_RECONCILIATION,
               owner := request.authorization.subject,
               lease := Some(Lease(request.authorization.subject, decision.tokenIssued, evaluation.time + cfg.leaseDuration)))
    requires claim == ClaimRecord(request.operation, request.idempotencyKey, FingerprintOf(request), decision.tokenIssued)
    ensures var doc := ItemDocAfter(issues[n], updated, Some(claim), 0, "");
            && decision.tokenIssued == evaluation.nextToken
            && MayUpdateItem(issues[n], doc) && doc != issues[n] && doc.ItemDoc? && doc.item == updated && doc.lastClaim == Some(claim)
            && ClaimedDoc(cfg, evaluation.time, request, issues[n], doc)
            && ClaimStands(issues[n := doc], cfg.projectId, request, n)
  {
    hide FingerprintOf, Granted, ClaimedDoc, MayUpdateItem;
    assert decision.tokenIssued == evaluation.nextToken by {
      hide CandidateRejection, LiveFence, ResolutionBinding, AllCompleted;
    }
    ClaimIsEntitled(issues[n], request, evaluation, decision, updated, claim);
    NotClaimedYet(issues[n], request, evaluation, decision, updated, claim);
    hide IsMove;
    GrantedClaim(issues, cfg, request, issues[n], decision, evaluation, updated, claim);
  }

  /** An applied claim is durable under the token it was answered with. */
  ghost predicate ClaimAnswered(issues: Issues, projectId: string, request: Request, result: Result) {
    && result.decision.Some?
    && exists n | n in issues ::
         ClaimStands(issues, projectId, request, n) && issues[n].lastClaim.value.token == result.decision.value.tokenIssued
  }

  lemma Indeterminate(operation: Operation)
    ensures var r := UnknownResult(operation); r.mutation == MutationUnknown && !r.ok && r.outcome == Refused && !ShouldRemember(r)
    ensures var r := Unavailable(operation); r.mutation == MutationNone && !r.ok && r.outcome == Refused && !ShouldRemember(r)
  {
  }

  lemma DecisionResult(operation: Operation, decision: Decision)
    ensures var r := ResultOfDecision(operation, decision);
            && r.decision == Some(decision)
            && (decision.authority == Authoritative ==>
                  if decision.outcome == Rejected then r.mutation == MutationNone && !r.ok && r.outcome == Refused && r.error == decision.rejection
                  else r.mutation == MutationApplied && r.ok && r.outcome == Applied && r.error.None?)
            && (decision.authority == Authoritative && (decision.outcome == Rejected ==> decision.rejection != Some(WmsUnavailable)) ==>
                  ShouldRemember(r))
  {
    assert BlankResult(operation).error.None? && BlankResult(operation).mutation == MutationNone && BlankResult(operation).ok;
    hide BlankResult;
  }

  /** The evaluator's refusals are determinate. */
  lemma NeverUnavailable(request: Request, current: Option<WorkItem>, evaluation: EvaluationContext)
    ensures Evaluate(request, current, evaluation).rejection != Some(WmsUnavailable)
  {
    hide Evaluator.Gate, EvaluateMaterialization, EvaluateTransition, MutationPreconditions, LegalFrom, IssuesToken;
    GateRefusals(request, current, evaluation);
    if Evaluator.Gate(request, current, evaluation).None? {
      if request.operation == Materialize {
        MaterializationRefusals(request, evaluation);
      } else {
        PreconditionRefusals(request, current.value, evaluation);
        TransitionRefusals(request, current.value, evaluation);
      }
    }
  }

  lemma GateRefusals(request: Request, current: Option<WorkItem>, evaluation: EvaluationContext)
    ensures var d := Evaluator.Gate(request, current, evaluation); d.Some? ==> d.value.rejection != Some(WmsUnavailable)
  {
    hide AuthorizeLifecycle, AuthorizePreflight, ContextIsValid, KnownLifecycleOperation;
  }

  lemma MaterializationRefusals(request: Request, evaluation: EvaluationContext)
    ensures var v := EvaluateMaterialization(request, evaluation); v.Refuse? ==> !v.rejection.WmsUnavailable?
  {
    hide ContractFailure, Blocker, FirstIncomplete, SourceOf, CanonicalSource, TargetRejection, SourceMergeRejection;
  }

  lemma PreconditionRefusals(request: Request, item: WorkItem, evaluation: EvaluationContext)
    ensures MutationPreconditions(request, item, evaluation) != Some(WmsUnavailable)
  {
    hide ResolutionBinding;
  }

  lemma TransitionRefusals(request: Request, item: WorkItem, evaluation: EvaluationContext)
    ensures var v := EvaluateTransition(request, item, evaluation); v.Refuse? ==> !v.rejection.WmsUnavailable?
  {
    hide NotReady, ReadinessFailure, Text.IsBlank, EnvelopeMatches, CandidateRejection, ResolutionPreconditions;
  }

  lemma NewKey(request: Request, evaluation: EvaluationContext, decision: Decision)
    requires IsNew(request, evaluation, decision)
    ensures request.materializationKey != "" && request.payload.workItem.Some?
    ensures decision.reservation.Some? && (decision.outcome == Allowed ==> decision.after.Some?)
    ensures decision.reservation.value.source == SourceFor(request) && decision.tokenIssued == NO_TOKEN
  {
    hide ItemOk, NewItem, AllCompleted, SourceOf, CanonicalSource, TargetRejection;
  }

  /** The key is bound, and to this source. */
  ghost predicate KeyBoundTo(issues: Issues, projectId: string, key: string, source: WorkItem) {
    exists n | n in issues :: BindsKey(issues[n], projectId, key) && issues[n].source == source
  }

  /** The answer owed to a materialization whose key is bound: a replay of what holds the key,
      or why this is not the source it was bound to. */
  predicate BoundAnswer(bindings: map<string, BindingEntry>, request: Request, doc: Doc, result: Result)
    requires request.payload.workItem.Some? && !doc.RequestDoc?
  {
    var target := TargetRejection(request, request.payload.workItem);
    var merge := SourceMergeRejection(CanonicalSource(request.payload.workItem.value, request.payload.changeType));
    if target.Some? || merge.Some? then !result.ok && result.outcome == Refused && result.error == if target.Some? then target else merge
    else if doc.source == SourceFor(request) then
      result == MarkReplayed(BindingAnswer(bindings, request.materializationKey, doc)) && Names(result, doc)
    else !result.ok && result.outcome == Refused && result.error == Some(IdempotencyConflict("materialization-source", request.materializationKey))
  }

  ghost predicate BoundAnswered(bindings: map<string, BindingEntry>, issues: Issues, projectId: string, request: Request, result: Result) {
    && request.payload.workItem.Some?
    && exists n | n in issues :: BindsKey(issues[n], projectId, request.materializationKey) && BoundAnswer(bindings, request, issues[n], result)
  }

  /** What a materialization whose key is bound is answered. */
  function BoundResult(request: Request, entry: BindingEntry): (r: Result)
    requires request.payload.workItem.Some?
  {
    var target := TargetRejection(request, request.payload.workItem);
    var source := CanonicalSource(request.payload.workItem.value, request.payload.changeType);
    if target.Some? then RefusedDecision(request, target.value)
    else if SourceMergeRejection(source).Some? then RefusedDecision(request, SourceMergeRejection(source).value)
    else if SourceOf(source) != entry.source then
      RefusedDecision(request, IdempotencyConflict("materialization-source", request.materializationKey))
    else MarkReplayed(entry.result)
  }

  lemma BoundResultAnswers(bindings: map<string, BindingEntry>, request: Request, entry: BindingEntry, doc: Doc)
    requires request.payload.workItem.Some? && !doc.RequestDoc? && doc.source == entry.source && Names(entry.result, doc)
    requires entry.result == BindingAnswer(bindings, request.materializationKey, doc)
    ensures BoundAnswer(bindings, request, doc, BoundResult(request, entry))
    ensures BoundResult(request, entry).mutation == MutationNone && ShouldRemember(BoundResult(request, entry))
  {
    TargetRefusals(request);
    RefusedDecisions(request);
    hide TargetRejection, SourceMergeRejection, CanonicalSource, SourceOf, RefusedDecision, BindingAnswer;
  }

  lemma AnsweredBy(bindings: map<string, BindingEntry>, issues: Issues, projectId: string, request: Request, number: nat, result: Result)
    requires request.payload.workItem.Some? && number in issues && BindsKey(issues[number], projectId, request.materializationKey)
    requires BoundAnswer(bindings, request, issues[number], result)
    ensures BoundAnswered(bindings, issues, projectId, request, result)
  {
    hide BoundAnswer;
  }

  lemma TargetRefusals(request: Request)
    requires request.payload.workItem.Some?
    ensures TargetRejection(request, request.payload.workItem) != Some(WmsUnavailable)
    ensures SourceMergeRejection(CanonicalSource(request.payload.workItem.value, request.payload.changeType)) != Some(WmsUnavailable)
  {
  }

  /** What an answer to a lifecycle call says about the durable store: a bound key is never
      written, an applied materialization has bound its key to its own source, an applied
      claim is recorded. */
  ghost predicate LifecycleAnswered(before: Issues, after: Issues, cfg: Config, now: Time, request: Request, result: Result) {
    && (request.operation == Materialize && request.payload.workItem.Some? && KeyBound(before, cfg.projectId, request.materializationKey) ==>
          after == before && result.mutation != MutationApplied)
    && (request.operation == Materialize && result.mutation == MutationApplied ==>
          request.payload.workItem.Some? && KeyBoundTo(after, cfg.projectId, request.materializationKey, SourceFor(request)))
    && (request.operation == Claim && result.mutation == MutationApplied ==> ClaimAnswered(after, cfg.projectId, request, result))
    && Written(before, after, cfg, now, request, result)
  }

  /** ... a recorded key means no write; a replay under a fresh key is of the very source its
      materialization key is bound to; and a claim that is already durable is never written
      again. */
  ghost predicate LifecycleKept(
    before: Issues, after: Issues, keys: map<string, KeyEntry>, cfg: Config, now: Time, request: Request, result: Result
  ) {
    && LifecycleAnswered(before, after, cfg, now, request, result)
    && (request.idempotencyKey in keys ==> after == before)
    && (request.operation == Materialize && request.idempotencyKey !in keys && result.outcome == Replayed ==>
          request.payload.workItem.Some? && KeyBoundTo(after, cfg.projectId, request.materializationKey, SourceFor(request)))
    && forall n | request.operation == Claim && ClaimStands(before, cfg.projectId, request, n) ::
         && after == before
         && (request.idempotencyKey !in keys && result.ok ==>
               result == ClaimReplay(request, before[n].item, before[n].lastClaim.value))
  }

  /** The answer a retry is owed: that of its recorded key, that of the durable claim it is the
      retry of, or that of the binding of its materialization key. */
  ghost predicate LifecycleReplayed(
    before: Issues, keys: map<string, KeyEntry>, bindings: map<string, BindingEntry>, projectId: string, request: Request, result: Result
  ) {
    && KeyAnswered(keys, request.idempotencyKey, LifecycleUse(FingerprintOf(request)), result)
    && (forall n | request.operation == Claim && request.idempotencyKey !in keys && ClaimStands(before, projectId, request, n) ::
          result == ClaimReplay(request, before[n].item, before[n].lastClaim.value))
    && (request.operation == Materialize && request.idempotencyKey !in keys && request.payload.workItem.Some? ==>
          forall n | n in before && BindsKey(before[n], projectId, request.materializationKey) :: BoundAnswer(bindings, request, before[n], result))
  }

  /** What is recorded of a lifecycle call; a fresh key is frozen exactly if `failed`. */
  ghost predicate Noted(before: map<string, KeyEntry>, after: map<string, KeyEntry>, request: Request, result: Result, failed: bool) {
    && Recorded(before, after, request.idempotencyKey, LifecycleUse(FingerprintOf(request)), result)
    && (failed <==> request.idempotencyKey !in before && Frozen(after, request.idempotencyKey))
    && (failed ==> request.operation == Materialize)
    && (after != before ==> failed || ShouldRemember(result))
  }

  lemma Unapplied(issues: Issues, keys: map<string, KeyEntry>, cfg: Config, now: Time, request: Request, result: Result)
    requires result.mutation != MutationApplied && (request.operation == Claim ==> !result.ok || request.idempotencyKey in keys)
    requires result.outcome == Refused || request.idempotencyKey in keys
    ensures LifecycleKept(issues, issues, keys, cfg, now, request, result)
  {
    hide KeyBound, KeyBoundTo, ClaimAnswered, ClaimReplay, FingerprintOf, SourceFor;
  }

  /** An answer from a recorded key or a bound materialization key. */
  lemma AnsweredFromKey(
    issues: Issues, keys: map<string, KeyEntry>, bindings: map<string, BindingEntry>, after: map<string, KeyEntry>, cfg: Config,
    now: Time, request: Request, result: Result, failed: bool
  )
    requires Sound(issues) && result.mutation == MutationNone
    requires request.operation == Claim ==> request.idempotencyKey in keys
    requires KeyAnswered(keys, request.idempotencyKey, LifecycleUse(FingerprintOf(request)), result)
    requires request.idempotencyKey in keys ==> after == keys
    requires request.idempotencyKey !in keys ==>
               && after == keys[request.idempotencyKey := KeyEntry(LifecycleUse(FingerprintOf(request)), result)]
               && if failed then result.outcome != Replayed else BoundAnswered(bindings, issues, cfg.projectId, request, result)
    requires failed <==> request.idempotencyKey !in keys && Frozen(after, request.idempotencyKey)
    requires failed ==> request.operation == Materialize
    requires request.idempotencyKey !in keys ==> failed || ShouldRemember(result)
    ensures LifecycleKept(issues, issues, keys, cfg, now, request, result)
    ensures !failed ==> LifecycleReplayed(issues, keys, bindings, cfg.projectId, request, result)
    ensures Noted(keys, after, request, result, failed)
  {
    hide KeyBound, KeyBoundTo, ClaimAnswered, ClaimReplay, FingerprintOf, SourceFor, KeyAnswered, Frozen, BoundAnswer, BoundAnswered, Sound;
    if request.idempotencyKey !in keys && !failed {
      OneBinding(bindings, issues, cfg.projectId, request, result);
    }
  }

  /** The answer of the one document that holds the key. */
  lemma OneBinding(bindings: map<string, BindingEntry>, issues: Issues, projectId: string, request: Request, result: Result)
    requires Sound(issues) && BoundAnswered(bindings, issues, projectId, request, result)
    ensures request.payload.workItem.Some?
    ensures forall n | n in issues && BindsKey(issues[n], projectId, request.materializationKey) :: BoundAnswer(bindings, request, issues[n], result)
    ensures result.outcome == Replayed ==> KeyBoundTo(issues, projectId, request.materializationKey, SourceFor(request))
  {
    hide DocOk, SourceFor, TargetRejection, SourceMergeRejection, CanonicalSource, Names;
  }

  lemma NothingNoted(keys: map<string, KeyEntry>, request: Request, result: Result)
    ensures Noted(keys, keys, request, result, false)
  {
    hide FingerprintOf;
  }

  lemma AnswerNoted(keys: map<string, KeyEntry>, after: map<string, KeyEntry>, request: Request, result: Result)
    requires request.idempotencyKey !in keys
    requires after == if ShouldRemember(result) then keys[request.idempotencyKey := KeyEntry(LifecycleUse(FingerprintOf(request)), result)]
                      else keys
    ensures Noted(keys, after, request, result, false)
  {
    hide FingerprintOf;
  }

  /** A reconciled claim answers as the durable record says. */
  lemma Reconciled(
    issues: Issues, keys: map<string, KeyEntry>, bindings: map<string, BindingEntry>, cfg: Config, now: Time,
    request: Request, result: Result
  )
    requires Sound(issues) && request.operation == Claim && request.idempotencyKey !in keys
    requires
      || result == Unavailable(request.operation)
      || exists n | n in issues ::
           ClaimStands(issues, cfg.projectId, request, n) && result == ClaimReplay(request, issues[n].item, issues[n].lastClaim.value)
    ensures LifecycleKept(issues, issues, keys, cfg, now, request, result)
    ensures result != Unavailable(request.operation) ==> LifecycleReplayed(issues, keys, bindings, cfg.projectId, request, result)
  {
    hide KeyBound, KeyBoundTo, ClaimAnswered, ClaimReplay, FingerprintOf, Sound, SourceFor;
    if result == Unavailable(request.operation) {
      Unapplied(issues, keys, cfg, now, request, result);
    } else {
      var n :| n in issues && ClaimStands(issues, cfg.projectId, request, n)
               && result == ClaimReplay(request, issues[n].item, issues[n].lastClaim.value);
      OneItem(issues, cfg.projectId, request, n);
    }
  }

  /** Neither a claim of this request nor a binding of its key stands, so any answer will do. */
  ghost predicate Unanswered(issues: Issues, keys: map<string, KeyEntry>, projectId: string, request: Request) {
    && request.idempotencyKey !in keys
    && (request.operation == Claim ==> forall n :: !ClaimStands(issues, projectId, request, n))
    && (request.operation == Materialize && request.payload.workItem.Some? ==> !KeyBound(issues, projectId, request.materializationKey))
  }

  /** A command that nothing recorded answers is decided by the evaluator. */
  ghost predicate LifecycleDecided(
    before: Issues, keys: map<string, KeyEntry>, projectId: string, request: Request, base: EvaluationContext, result: Result
  ) {
    Unanswered(before, keys, projectId, request) ==> Decided(before, projectId, request, base, result)
  }

  lemma NothingOwed(
    issues: Issues, keys: map<string, KeyEntry>, bindings: map<string, BindingEntry>, projectId: string, request: Request,
    result: Result
  )
    requires Unanswered(issues, keys, projectId, request)
    ensures LifecycleReplayed(issues, keys, bindings, projectId, request, result)
  {
    hide ClaimReplay, FingerprintOf, BoundAnswer;
  }

  /** The context but for what it shows of the dependencies, which is read from the store. */
  lemma SameBase(
    issues: Issues, keys: map<string, KeyEntry>, projectId: string, request: Request, base: EvaluationContext, given: EvaluationContext,
    result: Result
  )
    requires given == base.(refreshDependencies := given.refreshDependencies)
    requires LifecycleDecided(issues, keys, projectId, request, given, result)
    ensures LifecycleDecided(issues, keys, projectId, request, base, result)
  {
    hide Unanswered, StoredAs, SeenFor, Evaluate;
    assert forall seen: Option<seq<Dependency>> :: given.(refreshDependencies := seen) == base.(refreshDependencies := seen);
  }

  lemma MissingIsDecided(
    issues: Issues, keys: map<string, KeyEntry>, projectId: string, request: Request, evaluation: EvaluationContext, result: Result
  )
    requires forall n | n in issues :: !IsItem(issues[n], projectId, request.workItemId)
    requires LookedUp(issues, projectId, request, evaluation.refreshDependencies) && request.operation == Claim
    requires result.decision == Some(Evaluate(request, None, evaluation))
    ensures LifecycleDecided(issues, keys, projectId, request, evaluation, result)
  {
    hide Evaluate, LookedUp, Unanswered;
    IsDecided(issues, projectId, request, evaluation, None, evaluation, result);
  }

  lemma IsStored(issues: Issues, projectId: string, id: string, current: Option<WorkItem>, number: nat)
    requires current.None? ==> forall n | n in issues :: !IsItem(issues[n], projectId, id)
    requires current.Some? ==> number in issues && IsItem(issues[number], projectId, id) && issues[number].item == current.value
    ensures StoredAs(issues, projectId, id, current)
  {
  }

  lemma AnsweredByKey(
    issues: Issues, keys: map<string, KeyEntry>, bindings: map<string, BindingEntry>, projectId: string, request: Request,
    base: EvaluationContext, result: Result
  )
    requires request.idempotencyKey in keys || (request.operation == Materialize && BoundAnswered(bindings, issues, projectId, request, result))
    ensures LifecycleDecided(issues, keys, projectId, request, base, result)
  {
    hide Decided, BoundAnswer;
  }

  lemma AnsweredByClaim(
    issues: Issues, keys: map<string, KeyEntry>, projectId: string, request: Request, base: EvaluationContext, result: Result
  )
    requires request.operation == Claim
    requires result != Unavailable(request.operation) ==> exists n :: ClaimStands(issues, projectId, request, n)
    ensures result != Unavailable(request.operation) ==> LifecycleDecided(issues, keys, projectId, request, base, result)
  {
    hide Decided, ClaimStands, Unavailable;
  }

  lemma NoClaim(issues: Issues, keys: map<string, KeyEntry>, projectId: string, request: Request, number: nat)
    requires Sound(issues) && number in issues && IsItem(issues[number], projectId, request.workItemId)
    requires request.operation == Claim && request.idempotencyKey !in keys && !ClaimStands(issues, projectId, request, number)
    ensures Unanswered(issues, keys, projectId, request)
  {
    OneItem(issues, projectId, request, number);
  }

  lemma NoClaimNeeded(issues: Issues, keys: map<string, KeyEntry>, projectId: string, request: Request)
    requires request.idempotencyKey !in keys && request.operation != Claim
    requires request.operation == Materialize && request.payload.workItem.Some? ==> !KeyBound(issues, projectId, request.materializationKey)
    ensures Unanswered(issues, keys, projectId, request)
  {
  }

  /** No record, no claim. */
  lemma NoItemNoClaim(issues: Issues, keys: map<string, KeyEntry>, bindings: map<string, BindingEntry>, projectId: string, request: Request)
    requires request.operation == Claim && forall n | n in issues :: !IsItem(issues[n], projectId, request.workItemId)
    ensures forall result: Result | request.idempotencyKey !in keys :: LifecycleReplayed(issues, keys, bindings, projectId, request, result)
  {
    hide FingerprintOf, ClaimReplay;
  }

  lemma AppliedKeeps(
    before: Issues, after: Issues, keys: map<string, KeyEntry>, bindings: map<string, BindingEntry>, cfg: Config,
    now: Time, request: Request, result: Result
  )
    requires Unanswered(before, keys, cfg.projectId, request) && LifecycleAnswered(before, after, cfg, now, request, result)
    requires result.outcome != Replayed
    ensures LifecycleKept(before, after, keys, cfg, now, request, result)
    ensures LifecycleReplayed(before, keys, bindings, cfg.projectId, request, result)
  {
    hide LifecycleAnswered, ClaimReplay, FingerprintOf, KeyBoundTo, SourceFor, BoundAnswer;
  }

  /** The record a claim stands on is the one the index names. */
  lemma OneItem(issues: Issues, projectId: string, request: Request, number: nat)
    requires Sound(issues) && number in issues && IsItem(issues[number], projectId, request.workItemId)
    ensures forall n | ClaimStands(issues, projectId, request, n) :: n == number
  {
    forall n | ClaimStands(issues, projectId, request, n)
      ensures n == number
    {
      assert n != number ==> Apart(issues[n], issues[number]);
    }
  }

  lemma RefusedDecisions(request: Request)
    ensures forall rejection: Rejection ::
              && RefusedDecision(request, rejection).mutation == MutationNone && !RefusedDecision(request, rejection).ok
              && RefusedDecision(request, rejection).outcome == Refused && RefusedDecision(request, rejection).error == Some(rejection)
  {
  }

  lemma UnauthorizedIsRejected(request: Request, current: Option<WorkItem>, evaluation: EvaluationContext)
    requires evaluation.authority == Authoritative
    requires AuthorizeLifecycle(request.authorization, request.operation, request.projectId, request.workItemId,
                                request.payload.changeSetId, request.references, evaluation.time).Some?
    ensures forall operation: Operation ::
              var r := ResultOfDecision(operation, Evaluate(request, current, evaluation));
              r.mutation == MutationNone && !r.ok
  {
    TurnedAway(request, current, evaluation);
    EvaluateKeepsAuthority(request, current, evaluation);
    hide Evaluate, AuthorizeLifecycle;
  }

  function CallFingerprintOf(call: Call, auth: AuthorizationContext): (f: CallFingerprint) {
    CallFingerprint(call.operation, auth.subject, auth.role, call.requestId, call.workItemId, call.expectedRequestRevision,
                    call.expectedState, call.expectedVersion, call.humanApprovalId, call.materializationKey, call.payload)
  }

  /** Refused, or answered as the durable request. */
  predicate CreateAnswered(call: Call, doc: Doc, result: Result)
    requires doc.RequestDoc?
  {
    && result.mutation == MutationNone
    && (result.ok ==> result == MarkReplayed(RequestApplied(call, doc.request)))
  }

  predicate ValidCreate(call: Call) {
    call.payload.CreatePayload? && !Text.IsBlank(call.payload.intent) && !Text.IsBlank(call.payload.rationale)
  }

  /** The answer owed to a create under the key of a durable request. */
  function CreateReplay(call: Call, auth: AuthorizationContext, doc: Doc): (r: Result)
    requires doc.RequestDoc?
  {
    if doc.createFingerprint == CallFingerprintOf(call, auth) then MarkReplayed(RequestApplied(call, doc.request))
    else RefusedResult(call.operation, IdempotencyConflict("request-fingerprint", call.idempotencyKey))
  }

  /** The answer is the request made under this key by this very call. */
  ghost predicate CreatedBy(issues: Issues, projectId: string, call: Call, auth: AuthorizationContext, result: Result) {
    exists n | n in issues ::
      && CreatedUnder(issues[n], projectId, call.idempotencyKey)
      && issues[n].createFingerprint == CallFingerprintOf(call, auth)
      && result == RequestApplied(call, issues[n].request)
  }

  /** The answer is the request that holds the id. */
  ghost predicate HeldBy(issues: Issues, projectId: string, id: RequestId, call: Call, result: Result) {
    exists n | n in issues :: IsRequest(issues[n], projectId, id) && result == RequestApplied(call, issues[n].request)
  }

  /** The id reserved under a key is held by a request made under another. */
  ghost predicate Usurped(issues: Issues, projectId: string, pending: map<string, RequestId>, key: string) {
    && key in pending
    && exists n | n in issues :: IsRequest(issues[n], projectId, pending[key]) && issues[n].createKey != key
  }

  /** No request was made under the key. */
  ghost predicate Uncreated(issues: Issues, projectId: string, key: string) {
    forall n | n in issues :: !CreatedUnder(issues[n], projectId, key)
  }

  /** Some request of the project has this content. */
  ghost predicate Taken(issues: Issues, cfg: Config, key: SemanticKey) {
    exists n | n in issues :: issues[n].RequestDoc? && issues[n].projectId == cfg.projectId && KeyOf(cfg, issues[n].request) == key
  }

  /** Every request of the project is found by its content. */
  ghost predicate Indexed(issues: Issues, cfg: Config, semantic: map<SemanticKey, RequestId>) {
    forall n | n in issues && issues[n].RequestDoc? && issues[n].projectId == cfg.projectId :: KeyOf(cfg, issues[n].request) in semantic
  }

  lemma AllIndexed(issues: Issues, cfg: Config, docs: seq<Scanned>, semantic: map<SemanticKey, RequestId>)
    requires forall n | n in issues && issues[n].RequestDoc? && issues[n].projectId == cfg.projectId :: Scanned(n, issues[n]) in docs
    requires forall s | s in docs :: s.doc.RequestDoc? && KeyOf(cfg, s.doc.request) in semantic
    ensures Indexed(issues, cfg, semantic)
  {
    hide KeyOf;
  }

  lemma NotTaken(issues: Issues, cfg: Config, semantic: map<SemanticKey, RequestId>, key: SemanticKey)
    requires Indexed(issues, cfg, semantic) && key !in semantic
    ensures !Taken(issues, cfg, key)
  {
    hide KeyOf;
  }

  /** The document of a valid create whose content no request has: exactly the request asked for. */
  ghost predicate AskedDoc(before: Issues, cfg: Config, call: Call, auth: AuthorizationContext, doc: Doc) {
    && ValidCreate(call)
    && !Taken(before, cfg, SemanticKeyOf(cfg, call.payload.intent, call.payload.interfaces, call.payload.scopes))
    && doc.RequestDoc? && AsAsked(doc.request, call, auth)
    && doc == RequestDoc(cfg.projectId, doc.request, call.idempotencyKey, CallFingerprintOf(call, auth), [], None)
  }

  ghost predicate AddsAt(before: Issues, after: Issues, cfg: Config, call: Call, auth: AuthorizationContext, n: nat) {
    n in after && n !in before && after == before[n := after[n]] && AskedDoc(before, cfg, call, auth, after[n])
  }

  /** A create writes its own document or nothing; an applied one is valid, and answers with the
      document it wrote. */
  ghost predicate CreateWritten(before: Issues, after: Issues, cfg: Config, call: Call, auth: AuthorizationContext, result: Result) {
    && (after == before || exists n :: AddsAt(before, after, cfg, call, auth, n))
    && (result.mutation == MutationApplied ==> ValidCreate(call))
    && (result.mutation == MutationApplied && after != before ==>
          exists n :: AddsAt(before, after, cfg, call, auth, n) && result == RequestApplied(call, after[n].request))
  }

  lemma AskedIsWritten(
    before: Issues, after: Issues, cfg: Config, call: Call, auth: AuthorizationContext, doc: Doc, made: bool, result: Result
  )
    requires AskedDoc(before, cfg, call, auth, doc)
    requires if made then exists n: nat :: n !in before && after == before[n := doc] else after == before
    requires result.mutation == MutationApplied ==> doc.RequestDoc? && result == RequestApplied(call, doc.request)
    ensures CreateWritten(before, after, cfg, call, auth, result)
  {
    assert ValidCreate(call);
    hide AskedDoc, ValidCreate;
    if made {
      var n: nat :| n !in before && after == before[n := doc];
      assert AddsAt(before, after, cfg, call, auth, n);
    }
  }

  lemma NothingCreated(issues: Issues, cfg: Config, call: Call, auth: AuthorizationContext)
    ensures forall result: Result | result.mutation == MutationApplied ==> ValidCreate(call) ::
              CreateWritten(issues, issues, cfg, call, auth, result)
  {
    hide ValidCreate, AddsAt;
  }

  /** A valid create that is no retry and no duplicate. */
  ghost predicate FirstCreate(
    issues: Issues, pending: map<string, RequestId>, semantic: map<SemanticKey, RequestId>, cfg: Config, call: Call
  ) {
    && ValidCreate(call) && Uncreated(issues, cfg.projectId, call.idempotencyKey) && call.idempotencyKey !in pending
    && var key := SemanticKeyOf(cfg, call.payload.intent, call.payload.interfaces, call.payload.scopes);
       key !in semantic && !Taken(issues, cfg, key)
  }

  /** The write at `n` fails for now, and the request is not found after it. */
  ghost predicate ReplyLost(plan: Plan, n: nat) {
    plan(n).Failing? && plan(n).transient && !(plan(n).made && plan(n + 1).Fine?)
  }

  /** The write of a new request at `n`: it is there exactly if the write was made; the outcome
      is unknown exactly if the reply was lost, and it is applied if nothing failed or the
      request was found. */
  ghost predicate CreateRan(plan: Plan, n: nat, before: Issues, after: Issues, result: Result) {
    && (after != before <==> IsMade(plan(n)))
    && (result.mutation == MutationUnknown <==> ReplyLost(plan, n))
    && (result.mutation == MutationApplied <==> plan(n).Fine? || (plan(n).transient && !ReplyLost(plan, n)))
  }

  /** A write of a new document at `n`, looked for after it failed for now. */
  lemma Ran(plan: Plan, n: nat, before: Issues, after: Issues, found: bool, result: Result)
    requires after != before <==> IsMade(plan(n))
    requires plan(n).Failing? && plan(n).transient ==> (found <==> plan(n).made && plan(n + 1).Fine?)
    requires result.mutation == if plan(n).Fine? then MutationApplied
                                else if !plan(n).transient then MutationNone
                                else if found then MutationApplied else MutationUnknown
    ensures CreateRan(plan, n, before, after, result)
  {
  }

  /** After the write of a new work item its key is bound exactly if it was made. */
  lemma NewBinding(before: Issues, after: Issues, doc: Doc, fate: Fate, key: string, source: WorkItem)
    requires doc.ItemDoc? && doc.key == key && doc.source == source && !KeyBound(before, doc.projectId, key)
    requires if IsMade(fate) then exists n: nat :: n !in before && after == before[n := doc] else after == before
    ensures KeyBoundBy(after, doc.projectId, key, source) <==> IsMade(fate)
    ensures after != before <==> IsMade(fate)
  {
    if IsMade(fate) {
      var n: nat :| n !in before && after == before[n := doc];
      assert BindsKey(after[n], doc.projectId, key);
    }
  }

  /** A document is read at `n` and, if that goes well, written at the next operation. */
  predicate UpdateMade(plan: Plan, n: nat) {
    plan(n).Fine? && IsMade(plan(n + 1))
  }

  predicate UpdateAnswers<T>(plan: Plan, n: nat, reply: Reply<T>) {
    Answers(if plan(n).Fine? then plan(n + 1) else plan(n), reply)
  }

  /** Such an update: it is there exactly if the write was made; applied exactly if both went
      well, and of unknown outcome exactly if the one that failed did so for now. */
  ghost predicate UpdateRan(plan: Plan, n: nat, before: Issues, after: Issues, result: Result) {
    && (after != before <==> UpdateMade(plan, n))
    && (result.mutation == MutationApplied <==> plan(n).Fine? && plan(n + 1).Fine?)
    && (result.mutation == MutationUnknown <==> if plan(n).Fine? then plan(n + 1).Failing? && plan(n + 1).transient else plan(n).transient)
  }

  lemma Updated(plan: Plan, n: nat, before: Issues, after: Issues, reply: Reply<()>, result: Result)
    requires after != before <==> UpdateMade(plan, n)
    requires UpdateAnswers(plan, n, reply)
    requires result.mutation == if reply.Ok? then MutationApplied else if reply.Transient? then MutationUnknown else MutationNone
    ensures UpdateRan(plan, n, before, after, result)
  {
  }

  /** At most one new request, under this key, and no other change. */
  ghost predicate AddsOne(before: Issues, after: Issues, projectId: string, key: string) {
    || after == before
    || exists n | n in after :: n !in before && after == before[n := after[n]] && CreatedUnder(after[n], projectId, key)
  }

  /** An applied create is durable: the request made under this key, or, if its reserved id
      was usurped, the usurper, nothing being written. A create that was durable already is
      answered and not written. */
  ghost predicate CreateKept(
    before: Issues, after: Issues, pending: map<string, RequestId>, projectId: string, call: Call, auth: AuthorizationContext, result: Result
  ) {
    && (result.mutation == MutationApplied ==>
          if Usurped(before, projectId, pending, call.idempotencyKey)
          then after == before && HeldBy(before, projectId, pending[call.idempotencyKey], call, result)
          else CreatedBy(after, projectId, call, auth, result))
    && (forall n | n in before && CreatedUnder(before[n], projectId, call.idempotencyKey) ::
          after == before && CreateAnswered(call, before[n], result))
    && AddsOne(before, after, projectId, call.idempotencyKey)
  }

  /** The answer a valid create is owed: that of the request made under its key; else it is
      applied, or refused as a duplicate when its reserved id was not usurped. */
  ghost predicate CreateReplayed(
    before: Issues, pending: map<string, RequestId>, projectId: string, call: Call, auth: AuthorizationContext, result: Result
  ) {
    ValidCreate(call) ==>
      && (forall n | n in before && CreatedUnder(before[n], projectId, call.idempotencyKey) :: result == CreateReplay(call, auth, before[n]))
      && (Uncreated(before, projectId, call.idempotencyKey) ==>
            || result.mutation == MutationApplied
            || (result.error.Some? && result.error.value.DuplicateRequest? && !Usurped(before, projectId, pending, call.idempotencyKey)))
  }

  /** The highest request number, if there is one above `floor`. */
  ghost predicate IsTop(issues: Issues, projectId: string, floor: nat, top: nat) {
    && floor <= top
    && (forall n | n in issues && issues[n].RequestDoc? && issues[n].projectId == projectId :: issues[n].request.id <= top)
    && (top == floor || exists n | n in issues :: IsRequest(issues[n], projectId, top))
  }

  /** A create without a reservation takes, and if its outcome is unknown reserves, the
      number after the highest. */
  ghost predicate Numbered(
    before: Issues, projectId: string, floor: nat, next: nat, reserved: map<string, RequestId>, pending: map<string, RequestId>, call: Call,
    result: Result
  ) {
    call.idempotencyKey !in reserved && result.mutation in {MutationApplied, MutationUnknown} ==>
      && next > 0 && IsTop(before, projectId, floor, next - 1)
      && (result.mutation == MutationApplied ==> result.requestId == next)
      && (result.mutation == MutationUnknown ==> pending == reserved[call.idempotencyKey := next])
  }

  /** An applied create answers with the request made under its key if and only if the id it
      had reserved was not usurped. */
  lemma OwnRequestExactly(
    before: Issues, after: Issues, pending: map<string, RequestId>, projectId: string, call: Call, auth: AuthorizationContext, result: Result
  )
    requires CreateKept(before, after, pending, projectId, call, auth, result) && result.mutation == MutationApplied
    ensures !Usurped(before, projectId, pending, call.idempotencyKey) <==>
            exists n | n in after :: CreatedUnder(after[n], projectId, call.idempotencyKey) && after[n].request.id == result.requestId
  {
    hide CallFingerprintOf;
  }

  lemma CreateRefusals(issues: Issues, pending: map<string, RequestId>, projectId: string, call: Call, auth: AuthorizationContext)
    ensures forall rejection: Rejection ::
              CreateKept(issues, issues, pending, projectId, call, auth, RefusedResult(call.operation, rejection))
    ensures !ValidCreate(call) ==> forall result: Result :: CreateReplayed(issues, pending, projectId, call, auth, result)
  {
    hide Usurped, HeldBy, CreatedBy;
  }

  lemma OneCreate(
    issues: Issues, pending: map<string, RequestId>, projectId: string, call: Call, auth: AuthorizationContext, docs: seq<Scanned>, result: Result
  )
    requires Sound(issues)
    requires forall s | s in docs :: s.number in issues && issues[s.number] == s.doc && s.doc.RequestDoc? && s.doc.projectId == projectId
    requires exists s | s in docs :: s.doc.createKey == call.idempotencyKey && result == CreateReplay(call, auth, s.doc)
    ensures CreateKept(issues, issues, pending, projectId, call, auth, result)
    ensures CreateReplayed(issues, pending, projectId, call, auth, result) && result.mutation == MutationNone
  {
    hide DocOk, Usurped, HeldBy, CreatedBy, CallFingerprintOf;
    var s :| s in docs && s.doc.createKey == call.idempotencyKey && result == CreateReplay(call, auth, s.doc);
    assert CreatedUnder(issues[s.number], projectId, call.idempotencyKey);
    forall n | n in issues && CreatedUnder(issues[n], projectId, call.idempotencyKey)
      ensures n == s.number
    {
    }
  }

  lemma UsurpedKeeps(
    issues: Issues, pending: map<string, RequestId>, projectId: string, call: Call, auth: AuthorizationContext, result: Result
  )
    requires Uncreated(issues, projectId, call.idempotencyKey) && call.idempotencyKey in pending
    requires HeldBy(issues, projectId, pending[call.idempotencyKey], call, result)
    ensures CreateKept(issues, issues, pending, projectId, call, auth, result)
    ensures CreateReplayed(issues, pending, projectId, call, auth, result)
  {
    hide CreatedBy, CreateReplay;
    var n :| n in issues && IsRequest(issues[n], projectId, pending[call.idempotencyKey]) && result == RequestApplied(call, issues[n].request);
    assert !CreatedUnder(issues[n], projectId, call.idempotencyKey);
    assert Usurped(issues, projectId, pending, call.idempotencyKey);
  }

  lemma NotUsurped(issues: Issues, pending: map<string, RequestId>, projectId: string, call: Call)
    requires call.idempotencyKey in pending ==> forall n | n in issues :: !IsRequest(issues[n], projectId, pending[call.idempotencyKey])
    ensures !Usurped(issues, projectId, pending, call.idempotencyKey)
  {
  }

  lemma FreshKeeps(
    before: Issues, after: Issues, pending: map<string, RequestId>, projectId: string, call: Call, auth: AuthorizationContext, result: Result
  )
    requires Uncreated(before, projectId, call.idempotencyKey) && !Usurped(before, projectId, pending, call.idempotencyKey)
    requires result.mutation == MutationApplied ==> CreatedBy(after, projectId, call, auth, result)
    requires AddsOne(before, after, projectId, call.idempotencyKey)
    ensures CreateKept(before, after, pending, projectId, call, auth, result)
    ensures result.mutation == MutationApplied || (result.error.Some? && result.error.value.DuplicateRequest?) ==>
              CreateReplayed(before, pending, projectId, call, auth, result)
  {
    hide CreatedBy, HeldBy, CreateReplay, Usurped, AddsOne;
  }

  /** What a mutation records beside the request itself. */
  datatype MutationEffect = MutationEffect(approvalId: string, approvalStatus: ApprovalStatus, changeSetPriority: string, workItemPriority: string)

  /** The call's effect is the last one recorded on its request: it was applied, and nothing
      has overtaken it. */
  ghost predicate MutationStands(issues: Issues, projectId: string, call: Call, auth: AuthorizationContext, n: nat) {
    n in issues && IsRequest(issues[n], projectId, call.requestId) && LastMutatedBy(issues[n], call, auth)
  }

  ghost predicate LastMutatedBy(doc: Doc, call: Call, auth: AuthorizationContext) {
    && doc.RequestDoc?
    && doc.lastMutation.Some?
    && doc.lastMutation.value.operation == call.operation
    && doc.lastMutation.value.key == call.idempotencyKey
    && doc.lastMutation.value.fingerprint == CallFingerprintOf(call, auth)
  }

  /** The applied answer of the mutation last recorded on a request. */
  function RecordedResult(call: Call, doc: Doc): (r: Result)
    requires doc.RequestDoc? && doc.lastMutation.Some?
  {
    RequestApplied(call, doc.request).(
      approvalStatus := doc.lastMutation.value.approvalStatus,
      changeSetPriority := doc.lastMutation.value.changeSetPriority,
      workItemPriority := doc.lastMutation.value.workItemPriority)
  }

  function LoadRejection(missing: bool, targetType: string): (r: Rejection) {
    if missing then NotFound(targetType) else WmsUnavailable
  }

  /** The request a mutation was found to name, at the revision it expects. */
  ghost predicate Loaded(issues: Issues, projectId: string, call: Call, found: Scanned) {
    && found.number in issues && issues[found.number] == found.doc
    && IsRequest(found.doc, projectId, call.requestId)
    && call.expectedRequestRevision == Some(found.doc.request.revision)
  }

  /** An answer of "applied" is the recorded effect of this very call. */
  ghost predicate Committed(issues: Issues, projectId: string, call: Call, auth: AuthorizationContext, n: nat, result: Result) {
    && (result.mutation == MutationApplied ==>
          && MutationStands(issues, projectId, call, auth, n)
          && result == RecordedResult(call, issues[n]))
    && (result.ok ==> result.mutation == MutationApplied)
  }

  /** The next revision of one request, and no other change. */
  ghost predicate Revised(before: Issues, after: Issues, n: nat, request: RequestRecord) {
    && n in after && after[n].RequestDoc? && after[n].request == request
    && after == before[n := after[n]]
  }

  /** A relationship to another stored request, well formed and not repeated. */
  ghost predicate Related(issues: Issues, projectId: string, relationships: seq<Relationship>, self: RequestId, i: nat)
    requires i < |relationships|
  {
    && relationships[i].target != 0 && relationships[i].target != self && ValidRelationshipKind(relationships[i].kind)
    && relationships[i] !in relationships[..i]
    && exists n | n in issues :: IsRequest(issues[n], projectId, relationships[i].target)
  }

  ghost predicate AllRelated(issues: Issues, projectId: string, relationships: seq<Relationship>, self: RequestId) {
    forall i | 0 <= i < |relationships| :: Related(issues, projectId, relationships, self, i)
  }

  ghost predicate HasItem(issues: Issues, projectId: string, id: string) {
    exists n | n in issues :: IsItem(issues[n], projectId, id)
  }

  /** What a mutation at the right revision needs. */
  ghost predicate MayMutate(
    issues: Issues, cfg: Config, now: Time, call: Call, auth: AuthorizationContext, doc: Doc, changeSets: map<string, ChangeSet>,
    approvals: map<string, Approval>
  )
    requires doc.RequestDoc?
  {
    match call.operation
    case RequestRefine =>
      && call.payload.RefinePayload?
      && MayRefine(issues, cfg, now, call, auth, doc, approvals, RefineApprovalId(call, call.payload.refinement))
    case RequestUpdatePriority =>
      && call.payload.PriorityPayload? && ValidPriority(call.payload.businessPriority)
      && (doc.request.changeSetId == "" || doc.request.changeSetId in changeSets)
      && (doc.request.buildWorkItemId == "" || HasItem(issues, cfg.projectId, doc.request.buildWorkItemId))
    case RequestLinkChangeSet =>
      && call.payload.ChangeSetLinkPayload?
      && var id := call.payload.changeSetId;
         && id != "" && id in changeSets && doc.request.changeSetId != id
         && (call.payload.targetRevision == "" || changeSets[id].revision == call.payload.targetRevision)
         && changeSets[id].revision in {"proposed", "approved"}
    case RequestLinkBuildWorkItem =>
      && call.payload.WorkItemLinkPayload?
      && var id := call.payload.buildWorkItemId;
         id != "" && HasItem(issues, cfg.projectId, id) && doc.request.buildWorkItemId != id
    case _ => false
  }

  ghost predicate MayRefine(
    issues: Issues, cfg: Config, now: Time, call: Call, auth: AuthorizationContext, doc: Doc, approvals: map<string, Approval>, approvalId: string
  )
    requires doc.RequestDoc? && call.payload.RefinePayload?
  {
    var p := call.payload.refinement;
    && RefinementFieldRejection(p).None?
    && approvalId !in doc.consumed && approvalId in approvals
    && ValidateApproval(approvals[approvalId], RefineRequirement(cfg.projectId, auth, doc.request.id, p.approvalDigest), now).None?
    && (p.relationships.Some? ==> AllRelated(issues, cfg.projectId, p.relationships.value, doc.request.id))
    && ContentOf(Refined(doc.request, p)) == approvals[approvalId].digest
  }

  /** The next revision a mutation makes of a request. */
  ghost function Changed(call: Call, request: RequestRecord, changeSets: map<string, ChangeSet>): (changed: RequestRecord) {
    var next := request.(revision := request.revision + 1);
    match call.payload
    case RefinePayload(p) => Refined(request, p).(revision := request.revision + 1)
    case PriorityPayload(priority) => next.(businessPriority := priority)
    case ChangeSetLinkPayload(id, _) =>
      if id !in changeSets then next
      else
        next.(changeSetId := changeSets[id].id,
              businessPriority := if changeSets[id].businessPriority != "" then changeSets[id].businessPriority else request.businessPriority)
    case WorkItemLinkPayload(id) => next.(buildWorkItemId := id)
    case _ => next
  }

  /** The record of a linked work item names the request, its change set, and the request's
      priority where it has one. */
  ghost predicate ItemLinked(issues: Issues, projectId: string, request: RequestRecord) {
    exists n | n in issues ::
      && IsItem(issues[n], projectId, request.buildWorkItemId)
      && (request.id != 0 ==> issues[n].requestId == request.id)
      && (request.changeSetId != "" ==> issues[n].changeSetId == request.changeSetId)
      && (request.businessPriority != "" ==> issues[n].item.priority == request.businessPriority)
  }

  /** What a mutation at the right revision does: it is applied only if it may be, and then the
      request is as it asked for, and the record it is linked to agrees; and if it may be and
      nothing fails it is applied, or its content is refused as a duplicate. */
  ghost predicate Carried(
    before: Issues, after: Issues, cfg: Config, now: Time, call: Call, auth: AuthorizationContext, found: Scanned,
    changeSets: map<string, ChangeSet>, approvals: map<string, Approval>, healthy: bool, result: Result
  )
    requires found.doc.RequestDoc?
  {
    && (result.mutation == MutationApplied ==>
          && MayMutate(before, cfg, now, call, auth, found.doc, changeSets, approvals)
          && found.number in after && after[found.number].RequestDoc?
          && after[found.number].request == Changed(call, found.doc.request, changeSets)
          && (call.operation in {RequestUpdatePriority, RequestLinkBuildWorkItem} && after[found.number].request.buildWorkItemId != "" ==>
                ItemLinked(after, cfg.projectId, after[found.number].request)))
    && (healthy && MayMutate(before, cfg, now, call, auth, found.doc, changeSets, approvals) ==>
          || result.mutation == MutationApplied
          || (call.operation == RequestRefine && result.error.Some? && result.error.value.DuplicateRequest?))
  }

  /** ... for the request a call names, if it expects the revision the store has. */
  ghost predicate MutationCarried(
    before: Issues, after: Issues, cfg: Config, now: Time, call: Call, auth: AuthorizationContext, changeSets: map<string, ChangeSet>,
    approvals: map<string, Approval>, healthy: bool, result: Result
  ) {
    forall n | n in before && Loaded(before, cfg.projectId, call, Scanned(n, before[n])) ::
      Carried(before, after, cfg, now, call, auth, Scanned(n, before[n]), changeSets, approvals, healthy, result)
  }

  lemma NothingLoaded(
    issues: Issues, cfg: Config, now: Time, call: Call, auth: AuthorizationContext, changeSets: map<string, ChangeSet>,
    approvals: map<string, Approval>, healthy: bool, rejection: Rejection
  )
    requires !healthy || forall n | n in issues :: !IsRequest(issues[n], cfg.projectId, call.requestId)
    ensures MutationCarried(issues, issues, cfg, now, call, auth, changeSets, approvals, healthy, RefusedResult(call.operation, rejection))
  {
    hide MayMutate;
  }

  lemma StillCarried(
    before: Issues, after: Issues, cfg: Config, now: Time, call: Call, auth: AuthorizationContext, found: Scanned,
    changeSets: map<string, ChangeSet>, approvals: map<string, Approval>, healthy: bool, all: bool, result: Result
  )
    requires found.doc.RequestDoc? && (all ==> healthy)
    requires Carried(before, after, cfg, now, call, auth, found, changeSets, approvals, healthy, result)
    ensures Carried(before, after, cfg, now, call, auth, found, changeSets, approvals, all, result)
  {
    hide MayMutate, Changed, ItemLinked;
  }

  lemma AllStillCarried(
    before: Issues, after: Issues, cfg: Config, now: Time, call: Call, auth: AuthorizationContext, changeSets: map<string, ChangeSet>,
    approvals: map<string, Approval>, healthy: bool, all: bool, result: Result
  )
    requires all ==> healthy
    requires MutationCarried(before, after, cfg, now, call, auth, changeSets, approvals, healthy, result)
    ensures MutationCarried(before, after, cfg, now, call, auth, changeSets, approvals, all, result)
  {
    hide Carried;
    forall n | n in before && Loaded(before, cfg.projectId, call, Scanned(n, before[n]))
      ensures Carried(before, after, cfg, now, call, auth, Scanned(n, before[n]), changeSets, approvals, all, result)
    {
      StillCarried(before, after, cfg, now, call, auth, Scanned(n, before[n]), changeSets, approvals, healthy, all, result);
    }
  }

  /** There is one request the call names. */
  lemma LoadedCarries(
    before: Issues, after: Issues, cfg: Config, now: Time, call: Call, auth: AuthorizationContext, found: Scanned,
    changeSets: map<string, ChangeSet>, approvals: map<string, Approval>, healthy: bool, result: Result
  )
    requires Sound(before) && found.number in before && before[found.number] == found.doc && IsRequest(found.doc, cfg.projectId, call.requestId)
    requires call.expectedRequestRevision == Some(found.doc.request.revision) ==>
               Carried(before, after, cfg, now, call, auth, found, changeSets, approvals, healthy, result)
    ensures MutationCarried(before, after, cfg, now, call, auth, changeSets, approvals, healthy, result)
  {
    hide Carried, DocOk;
    forall n | n in before && Loaded(before, cfg.projectId, call, Scanned(n, before[n]))
      ensures n == found.number
    {
      assert n != found.number ==> Apart(before[n], before[found.number]);
    }
  }

  lemma NeedsPriority(
    issues: Issues, cfg: Config, now: Time, call: Call, auth: AuthorizationContext, doc: Doc, changeSets: map<string, ChangeSet>,
    approvals: map<string, Approval>
  )
    requires doc.RequestDoc? && call.operation == RequestUpdatePriority
    ensures MayMutate(issues, cfg, now, call, auth, doc, changeSets, approvals) <==>
            && call.payload.PriorityPayload? && ValidPriority(call.payload.businessPriority)
            && (doc.request.changeSetId == "" || doc.request.changeSetId in changeSets)
            && (doc.request.buildWorkItemId == "" || HasItem(issues, cfg.projectId, doc.request.buildWorkItemId))
  {
    hide ValidPriority, HasItem;
  }

  lemma NeedsOpenChangeSet(
    issues: Issues, cfg: Config, now: Time, call: Call, auth: AuthorizationContext, doc: Doc, changeSets: map<string, ChangeSet>,
    approvals: map<string, Approval>
  )
    requires doc.RequestDoc? && call.operation == RequestLinkChangeSet
    ensures MayMutate(issues, cfg, now, call, auth, doc, changeSets, approvals) <==>
            && call.payload.ChangeSetLinkPayload?
            && var id := call.payload.changeSetId;
               && id != "" && id in changeSets && doc.request.changeSetId != id
               && (call.payload.targetRevision == "" || changeSets[id].revision == call.payload.targetRevision)
               && (changeSets[id].revision == "proposed" || changeSets[id].revision == "approved")
  {
  }

  lemma NeedsWorkItem(
    issues: Issues, cfg: Config, now: Time, call: Call, auth: AuthorizationContext, doc: Doc, changeSets: map<string, ChangeSet>,
    approvals: map<string, Approval>
  )
    requires doc.RequestDoc? && call.operation == RequestLinkBuildWorkItem
    ensures MayMutate(issues, cfg, now, call, auth, doc, changeSets, approvals) <==>
            && call.payload.WorkItemLinkPayload?
            && var id := call.payload.buildWorkItemId;
               id != "" && HasItem(issues, cfg.projectId, id) && doc.request.buildWorkItemId != id
  {
    hide HasItem;
  }

  lemma NeedsApproval(
    issues: Issues, cfg: Config, now: Time, call: Call, auth: AuthorizationContext, doc: Doc, changeSets: map<string, ChangeSet>,
    approvals: map<string, Approval>
  )
    requires doc.RequestDoc? && call.operation == RequestRefine
    ensures MayMutate(issues, cfg, now, call, auth, doc, changeSets, approvals) <==>
            && call.payload.RefinePayload?
            && MayRefine(issues, cfg, now, call, auth, doc, approvals,
                         if call.humanApprovalId != "" then call.humanApprovalId else call.payload.refinement.humanApprovalId)
  {
    hide MayRefine;
  }

  /** A refusal carries nothing, which is right unless the mutation may be made. */
  lemma NotCarried(
    issues: Issues, cfg: Config, now: Time, call: Call, auth: AuthorizationContext, found: Scanned, changeSets: map<string, ChangeSet>,
    approvals: map<string, Approval>
  )
    requires found.doc.RequestDoc?
    ensures forall rejection: Rejection, healthy: bool, after: Issues
              | !healthy || !MayMutate(issues, cfg, now, call, auth, found.doc, changeSets, approvals)
                || (call.operation == RequestRefine && rejection.DuplicateRequest?) ::
              Carried(issues, after, cfg, now, call, auth, found, changeSets, approvals, healthy, RefusedResult(call.operation, rejection))
  {
    hide MayMutate;
  }

  lemma NoItem(issues: Issues, projectId: string, id: string, reply: Reply<Scanned>)
    requires reply.Ok? ==> reply.value.number in issues && issues[reply.value.number] == reply.value.doc && IsItem(reply.value.doc, projectId, id)
    requires reply.Missing? ==> forall n | n in issues :: !IsItem(issues[n], projectId, id)
    ensures reply.Ok? ==> HasItem(issues, projectId, id)
    ensures reply.Missing? ==> !HasItem(issues, projectId, id)
  {
  }

  lemma CommitCarries(
    before: Issues, after: Issues, cfg: Config, now: Time, call: Call, auth: AuthorizationContext, found: Scanned,
    changeSets: map<string, ChangeSet>, approvals: map<string, Approval>, result: Result, healthy: bool
  )
    requires found.doc.RequestDoc? && call.operation in {RequestRefine, RequestLinkChangeSet}
    requires MayMutate(before, cfg, now, call, auth, found.doc, changeSets, approvals)
    requires result.mutation == MutationApplied ==> Revised(before, after, found.number, Changed(call, found.doc.request, changeSets))
    requires healthy ==> result.mutation == MutationApplied
    ensures Carried(before, after, cfg, now, call, auth, found, changeSets, approvals, healthy, result)
  {
    hide MayMutate, Changed;
  }

  lemma LinkedCarries(
    before: Issues, after: Issues, cfg: Config, now: Time, call: Call, auth: AuthorizationContext, found: Scanned,
    changeSets: map<string, ChangeSet>, approvals: map<string, Approval>, item: Option<Scanned>, priority: string, result: Result, healthy: bool
  )
    requires found.doc.RequestDoc? && call.operation in {RequestUpdatePriority, RequestLinkBuildWorkItem}
    requires MayMutate(before, cfg, now, call, auth, found.doc, changeSets, approvals)
    requires result.mutation == MutationApplied ==>
               && found.number in after && after[found.number].RequestDoc?
               && after[found.number].request == Changed(call, found.doc.request, changeSets)
               && (item.Some? ==>
                     && item.value.number in after && item.value.doc.ItemDoc?
                     && after[item.value.number] ==
                        ItemDocAfter(item.value.doc, item.value.doc.item.(priority := priority), None, found.doc.request.id,
                                     found.doc.request.changeSetId))
    requires var request := Changed(call, found.doc.request, changeSets);
             && (request.buildWorkItemId != "" ==> item.Some? && IsItem(item.value.doc, cfg.projectId, request.buildWorkItemId))
             && (request.businessPriority != "" ==> priority == request.businessPriority)
    requires healthy ==> result.mutation == MutationApplied
    ensures Carried(before, after, cfg, now, call, auth, found, changeSets, approvals, healthy, result)
  {
    hide ValidPriority, HasItem;
    var request := Changed(call, found.doc.request, changeSets);
    if result.mutation == MutationApplied && request.buildWorkItemId != "" {
      var doc := after[item.value.number];
      assert IsItem(doc, cfg.projectId, request.buildWorkItemId);
      assert ItemLinked(after, cfg.projectId, request);
    }
  }

  lemma NotCommitted(issues: Issues, projectId: string, call: Call, auth: AuthorizationContext, n: nat)
    ensures forall rejection: Rejection :: Committed(issues, projectId, call, auth, n, RefusedResult(call.operation, rejection))
    ensures Committed(issues, projectId, call, auth, n, UnknownResult(call.operation))
  {
  }

  /** The revision check, with the reconciliation of a retry that has already taken effect. */
  function ResolveRevision(call: Call, auth: AuthorizationContext, doc: Doc): (r: Option<Result>)
    requires doc.RequestDoc?
    ensures r.None? <==> call.expectedRequestRevision == Some(doc.request.revision)
    ensures r.Some? ==> r.value.mutation == MutationNone && ShouldRemember(r.value)
    ensures DocOk(doc) && call.idempotencyKey != "" ==> (r.Some? && r.value.ok <==> LastMutatedBy(doc, call, auth))
    ensures r.Some? && r.value.ok ==> doc.lastMutation.Some? && r.value == MarkReplayed(RecordedResult(call, doc))
  {
    if call.expectedRequestRevision.None? then Some(RefusedResult(call.operation, InvalidRequest("expected_request_revision")))
    else if call.expectedRequestRevision.value == doc.request.revision then None
    else if && doc.lastMutation.Some? && call.idempotencyKey != ""
            && doc.lastMutation.value.key == call.idempotencyKey && doc.lastMutation.value.operation == call.operation
            && doc.lastMutation.value.fingerprint == CallFingerprintOf(call, auth)
    then Some(MarkReplayed(RecordedResult(call, doc)))
    else Some(RefusedResult(call.operation, StaleRequestRevision(call.expectedRequestRevision, doc.request.revision)))
  }

  /** What an answer to a request mutation says about the durable store. */
  ghost predicate MutationKept(before: Issues, after: Issues, projectId: string, call: Call, auth: AuthorizationContext, result: Result) {
    && (result.mutation == MutationApplied ==>
          exists n | n in after :: MutationStands(after, projectId, call, auth, n) && result == RecordedResult(call, after[n]))
    && (forall n | MutationStands(before, projectId, call, auth, n) ::
          && after == before
          && (result.ok ==> result == MarkReplayed(RecordedResult(call, before[n]))))
  }

  /** The answer owed to the retry of a mutation that stands. */
  ghost predicate MutationReplayed(before: Issues, projectId: string, call: Call, auth: AuthorizationContext, result: Result) {
    forall n | MutationStands(before, projectId, call, auth, n) :: result == MarkReplayed(RecordedResult(call, before[n]))
  }

  lemma NoRequestNoMutation(issues: Issues, projectId: string, call: Call, auth: AuthorizationContext, result: Result)
    requires forall n | n in issues :: !IsRequest(issues[n], projectId, call.requestId)
    ensures MutationReplayed(issues, projectId, call, auth, result)
  {
  }

  lemma RefusalKeeps(issues: Issues, projectId: string, call: Call, auth: AuthorizationContext, rejection: Rejection)
    ensures MutationKept(issues, issues, projectId, call, auth, RefusedResult(call.operation, rejection))
  {
    hide CallFingerprintOf;
  }

  lemma ResolvedKeeps(issues: Issues, projectId: string, call: Call, auth: AuthorizationContext, found: Scanned)
    requires Sound(issues) && call.idempotencyKey != ""
    requires found.number in issues && issues[found.number] == found.doc && IsRequest(found.doc, projectId, call.requestId)
    requires ResolveRevision(call, auth, found.doc).Some?
    ensures MutationKept(issues, issues, projectId, call, auth, ResolveRevision(call, auth, found.doc).value)
    ensures MutationReplayed(issues, projectId, call, auth, ResolveRevision(call, auth, found.doc).value)
  {
    hide RecordedResult, CallFingerprintOf, LastMutatedBy, ResolveRevision;
    SameRequest(issues, projectId, call, auth, found);
    assert DocOk(found.doc);
  }

  lemma SameRequest(issues: Issues, projectId: string, call: Call, auth: AuthorizationContext, found: Scanned)
    requires Sound(issues)
    requires found.number in issues && issues[found.number] == found.doc && IsRequest(found.doc, projectId, call.requestId)
    ensures forall n | MutationStands(issues, projectId, call, auth, n) :: n == found.number
  {
    forall n | MutationStands(issues, projectId, call, auth, n)
      ensures n == found.number
    {
      assert n != found.number ==> Apart(issues[n], issues[found.number]);
    }
  }

  /** A call at the current revision has not taken effect yet. */
  lemma Unresolved(issues: Issues, projectId: string, call: Call, auth: AuthorizationContext, found: Scanned)
    requires Sound(issues)
    requires found.number in issues && issues[found.number] == found.doc && IsRequest(found.doc, projectId, call.requestId)
    requires call.expectedRequestRevision == Some(found.doc.request.revision)
    ensures forall n :: !MutationStands(issues, projectId, call, auth, n)
    ensures forall result: Result :: MutationReplayed(issues, projectId, call, auth, result)
  {
    hide RecordedResult;
    SameRequest(issues, projectId, call, auth, found);
    assert DocOk(found.doc);
  }

  lemma CommittedKeeps(
    before: Issues, after: Issues, projectId: string, call: Call, auth: AuthorizationContext, found: Scanned, result: Result
  )
    requires forall n :: !MutationStands(before, projectId, call, auth, n)
    requires Committed(after, projectId, call, auth, found.number, result)
    ensures MutationKept(before, after, projectId, call, auth, result)
  {
    hide CallFingerprintOf, RecordedResult;
  }

  predicate MutatesRequest(operation: Operation) {
    operation in {RequestCreate, RequestRefine, RequestUpdatePriority, RequestLinkChangeSet, RequestLinkBuildWorkItem}
  }

  predicate MutatesOne(operation: Operation) {
    operation in {RequestRefine, RequestUpdatePriority, RequestLinkChangeSet, RequestLinkBuildWorkItem}
  }

  predicate Supported(operation: Operation) {
    || operation in {Materialize, Claim} || MutatesRequest(operation)
    || operation in {RequestGet, RequestQuery, WorkItemGet, WorkItemQuery, BlockedWorkQuery}
  }

  function Scope(call: Call): (targetType: string) {
    if call.workItemId != "" then "work-item" else "project"
  }

  /** What one call leaves, by what it asked for. A key already recorded means no write. */
  ghost predicate CallKept(
    before: Issues, after: Issues, keys: map<string, KeyEntry>, pending: map<string, RequestId>, cfg: Config, now: Time, call: Call,
    auth: AuthorizationContext, result: Result
  ) {
    && (call.idempotencyKey in keys ==> after == before)
    && (call.operation in {Materialize, Claim} && call.payload.LifecyclePayload? ==>
          LifecycleKept(before, after, keys, cfg, now, Normalized(cfg, call, auth, call.payload.payload), result))
    && (call.operation == RequestCreate && call.idempotencyKey !in keys && call.idempotencyKey != "" ==>
          && CreateKept(before, after, pending, cfg.projectId, call, auth, result)
          && CreateWritten(before, after, cfg, call, auth, result))
    && (call.operation in {RequestRefine, RequestUpdatePriority, RequestLinkChangeSet, RequestLinkBuildWorkItem}
        && call.idempotencyKey !in keys ==>
          MutationKept(before, after, cfg.projectId, call, auth, result))
    && (!MutatesRequest(call.operation) && call.operation !in {Materialize, Claim} ==> after == before)
  }

  /** The checks before an operation is looked at. */
  ghost predicate Permitted(cfg: Config, call: Call, auth: AuthorizationContext, now: Time) {
    && Supported(call.operation)
    && RoleHasWmsOperation(auth.role, call.operation)
    && AuthorizeContext(auth, call.operation, cfg.projectId, call.workItemId, "", ["project:" + cfg.projectId], now).None?
    && (call.policyVersion == "" || call.policyVersion == auth.policyVersion)
  }

  /** The call reaches its key: it is permitted, it is a mutation under a key, and, if it is a
      lifecycle command, authorized as one. */
  ghost predicate Heard(cfg: Config, call: Call, auth: AuthorizationContext, now: Time) {
    && Permitted(cfg, call, auth, now)
    && call.idempotencyKey != ""
    && if call.operation in {Materialize, Claim}
       then call.payload.LifecyclePayload? && Authorized(call, Normalized(cfg, call, auth, call.payload.payload), now)
       else MutatesRequest(call.operation)
  }

  /** The call is a materialization under a fresh key that is heard, and the scan for its binding
      fails. */
  ghost predicate Freezes(
    cfg: Config, plan: Plan, ops: nat, bindings: map<string, BindingEntry>, keys: map<string, KeyEntry>, call: Call,
    auth: AuthorizationContext, now: Time
  ) {
    && call.operation == Materialize && call.idempotencyKey !in keys && Heard(cfg, call, auth, now)
    && Unreadable(plan, ops, bindings, Normalized(cfg, call, auth, call.payload.payload))
  }

  /** What a call is compared by when its key is used again. */
  ghost function UseOf(cfg: Config, call: Call, auth: AuthorizationContext): (use: KeyUse) {
    if call.operation in {Materialize, Claim} && call.payload.LifecyclePayload?
    then LifecycleUse(FingerprintOf(Normalized(cfg, call, auth, call.payload.payload)))
    else CallUse(CallFingerprintOf(call, auth))
  }

  /** The answer a request call is owed: that of its recorded key, else that of the durable
      create or mutation it is the retry of. */
  ghost predicate RequestReplayed(
    before: Issues, keys: map<string, KeyEntry>, pending: map<string, RequestId>, projectId: string, call: Call, auth: AuthorizationContext,
    result: Result
  ) {
    && KeyAnswered(keys, call.idempotencyKey, CallUse(CallFingerprintOf(call, auth)), result)
    && (call.idempotencyKey !in keys ==>
          if call.operation == RequestCreate then CreateReplayed(before, pending, projectId, call, auth, result)
          else MutationReplayed(before, projectId, call, auth, result))
  }

  /** The answer a call is owed that is heard while nothing fails. */
  ghost predicate CallReplayed(
    before: Issues, keys: map<string, KeyEntry>, bindings: map<string, BindingEntry>, pending: map<string, RequestId>,
    cfg: Config, call: Call, auth: AuthorizationContext,
    result: Result
  ) {
    if call.operation in {Materialize, Claim}
    then call.payload.LifecyclePayload?
         && LifecycleReplayed(before, keys, bindings, cfg.projectId, Normalized(cfg, call, auth, call.payload.payload), result)
    else RequestReplayed(before, keys, pending, cfg.projectId, call, auth, result)
  }

  /** What a call records. A fresh key is frozen as unavailable exactly if `failed`. */
  ghost predicate CallNoted(
    before: map<string, KeyEntry>, after: map<string, KeyEntry>, cfg: Config, call: Call, auth: AuthorizationContext, result: Result,
    failed: bool
  ) {
    && Recorded(before, after, call.idempotencyKey, UseOf(cfg, call, auth), result)
    && (failed <==> call.idempotencyKey !in before && Frozen(after, call.idempotencyKey))
    && (after != before ==> failed || ShouldRemember(result))
  }

  /** A frozen key answers "unavailable" to the call that froze it and "conflict" to any
      other, however healthy the tracker. */
  lemma FrozenAnswers(
    before: Issues, keys: map<string, KeyEntry>, bindings: map<string, BindingEntry>, pending: map<string, RequestId>,
    cfg: Config, call: Call, auth: AuthorizationContext,
    result: Result
  )
    requires Frozen(keys, call.idempotencyKey) && CallReplayed(before, keys, bindings, pending, cfg, call, auth, result)
    ensures result.error ==
            Some(if keys[call.idempotencyKey].use == UseOf(cfg, call, auth) then WmsUnavailable
                 else IdempotencyConflict("request-fingerprint", call.idempotencyKey))
  {
    hide Normalized, FingerprintOf, CallFingerprintOf, CreateReplayed, MutationReplayed, ClaimStands, ClaimReplay;
  }

  lemma FrozenWith(
    before: map<string, KeyEntry>, after: map<string, KeyEntry>, cfg: Config, call: Call, auth: AuthorizationContext, result: Result
  )
    requires CallNoted(before, after, cfg, call, auth, result, true)
    ensures result.error == Some(WmsUnavailable)
  {
    hide UseOf;
  }

  lemma NothingRecorded(keys: map<string, KeyEntry>, key: string, use: KeyUse)
    ensures forall result: Result :: Recorded(keys, keys, key, use, result)
  {
  }

  lemma RefusedNotes(keys: map<string, KeyEntry>, cfg: Config, call: Call, auth: AuthorizationContext)
    ensures forall result: Result :: CallNoted(keys, keys, cfg, call, auth, result, false)
  {
    hide UseOf;
  }

  lemma ReadKeeps(
    issues: Issues, keys: map<string, KeyEntry>, pending: map<string, RequestId>, cfg: Config, now: Time, call: Call, auth: AuthorizationContext,
    result: Result
  )
    requires !MutatesRequest(call.operation) && call.operation !in {Materialize, Claim}
    ensures CallKept(issues, issues, keys, pending, cfg, now, call, auth, result)
  {
  }

  lemma AnsweredFromRecord(
    issues: Issues, keys: map<string, KeyEntry>, pending: map<string, RequestId>, cfg: Config, now: Time, call: Call, auth: AuthorizationContext,
    result: Result
  )
    requires MutatesRequest(call.operation) && call.idempotencyKey in keys
    requires KeyAnswered(keys, call.idempotencyKey, CallUse(CallFingerprintOf(call, auth)), result)
    ensures CallKept(issues, issues, keys, pending, cfg, now, call, auth, result)
    ensures RequestReplayed(issues, keys, pending, cfg.projectId, call, auth, result)
  {
    hide CallFingerprintOf, KeyAnswered;
  }

  lemma FreshCall(
    before: Issues, after: Issues, keys: map<string, KeyEntry>, pending: map<string, RequestId>, cfg: Config, now: Time, call: Call,
    auth: AuthorizationContext, result: Result
  )
    requires MutatesRequest(call.operation) && call.idempotencyKey !in keys
    requires if call.operation == RequestCreate
             then CreateKept(before, after, pending, cfg.projectId, call, auth, result) && CreateWritten(before, after, cfg, call, auth, result)
             else MutationKept(before, after, cfg.projectId, call, auth, result)
    ensures CallKept(before, after, keys, pending, cfg, now, call, auth, result)
    ensures (if call.operation == RequestCreate then CreateReplayed(before, pending, cfg.projectId, call, auth, result)
             else MutationReplayed(before, cfg.projectId, call, auth, result)) ==>
              RequestReplayed(before, keys, pending, cfg.projectId, call, auth, result)
  {
    hide CallFingerprintOf, CreateKept, CreateWritten, MutationKept, CreateReplayed, MutationReplayed;
  }

  lemma LifecycleCallNoted(
    before: Issues, keys: map<string, KeyEntry>, after: map<string, KeyEntry>, bindings: map<string, BindingEntry>,
    pending: map<string, RequestId>, cfg: Config, call: Call,
    auth: AuthorizationContext, result: Result, failed: bool
  )
    requires call.operation in {Materialize, Claim}
    requires !call.payload.LifecyclePayload? ==> after == keys && !failed
    requires call.payload.LifecyclePayload? ==> Noted(keys, after, Normalized(cfg, call, auth, call.payload.payload), result, failed)
    ensures CallNoted(keys, after, cfg, call, auth, result, failed) && (failed ==> call.operation == Materialize)
    ensures call.payload.LifecyclePayload?
            && LifecycleReplayed(before, keys, bindings, cfg.projectId, Normalized(cfg, call, auth, call.payload.payload), result) ==>
              CallReplayed(before, keys, bindings, pending, cfg, call, auth, result)
  {
    hide FingerprintOf, LifecycleReplayed;
  }

  lemma RequestCallNoted(
    before: Issues, keys: map<string, KeyEntry>, after: map<string, KeyEntry>, bindings: map<string, BindingEntry>,
    pending: map<string, RequestId>, cfg: Config, call: Call,
    auth: AuthorizationContext, result: Result
  )
    requires call.operation !in {Materialize, Claim}
    requires Recorded(keys, after, call.idempotencyKey, CallUse(CallFingerprintOf(call, auth)), result)
    requires after != keys ==> ShouldRemember(result)
    ensures CallNoted(keys, after, cfg, call, auth, result, false)
    ensures RequestReplayed(before, keys, pending, cfg.projectId, call, auth, result) ==>
              CallReplayed(before, keys, bindings, pending, cfg, call, auth, result)
  {
    hide CallFingerprintOf, RequestReplayed;
  }

  lemma RefusedKeeps(
    issues: Issues, keys: map<string, KeyEntry>, pending: map<string, RequestId>, cfg: Config, now: Time, call: Call, auth: AuthorizationContext
  )
    ensures forall rejection: Rejection ::
              CallKept(issues, issues, keys, pending, cfg, now, call, auth, RefusedResult(call.operation, rejection))
  {
    forall rejection: Rejection
      ensures CallKept(issues, issues, keys, pending, cfg, now, call, auth, RefusedResult(call.operation, rejection))
    {
      hide LifecycleKept, Normalized, CreateKept, CreateWritten, MutationKept;
      RefusalKeeps(issues, cfg.projectId, call, auth, rejection);
      NothingCreated(issues, cfg, call, auth);
      CreateRefusals(issues, pending, cfg.projectId, call, auth);
      if call.payload.LifecyclePayload? {
        Unapplied(issues, keys, cfg, now, Normalized(cfg, call, auth, call.payload.payload), RefusedResult(call.operation, rejection));
      }
    }
  }

  lemma LifecycleCallKept(
    before: Issues, after: Issues, keys: map<string, KeyEntry>, pending: map<string, RequestId>, cfg: Config, now: Time, call: Call,
    auth: AuthorizationContext, result: Result
  )
    requires call.operation in {Materialize, Claim}
    requires !call.payload.LifecyclePayload? ==> after == before
    requires call.payload.LifecyclePayload? ==>
               LifecycleKept(before, after, keys, cfg, now, Normalized(cfg, call, auth, call.payload.payload), result)
    ensures CallKept(before, after, keys, pending, cfg, now, call, auth, result)
  {
    hide Normalized, CreateKept, CreateWritten, MutationKept, LifecycleAnswered, ClaimStands, ClaimReplay;
  }

  /** The next revision of a request, with the record of the call that made it and the approval
      it spent. */
  function RevisionDoc(prior: Doc, call: Call, auth: AuthorizationContext, changed: RequestRecord, effect: MutationEffect): (doc: Doc)
    requires prior.RequestDoc?
    ensures doc.RequestDoc? && doc.request == changed.(revision := changed.revision + 1) && doc.lastMutation.Some?
  {
    prior.(
      request := changed.(revision := changed.revision + 1),
      consumed := if effect.approvalId != "" && effect.approvalId !in prior.consumed then prior.consumed + [effect.approvalId]
                  else prior.consumed,
      lastMutation := Some(MutationRecord(call.operation, call.idempotencyKey, CallFingerprintOf(call, auth), effect.approvalStatus,
                                          effect.changeSetPriority, effect.workItemPriority)))
  }

  lemma RevisionIsEntitled(
    gate: Gate, projectId: string, call: Call, auth: AuthorizationContext, prior: Doc, changed: RequestRecord, effect: MutationEffect
  )
    requires IsRequest(prior, projectId, call.requestId)
    requires call.operation in {RequestRefine, RequestUpdatePriority, RequestLinkChangeSet, RequestLinkBuildWorkItem}
    requires call.expectedRequestRevision == Some(prior.request.revision)
    requires changed.id == prior.request.id && changed.revision == prior.request.revision
    requires if call.operation == RequestRefine
             then effect.approvalId !in prior.consumed && effect.approvalId != "" && gate(effect.approvalId) == (projectId, call.requestId)
             else effect.approvalId == ""
    ensures var doc := RevisionDoc(prior, call, auth, changed, effect);
            && MayUpdateRequest(gate, prior, doc) && doc != prior
            && IsRequest(doc, projectId, call.requestId) && LastMutatedBy(doc, call, auth)
  {
  }

  lemma RevisionCommits(issues: Issues, projectId: string, call: Call, auth: AuthorizationContext, n: nat, result: Result)
    requires n in issues && IsRequest(issues[n], projectId, call.requestId) && LastMutatedBy(issues[n], call, auth)
    requires result == RecordedResult(call, issues[n])
    ensures Committed(issues, projectId, call, auth, n, result)
    ensures result.mutation == MutationApplied && ShouldRemember(result)
  {
    hide CallFingerprintOf;
  }

  lemma NothingCommitted(issues: Issues, projectId: string, call: Call, auth: AuthorizationContext, n: nat)
    ensures Committed(issues, projectId, call, auth, n, UnknownResult(call.operation))
    ensures Committed(issues, projectId, call, auth, n, Unavailable(call.operation))
  {
  }
}
