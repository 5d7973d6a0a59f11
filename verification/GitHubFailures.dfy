/** Two promises of the GitHub backend that fail, each in a run of it. */
module GitHubFailures {
  import opened Records
  import opened Authorization
  import opened MemoryStore
  import opened GitHubStore
  import opened GitHubClient
  import opened GitHubAdapter
  import MemoryRetryRun
  import Text

  datatype Command = Command(now: Time, call: Call, gate: Option<AuthorizationContext>)

  /** A recorded key keeps its record through any further calls. */
  method Continue(a: Adapter, commands: seq<Command>)
    requires a.Valid()
    modifies a, a.hub
    ensures a.Valid() && old(a.hub.log) <= a.hub.log && a.hub.ops >= old(a.hub.ops)
    ensures Keeps(old(a.idempotency), a.idempotency)
    ensures commands == [] ==> a.hub.issues == old(a.hub.issues)
  {
    hide Hub.Valid, Adapter.Valid, CallKept, CallReplayed, Heard, Numbered, Freezes, MutationCarried, FirstCreate, CreateRan, LifecycleDecided,
         Failures, LookupsFor;
    for i := 0 to |commands|
      invariant a.Valid() && old(a.hub.log) <= a.hub.log && a.hub.ops >= old(a.hub.ops)
      invariant Keeps(old(a.idempotency), a.idempotency)
      invariant i == 0 ==> a.hub.issues == old(a.hub.issues)
    {
      var _ := a.Run(commands[i].now, commands[i].call, commands[i].gate);
    }
  }

  /** One failed read of a binding makes a key useless. The scan for the binding of a
      materialization fails, and no operation after it; whatever calls come between, the same
      call is refused as unavailable again, and writes nothing. */
  method RetryOfFrozenKey(a: Adapter, now: Time, call: Call, auth: AuthorizationContext, commands: seq<Command>, later: Time)
    returns (first: Result, second: Result, ghost before: Issues)
    requires a.Valid() && Freezes(a.cfg, a.hub.plan, a.hub.ops, a.bindings, a.idempotency, call, auth, now)
    requires forall k | k > a.hub.ops + LookupsFor(Normalized(a.cfg, call, auth, call.payload.payload)) :: a.hub.plan(k).Fine?
    requires Heard(a.cfg, call, auth, later)
    modifies a, a.hub
    ensures a.Valid() && old(a.hub.log) <= a.hub.log
    ensures first.error == Some(WmsUnavailable)
    ensures second.error == Some(WmsUnavailable) && a.hub.issues == before
    ensures commands == [] ==> a.hub.issues == old(a.hub.issues)
    ensures a.hub.ops > old(a.hub.ops) + LookupsFor(Normalized(a.cfg, call, auth, call.payload.payload))
  {
    hide Hub.Valid, Adapter.Valid, Heard, Numbered, CallReplayed, UseOf, LookupsFor, Failures, MutationCarried, FirstCreate, CreateRan,
         LifecycleDecided, LifecycleKept, CreateKept, MutationKept, Normalized, Unreadable;
    first := a.Run(now, call, Some(auth));
    Continue(a, commands);
    ghost var start, current, known, pending := a.hub.ops, a.idempotency, a.bindings, a.pendingCreate;
    before := a.hub.issues;
    second := a.Run(later, call, Some(auth));
    NoFailures(a.hub.plan, start, a.hub.ops);
    FrozenAnswers(before, current, known, pending, a.cfg, call, auth, second);
  }

  /** A plan in which the second operation alone fails, without having been made. */
  const SECOND_FAILS: Plan := k => if k == 1 then Failing(true, false) else Fine

  /** The run itself: a new store and adapter, a materialization whose binding cannot be read,
      and the same call again. */
  method FrozenRun(ghost gate: Gate) returns (first: Result, second: Result, hub: Hub)
    ensures first.error == Some(WmsUnavailable) && second.error == Some(WmsUnavailable)
    ensures hub.Valid() && hub.issues == map[] && hub.Faults() == 1
  {
    hide Heard, LookupsFor, Freezes, Normalized, Failures, Hub.Valid, ItemIndexOk, RequestIndexOk, BindingsOk, ApprovalsOk, KeysOk;
    hub := new Hub(gate, SECOND_FAILS);
    var a := new Adapter(MemoryRetryRun.CFG, hub);
    IsHeard(1);
    IsHeard(2);
    IsUnreadable();
    IsNormalized();
    ghost var before;
    first, second, before := RetryOfFrozenKey(a, 1, MemoryRetryRun.MATERIALIZE, MemoryRetryRun.AUTH, [], 2);
    OneFailure(hub.ops);
  }

  lemma OneFailure(n: nat)
    requires n > 1
    ensures Failures(SECOND_FAILS, n) == 1
  {
    assert (set k: nat | k < n && !SECOND_FAILS(k).Fine?) == {1};
  }

  lemma IsHeard(now: Time)
    requires 0 < now < 100
    ensures Heard(MemoryRetryRun.CFG, MemoryRetryRun.MATERIALIZE, MemoryRetryRun.AUTH, now)
  {
    hide ContextIsValid, IsWildcard, Normalized;
    MemoryRetryRun.Trusted(now);
    assert "project:" + "P" == "project:P";
    IsNormalized();
  }

  lemma IsNormalized()
    ensures Normalized(MemoryRetryRun.CFG, MemoryRetryRun.MATERIALIZE, MemoryRetryRun.AUTH, MemoryRetryRun.MATERIALIZE.payload.payload) ==
            MemoryRetryRun.REQUEST
  {
  }

  lemma IsUnreadable()
    ensures Freezes(MemoryRetryRun.CFG, SECOND_FAILS, 0, map[], map[], MemoryRetryRun.MATERIALIZE, MemoryRetryRun.AUTH, 1)
    ensures LookupsFor(MemoryRetryRun.REQUEST) == 1
  {
    IsHeard(1);
    IsNormalized();
    hide Heard, Normalized;
  }

  // ----- an applied create that was never made -----

  /** A create under a key that is not recorded. */
  method Create(a: Adapter, now: Time, call: Call, auth: AuthorizationContext) returns (result: Result)
    requires a.Valid() && call.operation == RequestCreate && call.idempotencyKey !in a.idempotency && Heard(a.cfg, call, auth, now)
    modifies a, a.hub
    ensures a.Valid() && old(a.hub.log) <= a.hub.log && a.hub.ops >= old(a.hub.ops)
    ensures CreateKept(old(a.hub.issues), a.hub.issues, old(a.pendingCreate), a.cfg.projectId, call, auth, result)
    ensures a.hub.Faults() == old(a.hub.Faults()) ==>
              CreateReplayed(old(a.hub.issues), old(a.pendingCreate), a.cfg.projectId, call, auth, result)
    ensures Numbered(old(a.hub.issues), a.cfg.projectId, old(a.nextRequestSeq), a.nextRequestSeq, old(a.pendingCreate), a.pendingCreate, call,
                     result)
    ensures FirstCreate(old(a.hub.issues), old(a.pendingCreate), old(a.semanticRequests), a.cfg, call) && a.hub.plan(old(a.hub.ops)).Fine? ==>
              a.hub.ops > old(a.hub.ops) + 1 && CreateRan(a.hub.plan, old(a.hub.ops) + 1, old(a.hub.issues), a.hub.issues, result)
    ensures result.mutation == MutationUnknown ==> call.idempotencyKey !in a.idempotency
  {
    hide Hub.Valid, Adapter.Valid, UseOf, CreateKept, CreateReplayed, Numbered, MutationKept, LifecycleKept, FirstCreate, CreateRan, Failures,
         MutationCarried, LifecycleDecided, Permitted, Unreadable, Normalized;
    result := a.Run(now, call, Some(auth));
  }

  /** Two adapters on a new store whose second operation fails. The first creates a request: the
      write fails, is not made, and leaves the outcome unknown. The second creates another. The
      first tries again, with nothing failing, and is told that it was applied: as the request
      of the second; no request is ever made under its own key. */
  method LostCreate(ghost gate: Gate, cfg: Config, now: Time, lost: Call, other: Call, auth: AuthorizationContext)
    returns (first: Result, made: Result, second: Result, hub: Hub)
    requires lost.operation == RequestCreate && ValidCreate(lost) && Heard(cfg, lost, auth, now)
    requires other.operation == RequestCreate && ValidCreate(other) && Heard(cfg, other, auth, now)
    requires lost.idempotencyKey != other.idempotencyKey
    ensures first.mutation == MutationUnknown && made.mutation == MutationApplied
    ensures second.ok && second.mutation == MutationApplied && second.requestId == made.requestId
    ensures hub.Valid() && Uncreated(hub.issues, cfg.projectId, lost.idempotencyKey) && hub.Faults() == 1
  {
    hide Entitled, After, ItemIndexOk, RequestIndexOk, BindingsOk, ApprovalsOk, KeysOk, Heard, Numbered, CreateKept, CreateReplayed,
         IsTop, Uncreated, ValidCreate, SemanticKeyOf, FirstCreate, CreateRan, Failures;
    hub := new Hub(gate, SECOND_FAILS);
    var a := new Adapter(cfg, hub);
    var b := new Adapter(cfg, hub);
    NothingCreated(cfg, lost);
    NothingCreated(cfg, other);
    ghost var log := hub.log;
    first := Create(a, now, lost, auth);
    Lost(hub.issues, first);
    b.StillValid(log, map[]);
    ghost var next, start := a.nextRequestSeq, hub.ops;
    log := hub.log;
    made := Create(b, now, other, auth);
    Made(start + 1, hub.issues, made);
    a.StillValid(log, map[]);
    ghost var before, pending, left, taken := hub.issues, a.pendingCreate, b.pendingCreate, b.nextRequestSeq;
    start := hub.ops;
    second := Create(a, now, lost, auth);
    NoFailures(SECOND_FAILS, start, hub.ops);
    Mistaken(map[], before, hub.issues, pending, next, left, taken, cfg, lost, other, auth, first, made, second);
    OneFailure(hub.ops);
  }

  lemma NothingCreated(cfg: Config, call: Call)
    requires ValidCreate(call)
    ensures FirstCreate(map[], map[], map[], cfg, call) && Uncreated(map[], cfg.projectId, call.idempotencyKey)
  {
    hide SemanticKeyOf, ValidCreate;
  }

  lemma Lost(after: Issues, result: Result)
    requires CreateRan(SECOND_FAILS, 1, map[], after, result)
    ensures result.mutation == MutationUnknown && after == map[]
  {
  }

  lemma Made(n: nat, after: Issues, result: Result)
    requires n > 1 && CreateRan(SECOND_FAILS, n, map[], after, result)
    ensures result.mutation == MutationApplied
  {
  }

  /** Both adapters number from the same store, so the second takes the number the first has
      reserved. */
  lemma Mistaken(
    start: Issues, before: Issues, after: Issues, pending: map<string, RequestId>, next: nat, left: map<string, RequestId>, taken: nat,
    cfg: Config, lost: Call, other: Call, auth: AuthorizationContext, first: Result, made: Result, second: Result
  )
    requires lost.idempotencyKey != other.idempotencyKey && ValidCreate(lost) && Uncreated(start, cfg.projectId, lost.idempotencyKey)
    requires first.mutation == MutationUnknown && Numbered(start, cfg.projectId, 0, next, map[], pending, lost, first)
    requires made.mutation == MutationApplied && CreateKept(start, before, map[], cfg.projectId, other, auth, made)
    requires Numbered(start, cfg.projectId, 0, taken, map[], left, other, made)
    requires CreateKept(before, after, pending, cfg.projectId, lost, auth, second)
    requires CreateReplayed(before, pending, cfg.projectId, lost, auth, second)
    ensures second.ok && second.mutation == MutationApplied && second.requestId == made.requestId
    ensures Uncreated(after, cfg.projectId, lost.idempotencyKey)
  {
    hide CallFingerprintOf;
  }

  const AUTHOR: AuthorizationContext :=
    AuthorizationContext("author", DraftingTable, "P", "", "", [RequestCreate], ["project:P"], 100, "v1")

  function Wish(key: string): (call: Call) {
    Call(RequestCreate, "", 0, "", None, NO_STATE, None, NO_TOKEN, "", key, "", CreatePayload("intent " + key, "rationale", [], []))
  }

  lemma WishIsHeard(now: Time, key: string)
    requires 0 < now < 100 && key != ""
    ensures ValidCreate(Wish(key)) && Heard(MemoryRetryRun.CFG, Wish(key), AUTHOR, now)
  {
    hide Text.IsBlank, IsWildcard, Normalized;
    NotBlank("intent " + key, 'i');
    NotBlank("rationale", 'r');
    MemoryRetryRun.Trusted(now);
    assert "project:" + "P" == "project:P";
  }

  lemma NotBlank(s: string, c: char)
    requires s != "" && s[0] == c && c in {'i', 'r'}
    ensures !Text.IsBlank(s)
  {
    assert s[0] in s;
  }

  /** The run itself. */
  method LostRun(ghost gate: Gate) returns (first: Result, made: Result, second: Result, hub: Hub)
    ensures first.mutation == MutationUnknown && made.mutation == MutationApplied
    ensures second.ok && second.mutation == MutationApplied && second.requestId == made.requestId
    ensures hub.Valid() && Uncreated(hub.issues, "P", "A") && hub.Faults() == 1
  {
    hide Heard, ValidCreate, Uncreated, Hub.Valid, Failures;
    WishIsHeard(1, "A");
    WishIsHeard(1, "B");
    first, made, second, hub := LostCreate(gate, MemoryRetryRun.CFG, 1, Wish("A"), Wish("B"), AUTHOR);
  }
}
