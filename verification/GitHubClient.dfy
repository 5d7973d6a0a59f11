/** The issue tracker as its client sees it. Any operation may fail; a write that fails may
    or may not have been made. A read that succeeds shows the store as it is, and only a
    missing issue is reported missing. */
module GitHubClient {
  import opened Records
  import opened GitHubStore

  datatype Reply<+T> = Ok(value: T) | Missing | Transient | Hard

  datatype Scanned = Scanned(number: nat, doc: Doc)

  /** Exactly the issues under a label. */
  predicate Lists(docs: seq<Scanned>, issues: Issues, requests: bool) {
    && (forall s | s in docs :: s.number in issues && issues[s.number] == s.doc && s.doc.RequestDoc? == requests)
    && (forall n | n in issues && issues[n].RequestDoc? == requests :: Scanned(n, issues[n]) in docs)
  }

  /** How an operation goes; a write that fails may have been made. */
  datatype Fate = Fine | Failing(transient: bool, made: bool)

  predicate IsMade(fate: Fate) {
    fate.Fine? || fate.made
  }

  /** What the caller of a write is told. */
  predicate Answers<T>(fate: Fate, reply: Reply<T>) {
    if fate.Fine? then reply.Ok? else if fate.transient then reply.Transient? else reply.Hard?
  }

  /** The fate of each operation of the store, in the order they are performed. */
  type Plan = nat -> Fate

  /** How many of the first `n` operations fail. */
  ghost function Failures(plan: Plan, n: nat): (count: nat) {
    |set k: nat | k < n && !plan(k).Fine?|
  }

  lemma OneMore(plan: Plan, n: nat)
    ensures Failures(plan, n + 1) == Failures(plan, n) + if plan(n).Fine? then 0 else 1
  {
    var before, after := set k: nat | k < n && !plan(k).Fine?, set k: nat | k < n + 1 && !plan(k).Fine?;
    assert after == if plan(n).Fine? then before else before + {n};
  }

  ghost predicate AllFine(plan: Plan, from: nat, to: nat) {
    forall k | from <= k < to :: plan(k).Fine?
  }

  lemma NoFailures(plan: Plan, from: nat, to: nat)
    requires from <= to && AllFine(plan, from, to)
    ensures Failures(plan, to) == Failures(plan, from)
  {
    assert (set k: nat | k < to && !plan(k).Fine?) == (set k: nat | k < from && !plan(k).Fine?);
  }

  /** `ops` counts the operations performed. */
  class Hub {
    /** What the trusted Gate bound each approval id to. */
    ghost const gate: Gate
    const plan: Plan
    var issues: Issues
    var next: nat
    var ops: nat
    ghost var log: seq<Write>

    /** Every write so far was one an adapter is entitled to. */
    ghost predicate Valid()
      reads this`issues, this`next, this`log
    {
      issues == After(log) && Entitled(gate, log) && forall n | n in issues :: n < next
    }

    /** The number of operations that failed. */
    ghost function Faults(): (count: nat)
      reads this`ops
    {
      Failures(plan, ops)
    }

    constructor (ghost gate: Gate, plan: Plan)
      ensures Valid() && issues == map[] && log == [] && ops == 0 && this.gate == gate && this.plan == plan
    {
      this.gate, this.plan := gate, plan;
      issues, next, log, ops := map[], 0, [], 0;
    }

    lemma Soundness()
      requires Valid()
      ensures Sound(issues)
    {
      hide Sound, After;
      assert log[..|log|] == log;
      EveryLogIsSound(gate, log, |log|);
    }

    /** The next operation meets its fate. */
    method Turn() returns (fate: Fate)
      modifies this`ops
      ensures fate == plan(old(ops)) && ops == old(ops) + 1
      ensures Faults() == old(Faults()) + if fate.Fine? then 0 else 1
    {
      OneMore(plan, ops);
      fate := plan(ops);
      ops := ops + 1;
    }

    method Get(number: nat) returns (reply: Reply<Doc>)
      modifies this`ops
      ensures reply.Ok? ==> number in issues && reply.value == issues[number]
      ensures reply.Missing? ==> number !in issues
      ensures ops == old(ops) + 1 && (reply.Transient? || reply.Hard? <==> !plan(old(ops)).Fine?)
      ensures number in issues ==> Answers(plan(old(ops)), reply)
      ensures Faults() >= old(Faults()) && (reply.Transient? || reply.Hard? ==> Faults() > old(Faults()))
    {
      hide Failures;
      var fate := Turn();
      if fate.Failing? {
        reply := if fate.transient then Transient else Hard;
      } else if number in issues {
        reply := Ok(issues[number]);
      } else {
        reply := Missing;
      }
    }

    method List(requests: bool) returns (reply: Reply<seq<Scanned>>)
      modifies this`ops
      ensures reply.Ok? ==> Lists(reply.value, issues, requests)
      ensures !reply.Missing?
      ensures ops == old(ops) + 1 && (reply.Ok? <==> plan(old(ops)).Fine?)
      ensures Faults() >= old(Faults()) && (!reply.Ok? ==> Faults() > old(Faults()))
    {
      hide Failures;
      var fate := Turn();
      if fate.Failing? {
        return if fate.transient then Transient else Hard;
      }
      var rest: set<nat>, docs: seq<Scanned> := issues.Keys, [];
      while rest != {}
        invariant rest <= issues.Keys
        invariant forall s | s in docs :: s.number in issues && issues[s.number] == s.doc && s.doc.RequestDoc? == requests
        invariant forall n | n in issues && n !in rest && issues[n].RequestDoc? == requests :: Scanned(n, issues[n]) in docs
        decreases rest
      {
        var n :| n in rest;
        if issues[n].RequestDoc? == requests {
          docs := docs + [Scanned(n, issues[n])];
        }
        rest := rest - {n};
      }
      reply := Ok(docs);
    }

    /** Records a write the caller is entitled to. */
    method Put(w: Write)
      requires Valid() && MayWrite(gate, issues, w)
      modifies this`issues, this`next, this`log
      ensures Valid() && issues == old(issues)[w.number := w.doc] && log == old(log) + [w]
    {
      hide MayWrite, After;
      issues := issues[w.number := w.doc];
      log := log + [w];
      if next <= w.number {
        next := w.number + 1;
      }
      assert log[..|log| - 1] == old(log);
      Extended(log, |log| - 1);
      assert log[..|log|] == log;
      forall i | 0 <= i < |log|
        ensures MayWrite(gate, After(log[..i]), log[i])
      {
        assert i < |old(log)| ==> log[..i] == old(log)[..i];
      }
    }

    method Create(doc: Doc) returns (reply: Reply<nat>)
      requires Valid() && MayCreate(issues, doc)
      modifies this
      ensures Valid() && old(log) <= log && !reply.Missing?
      ensures ops == old(ops) + 1 && Answers(plan(old(ops)), reply)
      ensures Faults() >= old(Faults()) && (!reply.Ok? ==> Faults() > old(Faults()))
      ensures reply.Ok? ==> reply.value !in old(issues) && issues == old(issues)[reply.value := doc]
      ensures if IsMade(plan(old(ops))) then exists n: nat :: n !in old(issues) && issues == old(issues)[n := doc] else issues == old(issues)
    {
      hide Failures, MayCreate;
      var number: nat :| number >= next;
      var fate := Turn();
      if fate.Fine? || fate.made {
        Put(Write(number, doc));
      }
      reply := if fate.Fine? then Ok(number) else if fate.transient then Transient else Hard;
    }

    method Update(number: nat, doc: Doc) returns (reply: Reply<()>)
      requires Valid() && number in issues && (MayUpdateItem(issues[number], doc) || MayUpdateRequest(gate, issues[number], doc))
      modifies this
      ensures Valid() && old(log) <= log && !reply.Missing?
      ensures ops == old(ops) + 1 && Answers(plan(old(ops)), reply)
      ensures Faults() >= old(Faults()) && (!reply.Ok? ==> Faults() > old(Faults()))
      ensures reply.Ok? ==> issues == old(issues)[number := doc]
      ensures issues == if IsMade(plan(old(ops))) then old(issues)[number := doc] else old(issues)
    {
      hide Failures, MayUpdateItem, MayUpdateRequest;
      var fate := Turn();
      if fate.Fine? || fate.made {
        Put(Write(number, doc));
      }
      reply := if fate.Fine? then Ok(()) else if fate.transient then Transient else Hard;
    }
  }
}
