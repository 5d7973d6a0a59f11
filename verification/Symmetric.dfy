/** Symmetric relationships between requirements: changing one requirement writes, or takes
    back, the inverse on every requirement it names or named. */
module Symmetric {
  import Text

  datatype Option<+T> = None | Some(value: T)

  datatype Relationship = Relationship(kind: string, target: string)

  /** `rest` stands for everything a requirement says beside its relationships. */
  datatype Requirement = Requirement(id: string, relationships: seq<Relationship>, rest: string)

  datatype Operation = Operation(action: string, requirementId: string)

  predicate IsSymmetric(kind: string) {
    kind == "conflicts-with" || kind == "related-to"
  }

  // ----- one requirement -----

  /** The symmetric relationships of a requirement, each once. */
  function Edges(values: seq<Relationship>): (edges: set<Relationship>) {
    set r | r in values && IsSymmetric(r.kind)
  }

  method EdgesLoop(values: seq<Relationship>) returns (edges: set<Relationship>)
    ensures edges == Edges(values)
  {
    edges := {};
    for i := 0 to |values|
      invariant edges == Edges(values[..i])
    {
      assert values[..i + 1] == values[..i] + [values[i]];
      if IsSymmetric(values[i].kind) {
        edges := edges + {values[i]};
      }
    }
    assert values[..|values|] == values;
  }

  /** Without every occurrence of one relationship, order kept. */
  function Without(values: seq<Relationship>, r: Relationship): (result: seq<Relationship>)
    ensures forall v :: v in result <==> v in values && v != r
  {
    if values == [] then []
    else
      var last := values[|values| - 1];
      assert values == values[..|values| - 1] + [last];
      Without(values[..|values| - 1], r) + if last == r then [] else [last]
  }

  /** The inverse is there exactly if it is wanted; a relationship that is there already, or
      not there at all, is left as it is. */
  function Inverse(values: seq<Relationship>, r: Relationship, wanted: bool): (result: seq<Relationship>)
    ensures r in result <==> wanted
    ensures forall v | v != r :: v in result <==> v in values
    ensures result != values <==> (r in values) != wanted
  {
    if !wanted then
      WithoutNothing(values, r);
      Without(values, r)
    else if r in values then values
    else values + [r]
  }

  lemma {:induction false} WithoutNothing(values: seq<Relationship>, r: Relationship)
    ensures Without(values, r) == values <==> r !in values
  {
    if values != [] {
      WithoutNothing(values[..|values| - 1], r);
      assert values == values[..|values| - 1] + [values[|values| - 1]];
    }
  }

  method InverseLoop(values: seq<Relationship>, r: Relationship, wanted: bool) returns (result: seq<Relationship>, modified: bool)
    ensures result == Inverse(values, r, wanted)
    ensures modified <==> result != values
  {
    result, modified := [], false;
    var found := false;
    for i := 0 to |values|
      invariant found <==> r in values[..i]
      invariant result == if wanted then values[..i] else Without(values[..i], r)
      invariant modified <==> !wanted && found
    {
      assert values[..i + 1] == values[..i] + [values[i]];
      assert values[..i + 1][..i] == values[..i];
      assert Without(values[..i + 1], r) == Without(values[..i], r) + if values[i] == r then [] else [values[i]];
      if values[i] == r {
        found := true;
        if !wanted {
          modified := true;
          continue;
        }
      }
      result := result + [values[i]];
    }
    assert values[..|values|] == values;
    if wanted && !found {
      result := result + [r];
      modified := true;
    }
  }

  // ----- the effect of a list of edges on one requirement -----

  /** The relationships of requirement `id` after the edges that name it were dealt with. */
  function Dealt(values: seq<Relationship>, edges: seq<Relationship>, id: string, source: string, after: set<Relationship>): (result: seq<Relationship>) {
    if edges == [] then values
    else
      var last := edges[|edges| - 1];
      var earlier := Dealt(values, edges[..|edges| - 1], id, source, after);
      if last.target == id then Inverse(earlier, Relationship(last.kind, source), last in after) else earlier
  }

  /** The inverse of an edge that was dealt with is there exactly if the edge is wanted; any
      other relationship is as it was. */
  lemma {:induction false} DealtMembers(
    values: seq<Relationship>, edges: seq<Relationship>, id: string, source: string, after: set<Relationship>, r: Relationship
  )
    ensures var e := Relationship(r.kind, id);
            r in Dealt(values, edges, id, source, after) <==>
              if r.target == source && e in edges then e in after else r in values
  {
    if edges != [] {
      DealtMembers(values, edges[..|edges| - 1], id, source, after, r);
      assert edges == edges[..|edges| - 1] + [edges[|edges| - 1]];
    }
  }

  /** Relationships to others keep their content and order. */
  function ToOthers(values: seq<Relationship>, source: string): (result: seq<Relationship>) {
    if values == [] then []
    else
      var last := values[|values| - 1];
      ToOthers(values[..|values| - 1], source) + if last.target == source && IsSymmetric(last.kind) then [] else [last]
  }

  lemma {:induction false} WithoutKeepsOthers(values: seq<Relationship>, r: Relationship, source: string)
    requires r.target == source && IsSymmetric(r.kind)
    ensures ToOthers(Without(values, r), source) == ToOthers(values, source)
  {
    if values != [] {
      WithoutKeepsOthers(values[..|values| - 1], r, source);
      var last, rest := values[|values| - 1], Without(values[..|values| - 1], r);
      if last == r {
        assert Without(values, r) == rest;
      } else {
        var whole := Without(values, r);
        assert whole == rest + [last] && whole[..|whole| - 1] == rest;
      }
    }
  }

  lemma {:induction false} DealtKeepsOthers(
    values: seq<Relationship>, edges: seq<Relationship>, id: string, source: string, after: set<Relationship>
  )
    requires forall e | e in edges :: IsSymmetric(e.kind)
    ensures ToOthers(Dealt(values, edges, id, source, after), source) == ToOthers(values, source)
  {
    if edges != [] {
      var last := edges[|edges| - 1];
      DealtKeepsOthers(values, edges[..|edges| - 1], id, source, after);
      var earlier, r := Dealt(values, edges[..|edges| - 1], id, source, after), Relationship(last.kind, source);
      WithoutKeepsOthers(earlier, r, source);
      assert (earlier + [r])[..|earlier|] == earlier;
    }
  }

  /** A requirement differs exactly if some inverse on it was not as wanted. */
  lemma {:induction false} DealtChanges(
    values: seq<Relationship>, edges: seq<Relationship>, id: string, source: string, after: set<Relationship>
  )
    requires forall i, j | 0 <= i < j < |edges| :: edges[i] != edges[j]
    ensures Dealt(values, edges, id, source, after) != values <==>
            exists e | e in edges :: e.target == id && (Relationship(e.kind, source) in values) != (e in after)
  {
    if edges != [] {
      var last, init := edges[|edges| - 1], edges[..|edges| - 1];
      assert edges == init + [last];
      DealtChanges(values, init, id, source, after);
      var r := Relationship(last.kind, source);
      DealtMembers(values, init, id, source, after, r);
      DealtMembers(values, edges, id, source, after, r);
      if e :| e in init && e.target == id && (Relationship(e.kind, source) in values) != (e in after) {
        DealtMembers(values, edges, id, source, after, Relationship(e.kind, source));
        assert e in edges;
      }
    }
  }

  // ----- the whole store -----

  /** Order of the edges: by kind, then by target. */
  predicate Before(a: Relationship, b: Relationship) {
    if a.kind == b.kind then Text.Less(a.target, b.target) else Text.Less(a.kind, b.kind)
  }

  function Place(e: Relationship, sorted: seq<Relationship>): (r: seq<Relationship>)
    ensures forall v :: v in r <==> v == e || v in sorted
  {
    if sorted == [] || Before(e, sorted[0]) then [e] + sorted
    else
      var rest := Place(e, sorted[1..]);
      assert sorted == [sorted[0]] + sorted[1..];
      [sorted[0]] + rest
  }

  predicate Distinct<T(==)>(values: seq<T>) {
    forall i, j | 0 <= i < j < |values| :: values[i] != values[j]
  }

  lemma {:induction false} PlaceKeepsDistinct(e: Relationship, sorted: seq<Relationship>)
    requires Distinct(sorted) && e !in sorted
    ensures Distinct(Place(e, sorted))
  {
    if sorted != [] && !Before(e, sorted[0]) {
      PlaceKeepsDistinct(e, sorted[1..]);
      assert sorted[0] !in Place(e, sorted[1..]);
    }
  }

  method SortedEdges(edges: set<Relationship>) returns (list: seq<Relationship>)
    ensures Distinct(list) && forall e :: e in list <==> e in edges
  {
    list := [];
    var rest := edges;
    while rest != {}
      invariant rest <= edges && Distinct(list)
      invariant forall e :: e in list <==> e in edges && e !in rest
      decreases rest
    {
      var e :| e in rest;
      PlaceKeepsDistinct(e, list);
      list := Place(e, list);
      rest := rest - {e};
    }
  }

  predicate UniqueIds(requirements: seq<Requirement>) {
    forall i, j | 0 <= i < j < |requirements| :: requirements[i].id != requirements[j].id
  }

  /** Each requirement has at most one operation in the change set. */
  predicate OneEach(operations: seq<Operation>) {
    forall i, j | 0 <= i < j < |operations| :: operations[i].requirementId != operations[j].requirementId
  }

  /** An operation under which a requirement may be revised. */
  predicate Revisable(operations: seq<Operation>, id: string) {
    forall o | o in operations && o.requirementId == id :: o.action in {"add", "revise"}
  }

  predicate HasOperation(operations: seq<Operation>, id: string) {
    exists o | o in operations :: o.requirementId == id
  }

  /** A requirement, the edges of its change dealt with. */
  function Synced(r: Requirement, edges: seq<Relationship>, source: string, after: set<Relationship>, valid: string -> bool): (s: Requirement) {
    if r.id == source || !valid(r.id) then r else r.(relationships := Dealt(r.relationships, edges, r.id, source, after))
  }

  class Draft {
    var requirements: seq<Requirement>
    var operations: seq<Operation>

    method FindRequirement(id: string) returns (index: nat, found: bool)
      ensures found ==> index < |requirements| && requirements[index].id == id
      ensures !found ==> forall i | 0 <= i < |requirements| :: requirements[i].id != id
    {
      for i := 0 to |requirements|
        invariant forall k | 0 <= k < i :: requirements[k].id != id
      {
        if requirements[i].id == id {
          return i, true;
        }
      }
      index, found := 0, false;
    }

    /** Enters a revision in the change set, unless the requirement is already in it to be
        retired. */
    method Revise(id: string) returns (ok: bool)
      requires OneEach(operations)
      modifies this`operations
      ensures OneEach(operations) && ok == Revisable(old(operations), id)
      ensures operations ==
              if !ok || HasOperation(old(operations), id) then old(operations) else old(operations) + [Operation("revise", id)]
    {
      for i := 0 to |operations|
        invariant operations == old(operations)
        invariant forall k | 0 <= k < i :: operations[k].requirementId != id
      {
        if operations[i].requirementId == id {
          assert operations[i] in operations;
          ok := operations[i].action == "add" || operations[i].action == "revise";
          assert forall o | o in operations && o.requirementId == id :: o == operations[i];
          return;
        }
      }
      operations := operations + [Operation("revise", id)];
      ok := true;
    }

    /** One edge: the inverse on its target, and the target's place in the change set. */
    method DealWith(e: Relationship, source: string, wanted: bool, valid: string -> bool) returns (index: nat, modified: bool, ok: bool)
      requires UniqueIds(requirements) && OneEach(operations)
      modifies this
      ensures OneEach(operations)
      ensures requirements == Stepped(old(requirements), e, source, wanted, valid)
      ensures modified ==>
                && index < |requirements| && requirements[index] != old(requirements)[index] && requirements[index].id == e.target
                && (forall k | 0 <= k < |requirements| && k != index :: requirements[k] == old(requirements)[k])
                && ok == Revisable(old(operations), e.target)
                && operations == if !ok || HasOperation(old(operations), e.target) then old(operations)
                                 else old(operations) + [Operation("revise", e.target)]
      ensures !modified ==> requirements == old(requirements) && operations == old(operations) && ok
    {
      hide Revisable, HasOperation, OneEach, Inverse;
      index, modified, ok := 0, false, true;
      if e.target != source && valid(e.target) {
        var at, found := FindRequirement(e.target);
        if found {
          var values, differs := InverseLoop(requirements[at].relationships, Relationship(e.kind, source), wanted);
          if differs {
            index, modified := at, true;
            requirements := requirements[at := requirements[at].(relationships := values)];
            ok := Revise(e.target);
          }
        }
      }
    }

    /** Deals with every symmetric edge the source requirement has or had. The requirements
        left behind, the indexes reported and the operations entered are exactly those the
        edges call for; it fails exactly if one to be changed is not open to revision. */
    method Synchronize(source: string, before: seq<Relationship>, after: seq<Relationship>, valid: string -> bool)
      returns (changed: seq<nat>, ok: bool, ghost edges: seq<Relationship>)
      requires UniqueIds(requirements) && OneEach(operations)
      modifies this
      ensures Distinct(edges) && forall e :: e in edges <==> e in Edges(before) + Edges(after)
      ensures ok <==> AllRevisable(old(requirements), old(operations), edges, source, Edges(after), valid)
      ensures ok ==>
                && |requirements| == |old(requirements)|
                && (forall k | 0 <= k < |requirements| ::
                      requirements[k] == Synced(old(requirements)[k], edges, source, Edges(after), valid))
                && Ascending(changed)
                && (forall k :: k in changed <==> 0 <= k < |requirements| && requirements[k] != old(requirements)[k])
                && OneEach(operations)
                && Entered(old(requirements), old(operations), operations, changed)
    {
      hide Synced, Stepped, Entered, Revisable, HasOperation, OneEach, UniqueIds;
      var beforeEdges := EdgesLoop(before);
      var afterEdges := EdgesLoop(after);
      var list := SortedEdges(beforeEdges + afterEdges);
      edges := list;
      ghost var was, entered := requirements, operations;
      changed := [];
      NoProgress(was, entered, list, source, afterEdges, valid);
      for i := 0 to |list|
        invariant UniqueIds(requirements) && OneEach(operations)
        invariant Progress(was, entered, requirements, operations, list, i, source, afterEdges, valid, changed)
      {
        ghost var now, ops := requirements, operations;
        var index, modified, revised := DealWith(list[i], source, list[i] in afterEdges, valid);
        SteppedIds(now, list[i], source, list[i] in afterEdges, valid);
        if modified {
          OneStep(was, entered, now, requirements, ops, operations, list, i, source, afterEdges, valid, changed, index, revised);
          if !revised {
            return changed, false, list;
          }
          if index !in changed {
            changed := changed + [index];
          }
        } else {
          IdleStep(was, entered, now, ops, list, i, source, afterEdges, valid, changed);
        }
      }
      Finished(was, entered, requirements, operations, list, source, afterEdges, valid, changed);
      changed := SortIndexes(changed);
      SameIndexes(was, entered, operations);
      ok := true;
    }
  }

  function Stepped(requirements: seq<Requirement>, e: Relationship, source: string, wanted: bool, valid: string -> bool): (r: seq<Requirement>)
    ensures |r| == |requirements|
  {
    seq(|requirements|, k requires 0 <= k < |requirements| => StepOne(requirements[k], e, source, wanted, valid))
  }

  function StepOne(r: Requirement, e: Relationship, source: string, wanted: bool, valid: string -> bool): (s: Requirement)
    ensures s.id == r.id
  {
    if e.target != r.id || r.id == source || !valid(r.id) then r
    else r.(relationships := Inverse(r.relationships, Relationship(e.kind, source), wanted))
  }

  lemma SteppedIds(requirements: seq<Requirement>, e: Relationship, source: string, wanted: bool, valid: string -> bool)
    requires UniqueIds(requirements)
    ensures UniqueIds(Stepped(requirements, e, source, wanted, valid))
  {
  }

  ghost predicate AllRevisable(
    was: seq<Requirement>, operations: seq<Operation>, edges: seq<Relationship>, source: string, after: set<Relationship>, valid: string -> bool
  ) {
    forall k | 0 <= k < |was| && Synced(was[k], edges, source, after, valid) != was[k] :: Revisable(operations, was[k].id)
  }

  /** The first `i` edges are dealt with. */
  ghost predicate Progress(
    was: seq<Requirement>, entered: seq<Operation>, now: seq<Requirement>, ops: seq<Operation>, list: seq<Relationship>, i: nat,
    source: string, after: set<Relationship>, valid: string -> bool, changed: seq<nat>
  )
    requires i <= |list|
  {
    && |now| == |was|
    && (forall k | 0 <= k < |was| :: now[k] == Synced(was[k], list[..i], source, after, valid))
    && (forall k :: k in changed <==> 0 <= k < |was| && now[k] != was[k])
    && Distinct(changed)
    && Entered(was, entered, ops, changed)
    && (forall k | k in changed && k < |was| :: Revisable(entered, was[k].id))
  }

  lemma NoProgress(
    was: seq<Requirement>, entered: seq<Operation>, list: seq<Relationship>, source: string, after: set<Relationship>, valid: string -> bool
  )
    ensures Progress(was, entered, was, entered, list, 0, source, after, valid, [])
  {
    assert list[..0] == [];
  }

  /** An edge that changed a requirement. */
  lemma OneStep(
    was: seq<Requirement>, entered: seq<Operation>, now: seq<Requirement>, next: seq<Requirement>, ops: seq<Operation>, opsAfter: seq<Operation>,
    list: seq<Relationship>, i: nat, source: string, after: set<Relationship>, valid: string -> bool, changed: seq<nat>, index: nat, ok: bool
  )
    requires i < |list| && Distinct(list)
    requires Progress(was, entered, now, ops, list, i, source, after, valid, changed)
    requires next == Stepped(now, list[i], source, list[i] in after, valid)
    requires index < |next| && next[index] != now[index] && next[index].id == list[i].target
    requires forall k | 0 <= k < |next| && k != index :: next[k] == now[k]
    requires ok == Revisable(ops, list[i].target)
    requires opsAfter == if !ok || HasOperation(ops, list[i].target) then ops else ops + [Operation("revise", list[i].target)]
    ensures ok ==> Progress(was, entered, next, opsAfter, list, i + 1, source, after, valid, if index in changed then changed else changed + [index])
    ensures !ok ==> !AllRevisable(was, entered, list, source, after, valid)
  {
    hide Entered, Revisable, HasOperation, Stepped, Synced, AllRevisable;
    AllStepped(was, now, next, list, i, source, after, valid);
    StepStands(was[index], now[index], next[index], list, i, source, after, valid) by {
      assert next[index] == StepOne(now[index], list[i], source, list[i] in after, valid) by {
        SteppedAt(now, list[i], source, list[i] in after, valid, index);
      }
    }
    NewlyEntered(was, entered, ops, opsAfter, changed, index, ok);
    if !ok {
      NotRevisable(was, entered, list, source, after, valid, index);
    }
  }

  lemma NotRevisable(
    was: seq<Requirement>, operations: seq<Operation>, edges: seq<Relationship>, source: string, after: set<Relationship>,
    valid: string -> bool, k: nat
  )
    requires k < |was| && Synced(was[k], edges, source, after, valid) != was[k] && !Revisable(operations, was[k].id)
    ensures !AllRevisable(was, operations, edges, source, after, valid)
  {
  }

  lemma SteppedAt(requirements: seq<Requirement>, e: Relationship, source: string, wanted: bool, valid: string -> bool, k: nat)
    requires k < |requirements|
    ensures Stepped(requirements, e, source, wanted, valid)[k] == StepOne(requirements[k], e, source, wanted, valid)
  {
  }

  lemma AllStepped(
    was: seq<Requirement>, now: seq<Requirement>, next: seq<Requirement>, list: seq<Relationship>, i: nat,
    source: string, after: set<Relationship>, valid: string -> bool
  )
    requires i < |list| && |now| == |was|
    requires forall k | 0 <= k < |was| :: now[k] == Synced(was[k], list[..i], source, after, valid)
    requires next == Stepped(now, list[i], source, list[i] in after, valid)
    ensures forall k | 0 <= k < |was| :: next[k] == Synced(was[k], list[..i + 1], source, after, valid)
  {
    hide Synced, Stepped;
    forall k | 0 <= k < |was|
      ensures next[k] == Synced(was[k], list[..i + 1], source, after, valid)
    {
      SteppedAt(now, list[i], source, list[i] in after, valid, k);
      SyncedStep(was[k], list, i, source, after, valid);
      SameId(was[k], list[..i], source, after, valid);
    }
  }

  lemma StepStands(
    r: Requirement, now: Requirement, next: Requirement, list: seq<Relationship>, i: nat, source: string, after: set<Relationship>,
    valid: string -> bool
  )
    requires i < |list| && Distinct(list)
    requires now == Synced(r, list[..i], source, after, valid)
    requires next == StepOne(now, list[i], source, list[i] in after, valid) && next != now
    ensures r.id == list[i].target
    ensures Synced(r, list, source, after, valid) != r && next != r
  {
    SameId(r, list[..i], source, after, valid);
    SyncedStep(r, list, i, source, after, valid);
    hide Dealt;
    ChangeStands(r, list, i, source, after, valid);
  }

  lemma SameId(r: Requirement, edges: seq<Relationship>, source: string, after: set<Relationship>, valid: string -> bool)
    ensures Synced(r, edges, source, after, valid).id == r.id
  {
  }

  /** An edge that found everything as it should be. */
  lemma IdleStep(
    was: seq<Requirement>, entered: seq<Operation>, now: seq<Requirement>, ops: seq<Operation>,
    list: seq<Relationship>, i: nat, source: string, after: set<Relationship>, valid: string -> bool, changed: seq<nat>
  )
    requires i < |list|
    requires Progress(was, entered, now, ops, list, i, source, after, valid, changed)
    requires now == Stepped(now, list[i], source, list[i] in after, valid)
    ensures Progress(was, entered, now, ops, list, i + 1, source, after, valid, changed)
  {
    AllStepped(was, now, now, list, i, source, after, valid);
    hide Entered, Revisable, HasOperation, Synced;
  }

  lemma Finished(
    was: seq<Requirement>, entered: seq<Operation>, now: seq<Requirement>, ops: seq<Operation>, list: seq<Relationship>,
    source: string, after: set<Relationship>, valid: string -> bool, changed: seq<nat>
  )
    requires Progress(was, entered, now, ops, list, |list|, source, after, valid, changed)
    ensures |now| == |was| && (forall k | 0 <= k < |was| :: now[k] == Synced(was[k], list, source, after, valid))
    ensures (forall k :: k in changed <==> 0 <= k < |was| && now[k] != was[k]) && Distinct(changed)
    ensures Entered(was, entered, ops, changed) && AllRevisable(was, entered, list, source, after, valid)
  {
    assert list[..|list|] == list;
    hide Entered, Revisable, HasOperation, Synced;
  }

  /** The order of the indexes does not matter. */
  lemma SameIndexes(was: seq<Requirement>, before: seq<Operation>, after: seq<Operation>)
    ensures forall a: seq<nat>, b: seq<nat> | Entered(was, before, after, a) && (forall k: nat :: k in b <==> k in a) :: Entered(was, before, after, b)
  {
    hide Revisable, HasOperation;
  }

  /** What entering the changed requirements does to a change set: each has an operation it
      may be revised under, and only their revisions were added. */
  ghost predicate Entered(was: seq<Requirement>, before: seq<Operation>, after: seq<Operation>, changed: seq<nat>) {
    && (forall k | k in changed :: k < |was| && HasOperation(after, was[k].id) && Revisable(after, was[k].id))
    && before <= after
    && forall o | o in after && o !in before :: o.action == "revise" && exists k | k in changed :: k < |was| && o.requirementId == was[k].id
  }

  lemma NewlyEntered(
    was: seq<Requirement>, entered: seq<Operation>, before: seq<Operation>, after: seq<Operation>, changed: seq<nat>, index: nat, ok: bool
  )
    requires index < |was| && Entered(was, entered, before, changed)
    requires ok == Revisable(before, was[index].id)
    requires after == if !ok || HasOperation(before, was[index].id) then before else before + [Operation("revise", was[index].id)]
    ensures ok <==> Revisable(entered, was[index].id)
    ensures ok ==> Entered(was, entered, after, changed + [index])
    ensures ok && index in changed ==> Entered(was, entered, after, changed)
  {
    var id := was[index].id;
    forall o | o in before && o.requirementId == id && o.action !in {"add", "revise"}
      ensures o in entered
    {
    }
    if ok {
      forall k | k in changed + [index]
        ensures HasOperation(after, was[k].id) && Revisable(after, was[k].id)
      {
        if k in changed {
          var o :| o in before && o.requirementId == was[k].id;
          assert o in after;
        }
        if !HasOperation(before, id) {
          assert after[|before|] == Operation("revise", id) && after[|before|] in after;
        }
        assert forall o | o in after :: o in before || o == Operation("revise", id);
      }
      forall o | o in after && o !in entered
        ensures o.action == "revise" && exists k | k in changed + [index] :: k < |was| && o.requirementId == was[k].id
      {
        if o in before {
          var k :| k in changed && k < |was| && o.requirementId == was[k].id;
          assert k in changed + [index];
        } else {
          assert index in changed + [index];
        }
      }
    }
  }

  lemma SyncedStep(r: Requirement, list: seq<Relationship>, i: nat, source: string, after: set<Relationship>, valid: string -> bool)
    requires i < |list|
    ensures Synced(r, list[..i + 1], source, after, valid) == StepOne(Synced(r, list[..i], source, after, valid), list[i], source, list[i] in after, valid)
  {
    assert list[..i + 1][..i] == list[..i];
  }

  /** A change made on the way is there at the end: no later edge takes it back. */
  lemma ChangeStands(r: Requirement, list: seq<Relationship>, i: nat, source: string, after: set<Relationship>, valid: string -> bool)
    requires i < |list| && Distinct(list) && list[i].target == r.id && r.id != source && valid(r.id)
    requires (Relationship(list[i].kind, source) in Synced(r, list[..i], source, after, valid).relationships) != (list[i] in after)
    ensures Synced(r, list, source, after, valid) != r
    ensures Synced(r, list[..i + 1], source, after, valid) != r
  {
    var back := Relationship(list[i].kind, source);
    DealtMembers(r.relationships, list[..i], r.id, source, after, back);
    DealtMembers(r.relationships, list[..i + 1], r.id, source, after, back);
    DealtMembers(r.relationships, list, r.id, source, after, back);
    assert list[i] !in list[..i] && list[i] in list[..i + 1];
  }

  predicate Ascending(values: seq<nat>) {
    forall i, j | 0 <= i < j < |values| :: values[i] < values[j]
  }

  function PlaceIndex(n: nat, sorted: seq<nat>): (r: seq<nat>)
    requires Ascending(sorted) && n !in sorted
    ensures Ascending(r) && forall v :: v in r <==> v == n || v in sorted
  {
    if sorted == [] || n < sorted[0] then [n] + sorted
    else
      var rest := PlaceIndex(n, sorted[1..]);
      assert sorted == [sorted[0]] + sorted[1..];
      assert forall j | 0 <= j < |rest| :: rest[j] in rest;
      [sorted[0]] + rest
  }

  method SortIndexes(values: seq<nat>) returns (sorted: seq<nat>)
    requires Distinct(values)
    ensures Ascending(sorted) && forall v :: v in sorted <==> v in values
  {
    sorted := [];
    for i := 0 to |values|
      invariant Ascending(sorted) && forall v :: v in sorted <==> v in values[..i]
    {
      assert values[..i + 1] == values[..i] + [values[i]];
      sorted := PlaceIndex(values[i], sorted);
    }
    assert values[..|values|] == values;
  }

  // ----- mutuality -----

  predicate Names(a: Requirement, kind: string, b: Requirement) {
    Relationship(kind, b.id) in a.relationships
  }

  ghost predicate MutualPair(a: Requirement, b: Requirement) {
    forall kind | IsSymmetric(kind) :: Names(a, kind, b) <==> Names(b, kind, a)
  }

  /** Symmetric relationships between existing requirements go both ways. */
  ghost predicate Mutual(requirements: seq<Requirement>) {
    forall i, j | 0 <= i < |requirements| && 0 <= j < |requirements| :: MutualPair(requirements[i], requirements[j])
  }

  function AllSynced(
    requirements: seq<Requirement>, edges: seq<Relationship>, source: string, after: set<Relationship>, valid: string -> bool
  ): (r: seq<Requirement>)
    ensures |r| == |requirements| && forall k | 0 <= k < |r| :: r[k] == Synced(requirements[k], edges, source, after, valid)
  {
    seq(|requirements|, k requires 0 <= k < |requirements| => Synced(requirements[k], edges, source, after, valid))
  }

  /** Every requirement that names the source is one the source names or named. */
  ghost predicate NoStray(requirements: seq<Requirement>, s: nat, before: seq<Relationship>, after: seq<Relationship>)
    requires s < |requirements|
  {
    forall i, kind | 0 <= i < |requirements| && i != s && IsSymmetric(kind) && Names(requirements[i], kind, requirements[s]) ::
      Relationship(kind, requirements[i].id) in before || Relationship(kind, requirements[i].id) in after
  }

  /** The edges of a change to the requirement at `s`, already stored in its new form. */
  ghost predicate Change(
    requirements: seq<Requirement>, s: nat, edges: seq<Relationship>, before: seq<Relationship>, after: seq<Relationship>, valid: string -> bool
  ) {
    && s < |requirements| && requirements[s].relationships == after
    && UniqueIds(requirements) && (forall k | 0 <= k < |requirements| :: valid(requirements[k].id))
    && (forall e :: e in edges <==> e in Edges(before) + Edges(after))
  }

  /** Synchronizing makes the relation to the source mutual, exactly where nothing strays. */
  lemma WithSource(
    requirements: seq<Requirement>, s: nat, edges: seq<Relationship>, before: seq<Relationship>, after: seq<Relationship>,
    valid: string -> bool, i: nat
  )
    requires Change(requirements, s, edges, before, after, valid) && i < |requirements| && i != s
    ensures var source := requirements[s].id;
            var a, b := Synced(requirements[i], edges, source, Edges(after), valid), Synced(requirements[s], edges, source, Edges(after), valid);
            MutualPair(a, b) <==>
              forall kind | IsSymmetric(kind) && Names(requirements[i], kind, requirements[s]) ::
                Relationship(kind, requirements[i].id) in before || Relationship(kind, requirements[i].id) in after
  {
    var r, source := requirements[i], requirements[s].id;
    assert r.id != source;
    var a, b := Synced(r, edges, source, Edges(after), valid), requirements[s];
    forall kind | IsSymmetric(kind)
      ensures Names(a, kind, b) <==>
              if Relationship(kind, r.id) in before || Relationship(kind, r.id) in after then Relationship(kind, r.id) in after
              else Names(r, kind, b)
    {
      DealtMembers(r.relationships, edges, r.id, source, Edges(after), Relationship(kind, source));
    }
    assert forall kind :: Names(b, kind, a) <==> Relationship(kind, r.id) in after;
    hide Synced, Edges;
    if forall kind | IsSymmetric(kind) && Names(r, kind, b) :: Relationship(kind, r.id) in before || Relationship(kind, r.id) in after {
      assert MutualPair(a, b);
    } else {
      var kind :| IsSymmetric(kind) && Names(r, kind, b) && !(Relationship(kind, r.id) in before || Relationship(kind, r.id) in after);
      assert Names(a, kind, b) && !Names(b, kind, a);
    }
  }

  /** Nothing between two other requirements changes. */
  lemma Elsewhere(
    requirements: seq<Requirement>, s: nat, edges: seq<Relationship>, before: seq<Relationship>, after: seq<Relationship>,
    valid: string -> bool, i: nat, j: nat
  )
    requires Change(requirements, s, edges, before, after, valid) && i < |requirements| && j < |requirements| && i != s && j != s
    ensures var source := requirements[s].id;
            var a, b := Synced(requirements[i], edges, source, Edges(after), valid), Synced(requirements[j], edges, source, Edges(after), valid);
            MutualPair(a, b) <==> MutualPair(requirements[i], requirements[j])
  {
    var source := requirements[s].id;
    var x, y := requirements[i], requirements[j];
    assert x.id != source && y.id != source;
    var a, b := Synced(x, edges, source, Edges(after), valid), Synced(y, edges, source, Edges(after), valid);
    forall kind
      ensures Names(a, kind, b) <==> Names(x, kind, y)
      ensures Names(b, kind, a) <==> Names(y, kind, x)
    {
      DealtMembers(x.relationships, edges, x.id, source, Edges(after), Relationship(kind, y.id));
      DealtMembers(y.relationships, edges, y.id, source, Edges(after), Relationship(kind, x.id));
    }
    hide Synced;
  }

  ghost predicate MutualApart(requirements: seq<Requirement>, s: nat) {
    forall i, j | 0 <= i < |requirements| && 0 <= j < |requirements| && i != s && j != s :: MutualPair(requirements[i], requirements[j])
  }

  /** If the other requirements are mutual among themselves, the whole store is mutual after
      the change exactly if no requirement names the source that the source neither names nor
      named. */
  lemma SynchronizedIsMutual(
    requirements: seq<Requirement>, s: nat, edges: seq<Relationship>, before: seq<Relationship>, after: seq<Relationship>,
    valid: string -> bool
  )
    requires Change(requirements, s, edges, before, after, valid) && MutualApart(requirements, s)
    ensures Mutual(AllSynced(requirements, edges, requirements[s].id, Edges(after), valid)) <==> NoStray(requirements, s, before, after)
  {
    var out := AllSynced(requirements, edges, requirements[s].id, Edges(after), valid);
    hide Synced, AllSynced, Edges, MutualPair, IsSymmetric, Names;
    forall i: nat | i < |out| && i != s
      ensures MutualPair(out[i], out[s]) <==>
              forall kind | IsSymmetric(kind) && Names(requirements[i], kind, requirements[s]) ::
                Relationship(kind, requirements[i].id) in before || Relationship(kind, requirements[i].id) in after
    {
      WithSource(requirements, s, edges, before, after, valid, i);
    }
    if NoStray(requirements, s, before, after) {
      forall i: nat, j: nat | i < |out| && j < |out|
        ensures MutualPair(out[i], out[j])
      {
        PairFlips(out[i], out[j]);
        if i != s && j != s {
          Elsewhere(requirements, s, edges, before, after, valid, i, j);
        }
      }
    }
  }

  lemma PairFlips(a: Requirement, b: Requirement)
    ensures MutualPair(a, b) <==> MutualPair(b, a)
    ensures a == b ==> MutualPair(a, b)
  {
  }

  /** An update of a requirement of a mutual store leaves a mutual store. */
  lemma UpdateKeepsMutual(
    requirements: seq<Requirement>, s: nat, after: seq<Relationship>, rest: string, edges: seq<Relationship>, valid: string -> bool
  )
    requires Mutual(requirements) && s < |requirements|
    requires var staged := requirements[s := Requirement(requirements[s].id, after, rest)];
             Change(staged, s, edges, requirements[s].relationships, after, valid)
    ensures var staged := requirements[s := Requirement(requirements[s].id, after, rest)];
            Mutual(AllSynced(staged, edges, requirements[s].id, Edges(after), valid))
  {
    var staged := requirements[s := Requirement(requirements[s].id, after, rest)];
    hide Synced, AllSynced, Edges;
    forall i, kind | 0 <= i < |staged| && i != s && IsSymmetric(kind) && Names(staged[i], kind, staged[s])
      ensures Relationship(kind, staged[i].id) in requirements[s].relationships
    {
      assert MutualPair(requirements[i], requirements[s]);
      assert Names(requirements[s], kind, requirements[i]);
    }
    SynchronizedIsMutual(staged, s, edges, requirements[s].relationships, after, valid);
  }

  /** A requirement added to a mutual store leaves it mutual exactly if every requirement that
      already names it is named by it. */
  lemma AddKeepsMutual(requirements: seq<Requirement>, added: Requirement, edges: seq<Relationship>, valid: string -> bool)
    requires Mutual(requirements)
    requires Change(requirements + [added], |requirements|, edges, [], added.relationships, valid)
    ensures Mutual(AllSynced(requirements + [added], edges, added.id, Edges(added.relationships), valid)) <==>
            forall i, kind | 0 <= i < |requirements| && IsSymmetric(kind) && Names(requirements[i], kind, added) :: Names(added, kind, requirements[i])
  {
    var staged, s := requirements + [added], |requirements|;
    assert forall i | 0 <= i < s :: staged[i] == requirements[i];
    hide Synced, AllSynced, Edges;
    assert MutualApart(staged, s);
    SynchronizedIsMutual(staged, s, edges, [], added.relationships, valid);
    hide Mutual;
    assert NoStray(staged, s, [], added.relationships) <==>
        forall i, kind | 0 <= i < s && IsSymmetric(kind) && Names(requirements[i], kind, added) :: Names(added, kind, requirements[i]);
  }

  // ----- the validation of the staged store -----

  predicate IsUpper(c: char) {
    'A' <= c <= 'Z'
  }

  predicate IsDigit(c: char) {
    '0' <= c <= '9'
  }

  /** `REQ-`, a capital, then capitals, digits and dashes, a dash, and five digits. */
  predicate IsRequirementId(id: string) {
    && |id| >= 11 && id[..4] == "REQ-" && IsUpper(id[4])
    && (forall i | 5 <= i < |id| - 6 :: IsUpper(id[i]) || IsDigit(id[i]) || id[i] == '-')
    && id[|id| - 6] == '-'
    && (forall i | |id| - 5 <= i < |id| :: IsDigit(id[i]))
  }

  datatype Finding = NotRegistered | SelfReference | NotSymmetric

  predicate IsRegistered(requirements: seq<Requirement>, id: string) {
    exists k | 0 <= k < |requirements| :: requirements[k].id == id
  }

  /** What the validation finds wrong with the relationship `e` of `r`, first reason first. */
  ghost predicate Finds(requirements: seq<Requirement>, r: Requirement, e: Relationship, finding: Finding) {
    match finding
    case NotRegistered => !IsRegistered(requirements, e.target)
    case SelfReference => IsRegistered(requirements, e.target) && e.target == r.id
    case NotSymmetric =>
      && IsRegistered(requirements, e.target) && e.target != r.id && IsSymmetric(e.kind)
      && !exists k | 0 <= k < |requirements| :: requirements[k].id == e.target && Names(requirements[k], e.kind, r)
  }

  method HasRelationship(value: Requirement, kind: string, target: string) returns (found: bool)
    ensures found <==> Relationship(kind, target) in value.relationships
  {
    for i := 0 to |value.relationships|
      invariant Relationship(kind, target) !in value.relationships[..i]
    {
      if value.relationships[i].kind == kind && value.relationships[i].target == target {
        return true;
      }
    }
    found := false;
  }

  /** The finding on one relationship; `registered` is the index of requirements by id. */
  method ValidateEdge(requirements: seq<Requirement>, registered: map<string, Requirement>, r: Requirement, e: Relationship)
    returns (finding: Option<Finding>)
    requires UniqueIds(requirements) && IsIndex(requirements, registered)
    ensures forall f :: finding == Some(f) <==> Finds(requirements, r, e, f)
  {
    if e.target !in registered {
      return Some(NotRegistered);
    }
    if e.target == r.id {
      return Some(SelfReference);
    }
    var k: nat :| k < |requirements| && requirements[k] == registered[e.target];
    if IsSymmetric(e.kind) {
      var back := HasRelationship(registered[e.target], e.kind, r.id);
      if !back {
        return Some(NotSymmetric);
      }
      assert Names(requirements[k], e.kind, r);
    }
    finding := None;
  }

  ghost predicate IsIndex(requirements: seq<Requirement>, registered: map<string, Requirement>) {
    && (forall id | id in registered :: registered[id].id == id && registered[id] in requirements)
    && (forall k | 0 <= k < |requirements| :: requirements[k].id in registered)
  }

  /** Whether the staged store has a relationship that only one side declares. */
  method FindAsymmetry(requirements: seq<Requirement>) returns (found: bool)
    requires UniqueIds(requirements)
    ensures found <==> !Mutual(requirements)
  {
    var registered: map<string, Requirement> := map[];
    for i := 0 to |requirements|
      invariant forall id | id in registered :: registered[id].id == id && registered[id] in requirements
      invariant forall k | 0 <= k < i :: requirements[k].id in registered
    {
      registered := registered[requirements[i].id := requirements[i]];
    }
    found := false;
    for i := 0 to |requirements|
      invariant found <==> exists j, e | 0 <= j < i && e in requirements[j].relationships :: Finds(requirements, requirements[j], e, NotSymmetric)
    {
      var r := requirements[i];
      ghost var earlier := found;
      for k := 0 to |r.relationships|
        invariant found <==> earlier || exists e | e in r.relationships[..k] :: Finds(requirements, r, e, NotSymmetric)
      {
        hide Finds;
        var finding := ValidateEdge(requirements, registered, r, r.relationships[k]);
        assert r.relationships[..k + 1] == r.relationships[..k] + [r.relationships[k]];
        if finding == Some(NotSymmetric) {
          found := true;
        }
      }
      assert r.relationships[..|r.relationships|] == r.relationships;
    }
    AsymmetryIsFound(requirements);
  }

  /** The validation reports a relationship that is not symmetric exactly if the store is not
      mutual. */
  lemma AsymmetryIsFound(requirements: seq<Requirement>)
    requires UniqueIds(requirements)
    ensures (exists i, e | 0 <= i < |requirements| && e in requirements[i].relationships ::
               Finds(requirements, requirements[i], e, NotSymmetric)) <==> !Mutual(requirements)
  {
    if i, e :| 0 <= i < |requirements| && e in requirements[i].relationships && Finds(requirements, requirements[i], e, NotSymmetric) {
      var k: nat :| k < |requirements| && requirements[k].id == e.target;
      assert Names(requirements[i], e.kind, requirements[k]) && !Names(requirements[k], e.kind, requirements[i]);
      assert !MutualPair(requirements[i], requirements[k]);
    }
    if !Mutual(requirements) {
      var i, j :| 0 <= i < |requirements| && 0 <= j < |requirements| && !MutualPair(requirements[i], requirements[j]);
      var kind :| IsSymmetric(kind) && Names(requirements[i], kind, requirements[j]) != Names(requirements[j], kind, requirements[i]);
      if Names(requirements[i], kind, requirements[j]) {
        OneSided(requirements, i, j, kind);
      } else {
        OneSided(requirements, j, i, kind);
      }
    }
  }

  lemma OneSided(requirements: seq<Requirement>, i: nat, j: nat, kind: string)
    requires UniqueIds(requirements) && i < |requirements| && j < |requirements| && IsSymmetric(kind)
    requires Names(requirements[i], kind, requirements[j]) && !Names(requirements[j], kind, requirements[i])
    ensures Relationship(kind, requirements[j].id) in requirements[i].relationships
    ensures Finds(requirements, requirements[i], Relationship(kind, requirements[j].id), NotSymmetric)
  {
    assert requirements[j].id == Relationship(kind, requirements[j].id).target;
  }

  /** Every relationship goes to a registered requirement, as validation demands. */
  ghost predicate Closed(requirements: seq<Requirement>) {
    forall i, e | 0 <= i < |requirements| && e in requirements[i].relationships :: !Finds(requirements, requirements[i], e, NotRegistered)
  }

  /** Added to a store that validates, a new requirement always leaves a mutual store. */
  lemma AddToValidKeepsMutual(requirements: seq<Requirement>, added: Requirement, edges: seq<Relationship>, valid: string -> bool)
    requires Mutual(requirements) && Closed(requirements)
    requires Change(requirements + [added], |requirements|, edges, [], added.relationships, valid)
    ensures Mutual(AllSynced(requirements + [added], edges, added.id, Edges(added.relationships), valid))
  {
    var staged := requirements + [added];
    assert staged[|requirements|] == added && forall k | 0 <= k < |requirements| :: staged[k] == requirements[k];
    assert !IsRegistered(requirements, added.id) by {
      assert forall k | 0 <= k < |requirements| :: staged[k].id != staged[|requirements|].id;
    }
    forall i, kind | 0 <= i < |requirements|
      ensures !Names(requirements[i], kind, added)
    {
      var e := Relationship(kind, added.id);
      assert e in requirements[i].relationships ==> !Finds(requirements, requirements[i], e, NotRegistered);
    }
    hide Mutual, AllSynced, Closed;
    AddKeepsMutual(requirements, added, edges, valid);
  }

  /** The synchronization alone can leave a store that is not mutual: a requirement that
      already names the added one stays unanswered. The validation then finds it. */
  lemma AddCanBreakMutual()
    ensures IsRequirementId("REQ-A-00001") && IsRequirementId("REQ-B-00001")
    ensures var store := [Requirement("REQ-A-00001", [Relationship("related-to", "REQ-B-00001")], "")];
            var added := Requirement("REQ-B-00001", [], "");
            var out := AllSynced(store + [added], [], added.id, Edges(added.relationships), IsRequirementId);
            && Mutual(store) && !Closed(store) && !Mutual(out)
            && exists i, e | 0 <= i < |out| && e in out[i].relationships :: Finds(out, out[i], e, NotSymmetric)
  {
    var store := [Requirement("REQ-A-00001", [Relationship("related-to", "REQ-B-00001")], "")];
    var added := Requirement("REQ-B-00001", [], "");
    var kind := "related-to";
    RealIds();
    assert Mutual(store);
    assert store[0].relationships[0] == Relationship(kind, added.id);
    assert Finds(store, store[0], Relationship(kind, added.id), NotRegistered);
    assert IsSymmetric(kind) && Names(store[0], kind, added) && !Names(added, kind, store[0]);
    hide IsRequirementId;
    AddKeepsMutual(store, added, [], IsRequirementId);
    var out := AllSynced(store + [added], [], added.id, Edges(added.relationships), IsRequirementId);
    assert UniqueIds(out);
    hide Mutual, AllSynced, Finds;
    AsymmetryIsFound(out);
  }

  lemma RealIds()
    ensures IsRequirementId("REQ-A-00001") && IsRequirementId("REQ-B-00001")
  {
    var a, b := "REQ-A-00001", "REQ-B-00001";
    assert a[..4] == "REQ-" && b[..4] == "REQ-";
  }

  /** In every requirement, what does not go to the source keeps its content and order. */
  lemma OnlyTheSourceSide(r: Requirement, edges: seq<Relationship>, source: string, after: set<Relationship>, valid: string -> bool)
    requires forall e | e in edges :: IsSymmetric(e.kind)
    ensures var s := Synced(r, edges, source, after, valid);
            && s.id == r.id && s.rest == r.rest
            && ToOthers(s.relationships, source) == ToOthers(r.relationships, source)
  {
    DealtKeepsOthers(r.relationships, edges, r.id, source, after);
  }
}
