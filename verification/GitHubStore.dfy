/** The durable side of the GitHub backend: the documents held by issues, the writes the
    adapter is entitled to make, and what holds over every log of such writes.

    A write takes effect or not whatever the caller is told about it, so the log, not the
    answers, is the history of the store. */
module GitHubStore {
  import opened Records

  /** The claim that took the lease of a work item. */
  datatype ClaimRecord = ClaimRecord(operation: Operation, key: string, fingerprint: Fingerprint, token: Token)

  /** What the fingerprint of a request call is taken of. */
  datatype CallFingerprint = CallFingerprint(
    operation: Operation,
    actor: string,
    role: Role,
    requestId: RequestId,
    workItemId: string,
    expectedRevision: Option<nat>,
    expectedState: State,
    expectedVersion: Option<nat>,
    humanApprovalId: string,
    materializationKey: string,
    payload: CallPayload)

  /** The last mutation of a request, with what its caller was to be told. */
  datatype MutationRecord = MutationRecord(
    operation: Operation,
    key: string,
    fingerprint: CallFingerprint,
    approvalStatus: ApprovalStatus,
    changeSetPriority: string,
    workItemPriority: string)

  datatype Doc =
    | ItemDoc(projectId: string, item: WorkItem, key: string, source: WorkItem, requestId: RequestId, changeSetId: string,
              priority: string, lastClaim: Option<ClaimRecord>)
    | OmittedDoc(projectId: string, key: string, source: WorkItem)
    | RequestDoc(projectId: string, request: RequestRecord, createKey: string, createFingerprint: CallFingerprint,
                 consumed: seq<string>, lastMutation: Option<MutationRecord>)

  type Issues = map<nat, Doc>

  /** The project and request a trusted approval id is bound to. */
  type Gate = string -> (string, RequestId)

  predicate BindsKey(doc: Doc, projectId: string, key: string) {
    !doc.RequestDoc? && doc.projectId == projectId && doc.key == key
  }

  predicate IsItem(doc: Doc, projectId: string, id: string) {
    doc.ItemDoc? && doc.projectId == projectId && doc.item.id == id
  }

  predicate IsRequest(doc: Doc, projectId: string, id: RequestId) {
    doc.RequestDoc? && doc.projectId == projectId && doc.request.id == id
  }

  predicate CreatedUnder(doc: Doc, projectId: string, key: string) {
    doc.RequestDoc? && doc.projectId == projectId && doc.createKey == key
  }

  // ----- the writes -----

  predicate Unclaimed(item: WorkItem) {
    item.lease.None? && item.state in {Waiting, ReadyForBuilding, Blocked}
  }

  predicate ClaimedBy(item: WorkItem, claim: ClaimRecord) {
    && item.state == Building
    && item.lease.Some?
    && item.lease.value.token == claim.token != NO_TOKEN
    && item.owner == item.lease.value.owner
  }

  predicate DocOk(doc: Doc) {
    match doc
    case ItemDoc(projectId, item, key, _, _, _, _, lastClaim) =>
      && key != "" && item.id != "" && item.materializationKey == key && item.projectId == projectId
      && if lastClaim.None? then Unclaimed(item) else ClaimedBy(item, lastClaim.value)
    case OmittedDoc(_, key, _) => key != ""
    case RequestDoc(_, request, createKey, _, _, lastMutation) =>
      && request.id != 0 && createKey != ""
      && (lastMutation.Some? ==>
            && lastMutation.value.fingerprint.expectedRevision.Some?
            && request.revision == lastMutation.value.fingerprint.expectedRevision.value + 1)
  }

  /** A new document: well formed, untouched, and the first under each of its names. */
  predicate MayCreate(issues: Issues, doc: Doc) {
    && DocOk(doc)
    && (doc.ItemDoc? ==> doc.lastClaim.None?)
    && (doc.RequestDoc? ==> doc.request.revision == 1 && doc.consumed == [] && doc.lastMutation.None?)
    && forall n | n in issues ::
         match doc
         case ItemDoc(projectId, item, key, _, _, _, _, _) =>
           !BindsKey(issues[n], projectId, key) && !IsItem(issues[n], projectId, item.id)
         case OmittedDoc(projectId, key, _) => !BindsKey(issues[n], projectId, key)
         case RequestDoc(projectId, request, createKey, _, _, _) =>
           !IsRequest(issues[n], projectId, request.id) && !CreatedUnder(issues[n], projectId, createKey)
  }

  predicate IsClaim(a: Doc, b: Doc) {
    a.ItemDoc? && b.ItemDoc? && a.lastClaim != b.lastClaim
  }

  /** A work item keeps its names and its source; a write either claims an unclaimed ready
      item, lease and claim record together, or leaves all but its priority and links. */
  predicate MayUpdateItem(a: Doc, b: Doc) {
    && a.ItemDoc? && b.ItemDoc?
    && b.projectId == a.projectId && b.key == a.key && b.source == a.source
    && b.item.id == a.item.id && b.item.projectId == a.item.projectId && b.item.materializationKey == a.item.materializationKey
    && if IsClaim(a, b) then
         && a.lastClaim.None? && a.item.state == ReadyForBuilding
         && b.lastClaim.Some? && ClaimedBy(b.item, b.lastClaim.value)
         && b.item.version == a.item.version + 1
       else
         b.item == a.item.(priority := b.item.priority)
  }

  /** The approval a refinement spends. */
  predicate Spends(a: Doc, b: Doc, approvalId: string)
    requires a.RequestDoc? && b.RequestDoc?
  {
    b.consumed == a.consumed + [approvalId] && approvalId !in a.consumed
  }

  /** A request moves one revision at a time, each recorded as the effect of the call that
      expected the revision before it; a refinement spends, in the same write, an approval
      the Gate bound to this request. */
  predicate MayUpdateRequest(gate: Gate, a: Doc, b: Doc) {
    && a.RequestDoc? && b.RequestDoc?
    && b.projectId == a.projectId && b.createKey == a.createKey && b.createFingerprint == a.createFingerprint
    && b.request.id == a.request.id
    && b.request.revision == a.request.revision + 1
    && b.lastMutation.Some?
    && b.lastMutation.value.operation == b.lastMutation.value.fingerprint.operation
    && b.lastMutation.value.fingerprint.requestId == a.request.id
    && b.lastMutation.value.fingerprint.expectedRevision == Some(a.request.revision)
    && if b.lastMutation.value.operation == RequestRefine then
         && |b.consumed| == |a.consumed| + 1
         && Spends(a, b, b.consumed[|a.consumed|])
         && gate(b.consumed[|a.consumed|]) == (a.projectId, a.request.id)
       else b.consumed == a.consumed
  }

  datatype Write = Write(number: nat, doc: Doc)

  predicate MayWrite(gate: Gate, issues: Issues, w: Write) {
    if w.number in issues then MayUpdateItem(issues[w.number], w.doc) || MayUpdateRequest(gate, issues[w.number], w.doc)
    else MayCreate(issues, w.doc)
  }

  /** The store a log of writes leaves. */
  function After(log: seq<Write>): (issues: Issues) {
    if log == [] then map[]
    else
      var last := log[|log| - 1];
      After(log[..|log| - 1])[last.number := last.doc]
  }

  ghost predicate Entitled(gate: Gate, log: seq<Write>) {
    forall i | 0 <= i < |log| :: MayWrite(gate, After(log[..i]), log[i])
  }

  // ----- every log -----

  ghost predicate Sound(issues: Issues) {
    && (forall n | n in issues :: DocOk(issues[n]))
    && (forall m, n | m in issues && n in issues && m != n :: Apart(issues[m], issues[n]))
  }

  /** No name in common. */
  predicate Apart(a: Doc, b: Doc) {
    && (!a.RequestDoc? ==> !BindsKey(b, a.projectId, a.key))
    && (a.ItemDoc? ==> !IsItem(b, a.projectId, a.item.id))
    && (a.RequestDoc? ==> !IsRequest(b, a.projectId, a.request.id) && !CreatedUnder(b, a.projectId, a.createKey))
  }

  lemma WriteKeepsSound(gate: Gate, issues: Issues, w: Write)
    requires Sound(issues) && MayWrite(gate, issues, w)
    ensures Sound(issues[w.number := w.doc])
  {
    var next := issues[w.number := w.doc];
    assert DocOk(w.doc);
    forall n | n in issues && n != w.number
      ensures Apart(w.doc, issues[n]) && Apart(issues[n], w.doc)
    {
      if w.number in issues {
        SameNames(gate, issues[w.number], w.doc, issues[n]);
      }
    }
  }

  lemma SameNames(gate: Gate, a: Doc, b: Doc, c: Doc)
    requires MayUpdateItem(a, b) || MayUpdateRequest(gate, a, b)
    requires Apart(a, c) && Apart(c, a)
    ensures Apart(b, c) && Apart(c, b)
  {
  }

  lemma Extended(log: seq<Write>, i: nat)
    requires i < |log|
    ensures After(log[..i + 1]) == After(log[..i])[log[i].number := log[i].doc]
  {
    assert log[..i + 1][..i] == log[..i];
  }

  lemma {:induction false} EveryLogIsSound(gate: Gate, log: seq<Write>, i: nat)
    requires Entitled(gate, log) && i <= |log|
    ensures Sound(After(log[..i]))
  {
    if i == 0 {
      assert Sound(map[]);
    } else {
      hide Sound, MayWrite;
      EveryLogIsSound(gate, log, i - 1);
      Extended(log, i - 1);
      WriteKeepsSound(gate, After(log[..i - 1]), log[i - 1]);
    }
  }

  /** A document keeps its names; a work item its source and, once it has one, its claim; a
      request only gains revisions and spent approvals. */
  predicate DocEvolves(a: Doc, b: Doc) {
    && a.projectId == b.projectId
    && match a
       case ItemDoc(_, item, key, source, _, _, _, lastClaim) =>
         && b.ItemDoc? && b.key == key && b.source == source && b.item.id == item.id
         && item.version <= b.item.version
         && (lastClaim.Some? ==> b.lastClaim == lastClaim && b.item == item.(priority := b.item.priority))
       case OmittedDoc(_, key, source) => b == a
       case RequestDoc(_, request, createKey, createFingerprint, consumed, _) =>
         && b.RequestDoc? && b.request.id == request.id && b.createKey == createKey && b.createFingerprint == createFingerprint
         && consumed <= b.consumed
         && request.revision <= b.request.revision
         && (request.revision == b.request.revision ==> b == a)
  }

  ghost predicate Evolves(a: Issues, b: Issues) {
    forall n | n in a :: n in b && DocEvolves(a[n], b[n])
  }

  lemma WriteEvolves(gate: Gate, issues: Issues, w: Write)
    requires MayWrite(gate, issues, w)
    ensures Evolves(issues, issues[w.number := w.doc])
  {
  }

  lemma DocEvolvesTransitive(a: Doc, b: Doc, c: Doc)
    requires DocEvolves(a, b) && DocEvolves(b, c)
    ensures DocEvolves(a, c)
  {
  }

  lemma {:induction false} EveryLogEvolves(gate: Gate, log: seq<Write>, i: nat, j: nat)
    requires Entitled(gate, log) && i <= j <= |log|
    ensures Evolves(After(log[..i]), After(log[..j]))
  {
    hide MayWrite, DocEvolves;
    if i == j {
      SameEvolves(After(log[..i]));
    } else {
      EveryLogEvolves(gate, log, i, j - 1);
      Extended(log, j - 1);
      WriteEvolves(gate, After(log[..j - 1]), log[j - 1]);
      forall n | n in After(log[..i])
        ensures n in After(log[..j]) && DocEvolves(After(log[..i])[n], After(log[..j])[n])
      {
        DocEvolvesTransitive(After(log[..i])[n], After(log[..j - 1])[n], After(log[..j])[n]);
      }
    }
  }

  lemma SameEvolves(issues: Issues)
    ensures Evolves(issues, issues)
  {
  }

  // ----- the promises -----

  /** Over every run at most one issue, work item or omitted reservation, holds a
      materialization key, at most one a work-item id; and what a key is bound to is never
      rebound, to another issue or another source. */
  lemma OneBindingPerKey(gate: Gate, log: seq<Write>, i: nat, j: nat, m: nat, n: nat)
    requires Entitled(gate, log) && i <= j <= |log|
    requires m in After(log[..i]) && n in After(log[..j])
    requires var a, b := After(log[..i])[m], After(log[..j])[n];
             || (!a.RequestDoc? && BindsKey(b, a.projectId, a.key))
             || (a.ItemDoc? && IsItem(b, a.projectId, a.item.id))
    ensures m == n
    ensures After(log[..j])[n].source == After(log[..i])[m].source && After(log[..j])[n].key == After(log[..i])[m].key
    ensures After(log[..j])[n].ItemDoc? == After(log[..i])[m].ItemDoc?
  {
    hide After;
    EveryLogEvolves(gate, log, i, j);
    EveryLogIsSound(gate, log, j);
    assert m != n ==> Apart(After(log[..j])[m], After(log[..j])[n]);
  }

  /** No two request issues share a request id or a create key, at one moment or across
      moments. */
  lemma OneRequestPerName(gate: Gate, log: seq<Write>, i: nat, j: nat, m: nat, n: nat)
    requires Entitled(gate, log) && i <= j <= |log|
    requires m in After(log[..i]) && n in After(log[..j])
    requires var a, b := After(log[..i])[m], After(log[..j])[n];
             a.RequestDoc? && (IsRequest(b, a.projectId, a.request.id) || CreatedUnder(b, a.projectId, a.createKey))
    ensures m == n
  {
    hide After;
    EveryLogEvolves(gate, log, i, j);
    EveryLogIsSound(gate, log, j);
    assert m != n ==> Apart(After(log[..j])[m], After(log[..j])[n]);
  }

  /** The write at `i` claims. */
  ghost predicate ClaimsAt(log: seq<Write>, i: nat) {
    i < |log| && log[i].number in After(log[..i]) && IsClaim(After(log[..i])[log[i].number], log[i].doc)
  }

  /** Each work item is claimed at most once, over all its issues and all time. */
  lemma ClaimedOnce(gate: Gate, log: seq<Write>, i: nat, j: nat)
    requires Entitled(gate, log)
    requires ClaimsAt(log, i) && ClaimsAt(log, j) && i <= j
    requires log[i].doc.projectId == log[j].doc.projectId && log[i].doc.item.id == log[j].doc.item.id
    ensures i == j
  {
    hide After;
    assert MayWrite(gate, After(log[..j]), log[j]) && MayWrite(gate, After(log[..i]), log[i]);
    if i < j {
      Extended(log, i);
      OneBindingPerKey(gate, log, i + 1, j, log[i].number, log[j].number);
      EveryLogEvolves(gate, log, i + 1, j);
    }
  }

  /** The durable lease is always the one the claim record names, and stays. */
  lemma ClaimIsTheLease(gate: Gate, log: seq<Write>, i: nat, j: nat, n: nat)
    requires Entitled(gate, log) && i <= j <= |log|
    requires n in After(log[..i]) && After(log[..i])[n].ItemDoc?
    ensures n in After(log[..j]) && After(log[..j])[n].ItemDoc?
    ensures var a, b := After(log[..i])[n], After(log[..j])[n];
            && (b.item.lease.Some? <==> b.lastClaim.Some?)
            && (b.lastClaim.Some? ==> b.item.lease.value.token == b.lastClaim.value.token)
            && (a.lastClaim.Some? ==> b.lastClaim == a.lastClaim && b.item.lease == a.item.lease)
  {
    hide After;
    EveryLogEvolves(gate, log, i, j);
    EveryLogIsSound(gate, log, j);
    assert DocOk(After(log[..j])[n]);
  }

  /** The write at `i` gives a request a new revision. */
  ghost predicate BumpsAt(log: seq<Write>, i: nat) {
    i < |log| && log[i].number in After(log[..i]) && log[i].doc.RequestDoc?
  }

  /** Two writes to one request are the same write, or the later is at a later revision. */
  lemma RevisionsGrow(gate: Gate, log: seq<Write>, i: nat, j: nat)
    requires Entitled(gate, log) && i < j
    requires BumpsAt(log, i) && BumpsAt(log, j)
    requires log[i].doc.projectId == log[j].doc.projectId && log[i].doc.request.id == log[j].doc.request.id
    ensures log[i].number == log[j].number
    ensures log[i].doc.request.revision < log[j].doc.request.revision
    ensures log[i].doc.consumed <= After(log[..j])[log[j].number].consumed
  {
    hide After;
    assert MayWrite(gate, After(log[..j]), log[j]) && MayWrite(gate, After(log[..i]), log[i]);
    Extended(log, i);
    OneRequestPerName(gate, log, i + 1, j, log[i].number, log[j].number);
    EveryLogEvolves(gate, log, i + 1, j);
    assert DocEvolves(log[i].doc, After(log[..j])[log[j].number]);
  }

  /** The same call bumps a request at most once, however often it is retried. */
  lemma SameCallBumpsOnce(gate: Gate, log: seq<Write>, i: nat, j: nat)
    requires Entitled(gate, log)
    requires BumpsAt(log, i) && BumpsAt(log, j) && i <= j
    requires log[i].doc.lastMutation.Some? && log[j].doc.lastMutation.Some?
    requires log[i].doc.projectId == log[j].doc.projectId
    requires log[i].doc.lastMutation.value.fingerprint == log[j].doc.lastMutation.value.fingerprint
    ensures i == j
  {
    hide After;
    assert MayWrite(gate, After(log[..j]), log[j]) && MayWrite(gate, After(log[..i]), log[i]);
    if i < j {
      RevisionsGrow(gate, log, i, j);
    }
  }

  /** The write at `i` is a refinement that spends `approvalId`. */
  ghost predicate RefinesAt(log: seq<Write>, i: nat, approvalId: string) {
    && BumpsAt(log, i)
    && log[i].doc.lastMutation.Some? && log[i].doc.lastMutation.value.operation == RequestRefine
    && log[i].doc.consumed != [] && log[i].doc.consumed[|log[i].doc.consumed| - 1] == approvalId
  }

  /** One approval authorizes at most one durable refinement, on any request, in any project. */
  lemma OneRefinementPerApproval(gate: Gate, log: seq<Write>, i: nat, j: nat, approvalId: string)
    requires Entitled(gate, log)
    requires RefinesAt(log, i, approvalId) && RefinesAt(log, j, approvalId) && i <= j
    ensures i == j
  {
    hide After;
    assert MayWrite(gate, After(log[..j]), log[j]) && MayWrite(gate, After(log[..i]), log[i]);
    assert gate(approvalId) == (log[i].doc.projectId, log[i].doc.request.id);
    assert gate(approvalId) == (log[j].doc.projectId, log[j].doc.request.id);
    assert approvalId in log[i].doc.consumed && approvalId !in After(log[..j])[log[j].number].consumed;
    if i < j {
      RevisionsGrow(gate, log, i, j);
    }
  }
}
