/** What the lifecycle commands of the GitHub backend leave in the durable store: the document a
    materialization creates and the one a claim rewrites, field by field. */
module GitHubWrites {
  import opened Records
  import opened Authorization
  import opened Evaluator
  import opened EvaluatorRules
  import opened MemoryStore
  import opened MemoryItems
  import opened GitHubStore

  /** A dependency as the durable store shows it. */
  ghost predicate Shows(issues: Issues, projectId: string, d: Dependency) {
    || (exists n | n in issues :: IsItem(issues[n], projectId, d.id) && d.state == issues[n].item.state)
    || ((forall n | n in issues :: !IsItem(issues[n], projectId, d.id)) && d.state == Initial)
  }

  lemma Shown(issues: Issues, projectId: string, id: string, n: nat)
    requires n in issues && IsItem(issues[n], projectId, id)
    ensures Shows(issues, projectId, Dependency(id, issues[n].item.state))
  {
  }

  lemma ShownMissing(issues: Issues, projectId: string, id: string)
    requires forall n | n in issues :: !IsItem(issues[n], projectId, id)
    ensures Shows(issues, projectId, Dependency(id, Initial))
  {
  }

  /** Exactly the dependencies `named`, in their order, each as the durable store shows it. */
  ghost predicate Observes(issues: Issues, projectId: string, named: seq<Dependency>, seen: Option<seq<Dependency>>) {
    && seen.Some? && |seen.value| == |named|
    && forall i | 0 <= i < |named| :: seen.value[i].id == named[i].id && Shows(issues, projectId, seen.value[i])
  }

  /** The dependencies looked up for a request: those the source of a materialization names. */
  ghost predicate LookedUp(issues: Issues, projectId: string, request: Request, seen: Option<seq<Dependency>>) {
    if request.operation == Materialize && request.payload.workItem.Some?
    then Observes(issues, projectId, request.payload.workItem.value.dependencies, seen)
    else seen.None?
  }

  /** The dependencies a request is decided on: those of the record a materialization would
      repeat, if there is one already. */
  ghost predicate SeenFor(issues: Issues, projectId: string, request: Request, current: Option<WorkItem>, seen: Option<seq<Dependency>>) {
    if request.operation == Materialize && current.Some? then Observes(issues, projectId, current.value.dependencies, seen)
    else LookedUp(issues, projectId, request, seen)
  }

  /** A completed work item. */
  ghost predicate HasCompleted(issues: Issues, projectId: string, id: string) {
    exists n | n in issues :: IsItem(issues[n], projectId, id) && issues[n].item.state == Completed
  }

  function SourceFor(request: Request): (source: WorkItem)
    requires request.payload.workItem.Some?
  {
    SourceOf(CanonicalSource(request.payload.workItem.value, request.payload.changeType))
  }

  function ItemDocAfter(prior: Doc, item: WorkItem, claim: Option<ClaimRecord>, requestId: RequestId, changeSetId: string): (doc: Doc)
    requires prior.ItemDoc?
  {
    prior.(
      item := item,
      key := item.materializationKey,
      requestId := if requestId != 0 then requestId else prior.requestId,
      changeSetId := if changeSetId != "" then changeSetId else prior.changeSetId,
      priority := item.priority,
      lastClaim := if claim.Some? then claim else prior.lastClaim)
  }

  /** A moment, with nothing shown. */
  function At(now: Time): (e: EvaluationContext) {
    EvaluationContext(Authoritative, now, 1, map[], map[], None, None, None)
  }

  // ----- what is written -----

  /** The record a materialization starts: its source's contract, its dependencies exactly those
      named, each as its own issue shows it, and ready only if each has a completed issue. */
  ghost predicate NewRecord(issues: Issues, projectId: string, request: Request, item: WorkItem)
    requires request.payload.workItem.Some?
  {
    var source := request.payload.workItem.value;
    && StartsAs(request, item.state, item)
    && (forall d | d in item.dependencies :: Shows(issues, projectId, d))
    && item.state == (if !Unblocked(source.readiness) then Blocked
                      else if exists d | d in item.dependencies :: d.state != Completed then Waiting
                      else ReadyForBuilding)
    && (item.state == ReadyForBuilding ==> forall d | d in source.dependencies :: HasCompleted(issues, projectId, d.id))
  }

  /** The document of a materialization that may be made: a reservation of the key if no
      implementation is required, and the new record under the key otherwise. */
  ghost predicate NewDoc(issues: Issues, projectId: string, now: Time, request: Request, doc: Doc) {
    && MayMaterialize(request, None, At(now))
    && if !request.payload.workItem.value.implementationRequired
       then doc == OmittedDoc(projectId, request.materializationKey, SourceFor(request))
       else
         && doc.ItemDoc? && doc == ItemDoc(projectId, doc.item, request.materializationKey, SourceFor(request), 0, "", "", None)
         && NewRecord(issues, projectId, request, doc.item)
  }

  /** The claim of a record: its lease runs from now for as long as leases do, and is the
      caller's; nothing else of the record or its document changes. */
  ghost predicate ClaimedDoc(cfg: Config, now: Time, request: Request, prior: Doc, doc: Doc) {
    && IsItem(prior, cfg.projectId, request.workItemId) && doc.ItemDoc? && doc.lastClaim.Some?
    && Admitted(request, prior.item, At(now)) && Evidence(request, prior.item, At(now))
    && var subject, token := request.authorization.subject, doc.lastClaim.value.token;
       && token != NO_TOKEN
       && doc == prior.(
            item := prior.item.(
              state := Building, version := prior.item.version + 1, reconciliation := Reconciliation("", "", None),
              owner := subject, lease := Some(Lease(subject, token, now + cfg.leaseDuration))),
            priority := prior.item.priority,
            lastClaim := Some(ClaimRecord(Claim, request.idempotencyKey, FingerprintOf(request), token)))
  }

  /** The one write of a lifecycle command. */
  ghost predicate Wrote(before: Issues, after: Issues, cfg: Config, now: Time, request: Request, n: nat) {
    && n in after && after == before[n := after[n]]
    && if request.operation == Materialize then n !in before && NewDoc(before, cfg.projectId, now, request, after[n])
       else request.operation == Claim && n in before && ClaimedDoc(cfg, now, request, before[n], after[n])
  }

  /** The answer of what holds a materialization key: its work item, or that it was omitted. */
  predicate Names(result: Result, doc: Doc)
    requires !doc.RequestDoc?
  {
    && result.ok && result.error.None?
    && if doc.ItemDoc? then result.workItemId == doc.item.id else result.submission == "omitted"
  }

  /** The answer is the record as written. */
  predicate ReportsDoc(result: Result, doc: Doc) {
    && !doc.RequestDoc?
    && (doc.ItemDoc? ==>
          && result.item == Some(doc.item) && result.workItemId == doc.item.id && result.workItemState == doc.item.state
          && result.contractVersion == doc.item.version)
    && (doc.OmittedDoc? ==> result.submission == "omitted")
  }

  /** A lifecycle command writes its own document or nothing, and an applied one has written it
      and answers with it. */
  ghost predicate Written(before: Issues, after: Issues, cfg: Config, now: Time, request: Request, result: Result) {
    && (after == before || exists n :: Wrote(before, after, cfg, now, request, n))
    && (result.mutation == MutationApplied ==> exists n :: Wrote(before, after, cfg, now, request, n) && ReportsDoc(result, after[n]))
  }

  /** What the evaluator allowed, on the record and dependencies the durable store shows. */
  ghost predicate Granted(
    issues: Issues, projectId: string, request: Request, current: Option<WorkItem>, decision: Decision, evaluation: EvaluationContext
  ) {
    && request.projectId == projectId && evaluation.authority == Authoritative && evaluation.nextToken != NO_TOKEN
    && decision == Evaluate(request, current, evaluation) && decision.outcome != Rejected
    && SeenFor(issues, projectId, request, current, evaluation.refreshDependencies)
  }

  lemma SameNeeds(request: Request, current: Option<WorkItem>, evaluation: EvaluationContext)
    ensures MayMaterialize(request, current, evaluation) <==> MayMaterialize(request, current, At(evaluation.time))
  {
    hide MaySend, CanonicalSource, ContractReady;
  }

  /** A materialization that was allowed or omitted makes its document. */
  lemma GrantedNew(issues: Issues, projectId: string, request: Request, decision: Decision, evaluation: EvaluationContext)
    requires request.operation == Materialize && Granted(issues, projectId, request, None, decision, evaluation)
    ensures request.payload.workItem.Some?
    ensures decision.outcome == Omitted ==>
              NewDoc(issues, projectId, evaluation.time, request, OmittedDoc(projectId, request.materializationKey, SourceFor(request)))
    ensures decision.outcome == Allowed ==>
              && decision.after.Some?
              && NewDoc(issues, projectId, evaluation.time, request,
                        ItemDoc(projectId, NewItem(request, decision.after.value, evaluation), request.materializationKey,
                                SourceFor(request), 0, "", "", None))
  {
    hide Evaluate, MayMaterialize, MaterializedState, NewItem, NewRecord, SourceOf;
    MaterializedExactly(request, None, evaluation);
    SameNeeds(request, None, evaluation);
    NeedsItem(request, evaluation);
    if decision.outcome == Allowed {
      NewIsRecord(issues, projectId, request, decision.after.value, evaluation);
    }
  }

  lemma NeedsItem(request: Request, evaluation: EvaluationContext)
    requires MayMaterialize(request, None, evaluation)
    ensures request.payload.workItem.Some?
  {
  }

  lemma NewIsRecord(issues: Issues, projectId: string, request: Request, after: StateVersion, evaluation: EvaluationContext)
    requires request.payload.workItem.Some? && after == StateVersion(MaterializedState(request, evaluation), 1)
    requires Observes(issues, projectId, request.payload.workItem.value.dependencies, evaluation.refreshDependencies)
    ensures NewRecord(issues, projectId, request, NewItem(request, after, evaluation))
  {
    hide NewItem, StartsAs, Unblocked, Shows, HasCompleted;
    NewItemStarts(request, after, evaluation);
    var item, source := NewItem(request, after, evaluation), request.payload.workItem.value;
    StartsIn(request, after.state, item);
    var seen := evaluation.refreshDependencies.value;
    assert item.dependencies == seen;
    if item.state == ReadyForBuilding {
      forall d | d in source.dependencies
        ensures HasCompleted(issues, projectId, d.id)
      {
        var i :| 0 <= i < |source.dependencies| && source.dependencies[i] == d;
        assert seen[i] in seen;
        CompletedIsShown(issues, projectId, seen[i]);
      }
    }
  }

  lemma StartsIn(request: Request, to: State, item: WorkItem)
    requires request.payload.workItem.Some? && StartsAs(request, to, item)
    ensures item.state == to
  {
  }

  lemma CompletedIsShown(issues: Issues, projectId: string, d: Dependency)
    requires Shows(issues, projectId, d) && d.state == Completed
    ensures HasCompleted(issues, projectId, d.id)
  {
  }

  /** A claim that was allowed makes its document. */
  lemma GrantedClaim(
    issues: Issues, cfg: Config, request: Request, prior: Doc, decision: Decision, evaluation: EvaluationContext, updated: WorkItem,
    claim: ClaimRecord
  )
    requires request.operation == Claim && IsItem(prior, cfg.projectId, request.workItemId) && DocOk(prior)
    requires Granted(issues, cfg.projectId, request, Some(prior.item), decision, evaluation)
    requires decision.after.Some? && decision.tokenIssued != NO_TOKEN
    requires updated == prior.item.(
               state := decision.after.value.state, version := decision.after.value.version, reconciliation := NO_RECONCILIATION,
               owner := request.authorization.subject,
               lease := Some(Lease(request.authorization.subject, decision.tokenIssued, evaluation.time + cfg.leaseDuration)))
    requires claim == ClaimRecord(request.operation, request.idempotencyKey, FingerprintOf(request), decision.tokenIssued)
    ensures ClaimedDoc(cfg, evaluation.time, request, prior, ItemDocAfter(prior, updated, Some(claim), 0, ""))
  {
    hide Evaluate, Admitted, Evidence, FingerprintOf;
    AllowedExactly(request, prior.item, evaluation);
    SameAdmission(request, prior.item, evaluation);
  }

  lemma SameAdmission(request: Request, item: WorkItem, evaluation: EvaluationContext)
    requires request.operation == Claim
    ensures Admitted(request, item, evaluation) <==> Admitted(request, item, At(evaluation.time))
    ensures Evidence(request, item, evaluation) <==> Evidence(request, item, At(evaluation.time))
    ensures Destination(request, item, evaluation) == Building
  {
    hide MaySend, ReadyToBuild, LegalIn;
  }

  // ----- from a write to what was written -----

  lemma NothingWritten(issues: Issues, cfg: Config, now: Time, request: Request, result: Result)
    requires result.mutation != MutationApplied
    ensures Written(issues, issues, cfg, now, request, result)
  {
  }

  lemma NewWritten(
    before: Issues, after: Issues, cfg: Config, now: Time, request: Request, doc: Doc, made: bool, result: Result
  )
    requires request.operation == Materialize && NewDoc(before, cfg.projectId, now, request, doc)
    requires if made then exists n: nat :: n !in before && after == before[n := doc] else after == before
    requires result.mutation == MutationApplied ==> made && ReportsDoc(result, doc)
    ensures Written(before, after, cfg, now, request, result)
  {
    hide NewDoc, ReportsDoc;
    if made {
      var n: nat :| n !in before && after == before[n := doc];
      assert Wrote(before, after, cfg, now, request, n);
    }
  }

  lemma ClaimWritten(
    before: Issues, after: Issues, cfg: Config, now: Time, request: Request, n: nat, doc: Doc, result: Result
  )
    requires request.operation == Claim && n in before && ClaimedDoc(cfg, now, request, before[n], doc)
    requires after == before || after == before[n := doc]
    requires result.mutation == MutationApplied ==> after == before[n := doc] && ReportsDoc(result, doc)
    ensures Written(before, after, cfg, now, request, result)
  {
    hide ClaimedDoc, ReportsDoc;
    if after == before[n := doc] {
      assert Wrote(before, after, cfg, now, request, n);
    }
  }

  /** The new document is the only one that holds its key. */
  lemma SoleBinding(before: Issues, after: Issues, doc: Doc, key: string, result: Result)
    requires forall n | n in before :: !BindsKey(before[n], doc.projectId, key)
    requires exists n: nat :: n !in before && after == before[n := doc]
    requires exists n | n in after :: BindsKey(after[n], doc.projectId, key) && ReportsDoc(result, after[n])
    ensures ReportsDoc(result, doc)
  {
    hide ReportsDoc;
  }

  // ----- tokens -----

  /** Every claim was there already, or is under the token just issued, if one was. */
  ghost predicate NewClaims(before: Issues, after: Issues, token: Token) {
    forall n | n in after && after[n].ItemDoc? && after[n].lastClaim.Some? ::
      || (n in before && before[n].ItemDoc? && before[n].lastClaim == after[n].lastClaim)
      || (token != NO_TOKEN && after[n].lastClaim.value.token == token)
  }

  /** At most one token is issued, the next, and it is the token of any claim made. */
  ghost predicate Fenced(before: Issues, after: Issues, from: nat, to: nat) {
    from <= to <= from + 1 && NewClaims(before, after, if to == from then NO_TOKEN else to)
  }

  lemma NoneIssued(issues: Issues, n: nat)
    ensures Fenced(issues, issues, n, n)
  {
  }

  lemma NewUnclaimed(before: Issues, after: Issues, cfg: Config, now: Time, request: Request, result: Result)
    requires request.operation == Materialize && Written(before, after, cfg, now, request, result)
    ensures NewClaims(before, after, NO_TOKEN)
  {
    hide NewRecord, MayMaterialize, ReportsDoc;
  }

  lemma ClaimedUnder(before: Issues, after: Issues, n: nat, doc: Doc, claim: ClaimRecord)
    requires n in before && doc.ItemDoc? && doc.lastClaim == Some(claim) && claim.token != NO_TOKEN
    requires after == before || after == before[n := doc]
    ensures NewClaims(before, after, claim.token)
  {
  }

  lemma FencedBy(before: Issues, after: Issues, from: nat, token: Token)
    requires NewClaims(before, after, token) && (token == NO_TOKEN || token == from + 1)
    ensures Fenced(before, after, from, if token == NO_TOKEN then from else from + 1)
  {
    hide NewClaims;
  }

  lemma Issued(request: Request, current: Option<WorkItem>, evaluation: EvaluationContext)
    ensures Evaluate(request, current, evaluation).tokenIssued in {NO_TOKEN, evaluation.nextToken}
  {
    hide Evaluator.Gate, EvaluateTransition, EvaluateMaterialization, MutationPreconditions, LegalFrom, IssuesToken;
    NoneIssuedAtGate(request, current, evaluation);
  }

  lemma NoneIssuedAtGate(request: Request, current: Option<WorkItem>, evaluation: EvaluationContext)
    ensures var d := Evaluator.Gate(request, current, evaluation); d.Some? ==> d.value.tokenIssued == NO_TOKEN
  {
    hide AuthorizeRequest, KnownLifecycleOperation;
  }
}
