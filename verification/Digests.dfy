/** What the digests tell apart: which calls count as the same, which sources, which content. */
module Digests {
  import opened Records
  import opened MemoryRequests

  /** The same lists up to order, and everything else the same but for the expiry. */
  predicate SameAuthority(a: AuthorizationContext, b: AuthorizationContext) {
    && a.subject == b.subject && a.role == b.role && a.projectId == b.projectId && a.workItemId == b.workItemId
    && a.changeSetId == b.changeSetId && a.policyVersion == b.policyVersion
    && multiset(a.allowedActions) == multiset(b.allowedActions) && multiset(a.allowedRefs) == multiset(b.allowedRefs)
  }

  /** Two lifecycle requests are the same command: they differ in their key at most, in the
      expiry of the authorization, and in the order of lists. */
  lemma CommandsTold(a: Request, b: Request)
    ensures FingerprintOf(a) == FingerprintOf(b) <==>
            && a.operation == b.operation && a.projectId == b.projectId && a.workItemId == b.workItemId
            && a.materializationKey == b.materializationKey
            && a.expectedState == b.expectedState && a.expectedVersion == b.expectedVersion && a.fencingToken == b.fencingToken
            && a.payload == b.payload && SameAuthority(a.authorization, b.authorization)
            && multiset(a.references) == multiset(b.references)
  {
    var x, y := a.authorization, b.authorization;
    if SameAuthority(x, y) {
      assert x.(expiresAt := 0, allowedActions := [], allowedRefs := []) == y.(expiresAt := 0, allowedActions := [], allowedRefs := []);
    }
  }

  /** ... and so for the calls of the request surface. */
  lemma CallsTold(a: Call, b: Call, x: AuthorizationContext, y: AuthorizationContext)
    ensures RequestFingerprintOf(a, x) == RequestFingerprintOf(b, y) <==>
            && a == b.(idempotencyKey := a.idempotencyKey) && SameAuthority(x, y)
  {
    if SameAuthority(x, y) {
      assert x.(expiresAt := 0, allowedActions := [], allowedRefs := []) == y.(expiresAt := 0, allowedActions := [], allowedRefs := []);
    }
  }

  function MergeTarget(item: WorkItem): (target: string) {
    if item.expectedMerge.Some? then item.expectedMerge.value.target else ""
  }

  /** Two work items are of the same source exactly if they agree in the contract: who they are,
      what change they make, whether it needs building, how ready it is, what it depends on, and
      where it merges to. */
  lemma SourcesTold(a: WorkItem, b: WorkItem)
    ensures SourceOf(a) == SourceOf(b) <==>
            && a.id == b.id && a.projectId == b.projectId && a.changeType == b.changeType
            && a.implementationRequired == b.implementationRequired && a.readiness == b.readiness
            && MergeTarget(a) == MergeTarget(b)
            && |a.dependencies| == |b.dependencies| && forall i | 0 <= i < |a.dependencies| :: a.dependencies[i].id == b.dependencies[i].id
  {
    var m, n := SourceOf(a).dependencies, SourceOf(b).dependencies;
    assert |m| == |a.dependencies| && |n| == |b.dependencies|;
    assert forall i | 0 <= i < |m| :: m[i].id == a.dependencies[i].id && m[i].state == NO_STATE;
    assert forall i | 0 <= i < |n| :: n[i].id == b.dependencies[i].id && n[i].state == NO_STATE;
    assert SourceOf(a).expectedMerge == SourceOf(b).expectedMerge <==> MergeTarget(a) == MergeTarget(b);
    if |a.dependencies| == |b.dependencies| && forall i | 0 <= i < |a.dependencies| :: a.dependencies[i].id == b.dependencies[i].id {
      assert m == n;
    }
  }

  /** An approval of content is one of all that a refinement can set, lists up to order. */
  lemma ContentTold(a: RequestRecord, b: RequestRecord)
    ensures ContentOf(a) == ContentOf(b) <==>
            && a.intent == b.intent && a.rationale == b.rationale && a.owner == b.owner
            && multiset(a.interfaces) == multiset(b.interfaces) && multiset(a.scopes) == multiset(b.scopes)
            && multiset(a.relationships) == multiset(b.relationships)
            && a.classification == b.classification && a.refinementState == b.refinementState
  {
  }
}
