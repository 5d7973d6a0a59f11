/** The semantic index of the request backlog. */
module MemoryBacklog {
  import opened Records
  import opened Authorization
  import opened MemoryStore
  import opened MemoryRequests
  import Text

  /** The index is exactly the inverse of "canonical key of each stored request". */
  ghost predicate SemanticInv(cfg: Config, st: Store) {
    && (forall id | id in st.requests ::
          && st.requests[id].id == id
          && 1 <= id <= st.nextRequestId
          && KeyOf(cfg, st.requests[id]) in st.semanticRequests
          && st.semanticRequests[KeyOf(cfg, st.requests[id])] == id)
    && (forall key | key in st.semanticRequests ::
          && st.semanticRequests[key] in st.requests
          && KeyOf(cfg, st.requests[st.semanticRequests[key]]) == key)
  }

  /** So the index lookup is a full scan, and no two stored requests are the same request. */
  lemma IndexIsScan(cfg: Config, st: Store, key: SemanticKey)
    requires SemanticInv(cfg, st)
    ensures key in st.semanticRequests <==> exists id | id in st.requests :: KeyOf(cfg, st.requests[id]) == key
    ensures forall a, b | a in st.requests && b in st.requests :: KeyOf(cfg, st.requests[a]) == KeyOf(cfg, st.requests[b]) ==> a == b
  {
    hide KeyOf;
    if key in st.semanticRequests {
      assert KeyOf(cfg, st.requests[st.semanticRequests[key]]) == key;
    }
  }

  /** The stored form of a request has the key of the form it was submitted in. */
  lemma StoredKey(cfg: Config, intent: string, interfaces: seq<string>, scopes: seq<string>)
    ensures SemanticKeyOf(cfg, Text.Trim(intent), Text.SortedUnique(interfaces), Text.SortedUnique(scopes))
         == SemanticKeyOf(cfg, intent, interfaces, scopes)
  {
    Text.TrimIdempotent(intent);
    Text.SortedUniqueIdempotent(interfaces);
    Text.SortedUniqueIdempotent(scopes);
  }

  lemma CreateKeepsIndex(cfg: Config, st: Store, call: Call, auth: AuthorizationContext)
    requires SemanticInv(cfg, st)
    ensures SemanticInv(cfg, CreateRequest(cfg, st, call, auth).0)
  {
    hide Text.IsBlank, SemanticKeyOf, RequestApplied, Text.Trim, Text.SortedUnique, SemanticInv;
    var next := CreateRequest(cfg, st, call, auth).0;
    if next != st {
      var id := st.nextRequestId + 1;
      StoredKey(cfg, call.payload.intent, call.payload.interfaces, call.payload.scopes);
      AddKeeps(cfg, st, next, next.requests[id]);
    }
  }

  lemma AddKeeps(cfg: Config, st: Store, next: Store, stored: RequestRecord)
    requires SemanticInv(cfg, st)
    requires stored.id == st.nextRequestId + 1 == next.nextRequestId
    requires KeyOf(cfg, stored) !in st.semanticRequests
    requires next.requests == st.requests[stored.id := stored]
    requires next.semanticRequests == st.semanticRequests[KeyOf(cfg, stored) := stored.id]
    ensures SemanticInv(cfg, next)
  {
    hide KeyOf;
  }

  lemma RefineKeepsIndex(cfg: Config, st: Store, now: Time, call: Call, auth: AuthorizationContext)
    requires SemanticInv(cfg, st)
    ensures SemanticInv(cfg, RefineRequest(cfg, st, now, call, auth).0)
  {
    var next := RefineRequest(cfg, st, now, call, auth).0;
    hide Refined, ContentOf, RefinementFieldRejection, RelationshipsRejection, ValidateApproval, SemanticKeyOf, RequestApplied;
    if next != st {
      var request := st.requests[call.requestId];
      var refined := Refined(request, call.payload.refinement);
      assert KeyOf(cfg, refined.(revision := refined.revision + 1)) == KeyOf(cfg, refined);
      ReindexKeeps(cfg, st, next, refined.(revision := refined.revision + 1));
    }
  }

  lemma ReindexKeeps(cfg: Config, st: Store, next: Store, stored: RequestRecord)
    requires SemanticInv(cfg, st)
    requires stored.id in st.requests
    requires KeyOf(cfg, stored) in st.semanticRequests ==> st.semanticRequests[KeyOf(cfg, stored)] == stored.id
    requires next.requests == st.requests[stored.id := stored] && next.nextRequestId == st.nextRequestId
    requires next.semanticRequests == (st.semanticRequests - {KeyOf(cfg, st.requests[stored.id])})[KeyOf(cfg, stored) := stored.id]
    ensures SemanticInv(cfg, next)
  {
    hide KeyOf;
  }

  /** A step that leaves intents, interfaces and scopes alone leaves the index right. */
  lemma SameContentKeeps(cfg: Config, st: Store, next: Store)
    requires SemanticInv(cfg, st)
    requires next.requests.Keys == st.requests.Keys
    requires forall id | id in st.requests :: next.requests[id].id == st.requests[id].id
                                              && KeyOf(cfg, next.requests[id]) == KeyOf(cfg, st.requests[id])
    requires next.semanticRequests == st.semanticRequests && next.nextRequestId == st.nextRequestId
    ensures SemanticInv(cfg, next)
  {
    hide KeyOf;
  }

  /** A request replaced by one with the same content. */
  lemma RelinkKeeps(cfg: Config, st: Store, next: Store, call: Call, stored: RequestRecord)
    requires SemanticInv(cfg, st)
    requires call.requestId in st.requests
    requires var request := st.requests[call.requestId];
             && stored.id == request.id && stored.intent == request.intent
             && stored.interfaces == request.interfaces && stored.scopes == request.scopes
    requires next.requests == st.requests[stored.id := stored]
    requires next.semanticRequests == st.semanticRequests && next.nextRequestId == st.nextRequestId
    ensures SemanticInv(cfg, next)
  {
    hide SemanticKeyOf;
    SameContentKeeps(cfg, st, next);
  }

  lemma PriorityKeepsIndex(cfg: Config, st: Store, call: Call, auth: AuthorizationContext)
    requires SemanticInv(cfg, st)
    ensures SemanticInv(cfg, UpdatePriority(st, call, auth).0)
  {
    hide SemanticInv, RequestApplied, ValidPriority;
    var next := UpdatePriority(st, call, auth).0;
    if next != st {
      RelinkKeeps(cfg, st, next, call, st.requests[call.requestId].(
        businessPriority := call.payload.businessPriority, revision := st.requests[call.requestId].revision + 1));
    }
  }

  lemma LinksKeepIndex(cfg: Config, st: Store, call: Call, auth: AuthorizationContext)
    requires SemanticInv(cfg, st)
    ensures SemanticInv(cfg, LinkChangeSet(st, call, auth).0)
    ensures SemanticInv(cfg, LinkWorkItem(st, call, auth).0)
  {
    hide SemanticInv, RequestApplied;
    var next := LinkChangeSet(st, call, auth).0;
    if next != st {
      var request := st.requests[call.requestId];
      RelinkKeeps(cfg, st, next, call, request.(changeSetId := call.payload.changeSetId, revision := request.revision + 1));
    }
    next := LinkWorkItem(st, call, auth).0;
    if next != st {
      var request := st.requests[call.requestId];
      RelinkKeeps(cfg, st, next, call, request.(buildWorkItemId := call.payload.buildWorkItemId, revision := request.revision + 1));
    }
  }
}
