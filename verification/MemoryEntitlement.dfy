/** When a request operation is applied: the tables of the request surface, in both directions,
    by role, field and approval. They name none of the store's own checks. */
module MemoryEntitlement {
  import opened Records
  import opened Authorization
  import opened Evaluator
  import opened MemoryStore
  import opened MemoryRequests
  import opened MemoryReplay
  import opened MemoryEffects
  import Text

  // ----- who may call what -----

  /** The roles an operation of the surface is open to. */
  function CallersOf(operation: Operation): (roles: set<Role>) {
    match operation
    case RequestUpdatePriority => {HumanMaintainer}
    case RequestLinkChangeSet => {DraftingTable, HumanMaintainer}
    case RequestCreate => {DraftingTable}
    case RequestRefine => {DraftingTable}
    case RequestLinkBuildWorkItem => {DraftingTable}
    case RequestGet => {DraftingTable}
    case RequestQuery => {DraftingTable}
    case WorkItemGet => {DraftingTable}
    case WorkItemQuery => {DraftingTable}
    case BlockedWorkQuery => {DraftingTable}
    case BlockedWorkSubmitResolution => {DraftingTable}
    case BlockedWorkAcknowledge => {DraftingTable}
    case LifecyclePreflight => {DraftingTable}
    case FindingCreate => {JobSite}
    case Claim => {JobSite}
    case RenewLease => {JobSite}
    case TestsPass => {JobSite}
    case RaiseSpecQuestion => {JobSite}
    case RefreshActive => {JobSite}
    case ReturnToBuilding => {JobSite}
    case BeginMerge => {JobSite}
    case MergeConflict => {JobSite, Reconciler}
    case RecordMerge => {JobSite, Reconciler}
    case MergeNotApplied => {Reconciler}
    case RecoverLease => {Reconciler}
    case Materialize => {Materializer}
    case RefreshDependencies => {Materializer}
    case Revalidate => {Materializer}
    case ResolveBlock => {Materializer}
    case _ => {}
  }

  lemma CallersExactly(role: Role, operation: Operation)
    ensures RoleHasWmsOperation(role, operation) <==> role in CallersOf(operation)
  {
  }

  /** A caller may use the surface while its context lasts, in its project, for the record it is
      bound to, if it is bound to any, and to no change set, with the action and the project
      granted by name. */
  ghost predicate MayCall(cfg: Config, call: Call, auth: AuthorizationContext, now: Time) {
    && now != 0 && now < auth.expiresAt && auth.expiresAt != 0
    && auth.subject != "" && auth.policyVersion != ""
    && auth.projectId == cfg.projectId != ""
    && (auth.workItemId == "" || auth.workItemId == call.workItemId) && auth.changeSetId == ""
    && (forall action | action in auth.allowedActions :: !IsWildcardAction(action))
    && (forall ref | ref in auth.allowedRefs :: !IsWildcard(ref))
    && call.operation in auth.allowedActions && "project:" + cfg.projectId in auth.allowedRefs
    && auth.role in CallersOf(call.operation) && !auth.role.OtherRole?
    && (call.policyVersion == "" || call.policyVersion == auth.policyVersion)
  }

  lemma CallersMayExactly(cfg: Config, call: Call, auth: AuthorizationContext, now: Time)
    requires IsRequestMutation(call.operation)
    ensures Passes(cfg, call, auth, now) <==> MayCall(cfg, call, auth, now) && call.idempotencyKey != ""
  {
    hide IsWildcard, RoleHasWmsOperation, CallersOf;
    CallersExactly(auth.role, call.operation);
  }

  // ----- what each operation needs -----

  predicate HasText(s: string) {
    exists c | c in s :: !Text.IsSpace(c)
  }

  /** An approval that is not spent and still lasts, given to this principal for this action in
      this project, under this policy. */
  predicate GivenTo(approval: Approval, principal: string, action: Operation, cfg: Config, auth: AuthorizationContext, now: Time) {
    && approval.status == Unused && approval.expiresAt != 0 && now < approval.expiresAt
    && approval.approvedSubject != "" && approval.delegatedPrincipal == principal != ""
    && approval.action == action && approval.projectId == cfg.projectId && approval.policyVersion == auth.policyVersion
  }

  /** ... for a blocked record at this state and version, and no request. */
  predicate GivenForBlock(approval: Approval, call: Call, changeSetId: string, kind: string, digest: string) {
    && approval.workItemId == call.workItemId && approval.requestId == 0
    && approval.changeSetId == changeSetId && approval.resolutionKind == kind && approval.digest == ResolutionDigest(digest)
    && approval.expectedState == call.expectedState && approval.expectedVersion == call.expectedVersion
  }

  /** ... for the content of a request, and nothing else. */
  predicate GivenForContent(approval: Approval, requestId: RequestId, content: Digest) {
    && approval.requestId == requestId && approval.digest == content != NO_DIGEST
    && approval.workItemId == "" && approval.changeSetId == "" && approval.resolutionKind == ""
    && approval.expectedState == NO_STATE && approval.expectedVersion.None?
  }

  predicate BlockedAt(st: Store, call: Call) {
    && call.workItemId in st.workItems && st.workItems[call.workItemId].state == Blocked == call.expectedState
    && call.expectedVersion == Some(st.workItems[call.workItemId].version)
  }

  predicate AtRevision(st: Store, call: Call) {
    call.requestId in st.requests && call.expectedRequestRevision == Some(st.requests[call.requestId].revision)
  }

  /** Each relationship is of a known kind, to another stored request, and not repeated. */
  predicate Relatable(relationships: seq<Relationship>, requests: map<RequestId, RequestRecord>, self: RequestId) {
    && (forall i | 0 <= i < |relationships| ::
          && relationships[i].kind in {"depends-on", "conflicts-with", "supersedes", "related-to"}
          && relationships[i].target != 0 && relationships[i].target != self && relationships[i].target in requests)
    && (forall i, j | 0 <= i < j < |relationships| :: relationships[i] != relationships[j])
  }

  /** ... one more of them. */
  predicate RelatableNext(earlier: seq<Relationship>, last: Relationship, requests: map<RequestId, RequestRecord>, self: RequestId) {
    && last.kind in {"depends-on", "conflicts-with", "supersedes", "related-to"}
    && last.target != 0 && last.target != self && last.target in requests && last !in earlier
  }

  lemma OneMore(earlier: seq<Relationship>, last: Relationship, requests: map<RequestId, RequestRecord>, self: RequestId)
    ensures Relatable(earlier + [last], requests, self) <==> Relatable(earlier, requests, self) && RelatableNext(earlier, last, requests, self)
  {
    var all := earlier + [last];
    assert forall i | 0 <= i < |earlier| :: all[i] == earlier[i];
    assert all[|earlier|] == last;
  }

  lemma NoneRelated(requests: map<RequestId, RequestRecord>, self: RequestId)
    ensures RelationshipsRejection([], requests, self).None? && Relatable([], requests, self)
  {
  }

  lemma NextExactly(relationships: seq<Relationship>, requests: map<RequestId, RequestRecord>, self: RequestId)
    requires relationships != []
    ensures var n := |relationships| - 1;
            RelationshipsRejection(relationships, requests, self).None? <==>
            && RelationshipsRejection(relationships[..n], requests, self).None?
            && RelatableNext(relationships[..n], relationships[n], requests, self)
  {
  }

  lemma {:induction false} RelatableExactly(relationships: seq<Relationship>, requests: map<RequestId, RequestRecord>, self: RequestId)
    ensures RelationshipsRejection(relationships, requests, self).None? <==> Relatable(relationships, requests, self)
  {
    hide RelationshipsRejection, Relatable, RelatableNext;
    if relationships == [] {
      NoneRelated(requests, self);
    } else {
      var earlier, last := relationships[..|relationships| - 1], relationships[|relationships| - 1];
      RelatableExactly(earlier, requests, self);
      NextExactly(relationships, requests, self);
      OneMore(earlier, last, requests, self);
      assert relationships == earlier + [last];
    }
  }

  predicate MayRefineTo(cfg: Config, st: Store, now: Time, call: Call, auth: AuthorizationContext) {
    && AtRevision(st, call) && call.payload.RefinePayload?
    && var p, was := call.payload.refinement, st.requests[call.requestId];
       var id, refined := if call.humanApprovalId != "" then call.humanApprovalId else p.humanApprovalId, Refined(was, p);
       && p.classification in {"", "undefined", "changes", "contradicts"}
       && p.refinementState in {"unrefined", "refining", "ready-for-dimensioning", "closed"}
       && (p.intent == "" || HasText(p.intent)) && (p.rationale == "" || HasText(p.rationale))
       && (p.relationships.Some? ==> Relatable(p.relationships.value, st.requests, was.id))
       && id in st.approvals && GivenTo(st.approvals[id], auth.subject, RequestRefine, cfg, auth, now)
       && GivenForContent(st.approvals[id], was.id, ContentOf(refined)) && p.approvalDigest == ContentOf(refined)
       && (KeyOf(cfg, refined) in st.semanticRequests ==> st.semanticRequests[KeyOf(cfg, refined)] == was.id)
  }

  predicate MaySubmit(cfg: Config, st: Store, now: Time, call: Call, auth: AuthorizationContext) {
    && BlockedAt(st, call) && call.payload.BlockedResolutionPayload?
    && var p, id := call.payload, call.humanApprovalId;
       && p.resolutionKind in {"add-requirement", "out-of-scope", "impact-amendment"}
       && (p.resolutionKind != "out-of-scope" ==> p.changeSetId in st.changeSets)
       && p.approvalDigest != "" && id != "" && id in st.approvals
       && GivenTo(st.approvals[id], cfg.materializerSubject, ResolveBlock, cfg, auth, now)
       && GivenForBlock(st.approvals[id], call, p.changeSetId, p.resolutionKind, p.approvalDigest)
  }

  predicate MayAcknowledge(cfg: Config, st: Store, now: Time, call: Call, auth: AuthorizationContext) {
    && BlockedAt(st, call) && call.payload.BlockedResolutionPayload?
    && var p, id := call.payload, call.humanApprovalId;
       && HasText(p.reason) && p.approvalDigest != "" && id != "" && id in st.approvals
       && GivenTo(st.approvals[id], auth.subject, BlockedWorkAcknowledge, cfg, auth, now)
       && GivenForBlock(st.approvals[id], call, "", "", p.approvalDigest)
  }

  /** What each operation needs beside a caller who may use it and a fresh key. */
  predicate Entitled(cfg: Config, st: Store, now: Time, call: Call, auth: AuthorizationContext) {
    match call.operation
    case RequestCreate =>
      && call.payload.CreatePayload? && HasText(call.payload.intent) && HasText(call.payload.rationale)
      && SemanticKeyOf(cfg, call.payload.intent, call.payload.interfaces, call.payload.scopes) !in st.semanticRequests
    case RequestUpdatePriority =>
      && AtRevision(st, call) && call.payload.PriorityPayload?
      && call.payload.businessPriority in {"low", "normal", "high", "urgent"}
      && var request := st.requests[call.requestId];
         && (request.changeSetId != "" ==> request.changeSetId in st.changeSets)
         && (request.buildWorkItemId != "" ==> request.buildWorkItemId in st.workItems)
    case RequestLinkChangeSet =>
      && AtRevision(st, call) && call.payload.ChangeSetLinkPayload?
      && var id := call.payload.changeSetId;
         && id != "" && id in st.changeSets && st.requests[call.requestId].changeSetId != id
         && st.changeSets[id].revision in {"proposed", "approved"}
         && call.payload.targetRevision in {"", st.changeSets[id].revision}
    case RequestLinkBuildWorkItem =>
      && AtRevision(st, call) && call.payload.WorkItemLinkPayload?
      && var id := call.payload.buildWorkItemId;
         id != "" && id in st.workItems && st.requests[call.requestId].buildWorkItemId != id
    case RequestRefine => MayRefineTo(cfg, st, now, call, auth)
    case BlockedWorkSubmitResolution => MaySubmit(cfg, st, now, call, auth)
    case BlockedWorkAcknowledge => MayAcknowledge(cfg, st, now, call, auth)
    case _ => false
  }

  lemma RefineExactly(cfg: Config, st: Store, now: Time, call: Call, auth: AuthorizationContext)
    ensures RefineRequest(cfg, st, now, call, auth).1.mutation == MutationApplied <==> MayRefineTo(cfg, st, now, call, auth)
  {
    hide Refined, ContentOf, KeyOf, RelationshipsRejection, Relatable, WithRefinement;
    if Target(st, call).None? && call.payload.RefinePayload? {
      var p := call.payload.refinement;
      var id := RefineApprovalId(call, p);
      if p.relationships.Some? {
        RelatableExactly(p.relationships.value, st.requests, st.requests[call.requestId].id);
      }
      if id in st.approvals {
        RefinementWrites(cfg, st, call, auth, id);
      }
    }
  }

  lemma SubmitExactly(cfg: Config, st: Store, now: Time, call: Call, auth: AuthorizationContext)
    ensures SubmitResolution(cfg, st, now, call, auth).1.mutation == MutationApplied <==> MaySubmit(cfg, st, now, call, auth)
  {
    hide Supersede, Filed, PlannedDependencyComplete, Active;
  }

  lemma AcknowledgeExactly(cfg: Config, st: Store, now: Time, call: Call, auth: AuthorizationContext)
    ensures Acknowledge(cfg, st, now, call, auth).1.mutation == MutationApplied <==> MayAcknowledge(cfg, st, now, call, auth)
  {
    hide RequestEvent;
  }

  lemma CreateExactly(cfg: Config, st: Store, now: Time, call: Call, auth: AuthorizationContext)
    requires call.operation == RequestCreate
    ensures CreateRequest(cfg, st, call, auth).1.mutation == MutationApplied <==> Entitled(cfg, st, now, call, auth)
  {
    hide SemanticKeyOf, Text.Trim, Text.SortedUnique, RequestEvent;
  }

  lemma PriorityExactly(cfg: Config, st: Store, now: Time, call: Call, auth: AuthorizationContext)
    requires call.operation == RequestUpdatePriority
    ensures UpdatePriority(st, call, auth).1.mutation == MutationApplied <==> Entitled(cfg, st, now, call, auth)
  {
    hide RequestEvent;
  }

  lemma LinksExactly(cfg: Config, st: Store, now: Time, call: Call, auth: AuthorizationContext)
    ensures call.operation == RequestLinkChangeSet ==>
              (LinkChangeSet(st, call, auth).1.mutation == MutationApplied <==> Entitled(cfg, st, now, call, auth))
    ensures call.operation == RequestLinkBuildWorkItem ==>
              (LinkWorkItem(st, call, auth).1.mutation == MutationApplied <==> Entitled(cfg, st, now, call, auth))
  {
    hide RequestEvent;
  }

  lemma MutationExactly(cfg: Config, st: Store, now: Time, call: Call, auth: AuthorizationContext)
    requires IsRequestMutation(call.operation)
    ensures MutateRequest(cfg, st, now, call, auth).1.mutation == MutationApplied <==> Entitled(cfg, st, now, call, auth)
  {
    hide CreateRequest, UpdatePriority, LinkChangeSet, LinkWorkItem, RefineRequest, SubmitResolution, Acknowledge;
    match call.operation
    case RequestCreate => CreateExactly(cfg, st, now, call, auth);
    case RequestUpdatePriority => PriorityExactly(cfg, st, now, call, auth);
    case RequestLinkChangeSet => LinksExactly(cfg, st, now, call, auth);
    case RequestLinkBuildWorkItem => LinksExactly(cfg, st, now, call, auth);
    case RequestRefine => RefineExactly(cfg, st, now, call, auth);
    case BlockedWorkSubmitResolution => SubmitExactly(cfg, st, now, call, auth);
    case BlockedWorkAcknowledge => AcknowledgeExactly(cfg, st, now, call, auth);
  }

  /** A request operation is applied exactly if its key is fresh, its caller may use it, and it
      has what its table asks for. */
  lemma AppliedExactly(cfg: Config, st: Store, now: Time, call: Call, auth: AuthorizationContext)
    requires IsRequestMutation(call.operation)
    ensures Execute(cfg, st, now, call, Some(auth)).1.mutation == MutationApplied <==>
              && call.idempotencyKey != "" && call.idempotencyKey !in st.idempotency
              && MayCall(cfg, call, auth, now)
              && Entitled(cfg, st, now, call, auth)
  {
    hide MutateRequest, RequestFingerprintOf, ExecuteLifecycle, PreflightAnswer, AuthorizeContext, RoleHasWmsOperation, MayCall, Entitled;
    CallersMayExactly(cfg, call, auth, now);
    MutationExactly(cfg, st, now, call, auth);
  }
}
