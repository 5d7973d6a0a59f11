/** The request backlog, blocked-work resolution and the operations of the in-memory
    store as a whole. */
module MemoryRequests {
  import opened Records
  import opened Authorization
  import opened Evaluator
  import opened MemoryStore
  import Text

  predicate ValidClassification(value: string) {
    value in {"undefined", "changes", "contradicts"}
  }

  predicate ValidRefinementState(value: string) {
    value in {"unrefined", "refining", "ready-for-dimensioning", "closed"}
  }

  predicate ValidPriority(value: string) {
    value in {"low", "normal", "high", "urgent"}
  }

  predicate ValidRelationshipKind(kind: string) {
    kind in {"depends-on", "conflicts-with", "supersedes", "related-to"}
  }

  function ApprovalRefused(call: Call, auth: AuthorizationContext, targetType: string): (r: Result) {
    RefusedResult(call.operation, UnauthorizedAction(call.operation, targetType, auth.policyVersion))
  }

  function RequestEvent(call: Call, auth: AuthorizationContext, humanSubject: string, requestId: RequestId, workItemId: string): (e: AuditEvent) {
    AuditEvent(call.operation, auth.subject, humanSubject, requestId, workItemId, call.idempotencyKey, auth.policyVersion, None, None)
  }

  function RequestApplied(call: Call, request: RequestRecord): (r: Result) {
    AppliedResult(call.operation).(request := Some(request), requestId := request.id, requestRevision := request.revision)
  }

  predicate StaleRevision(call: Call, request: RequestRecord) {
    call.expectedRequestRevision != Some(request.revision)
  }

  /** The stored request a mutation names, or the refusal. */
  function Target(st: Store, call: Call): (r: Option<Result>)
    ensures r.None? ==> call.requestId in st.requests && !StaleRevision(call, st.requests[call.requestId])
    ensures r.Some? ==> r.value.mutation == MutationNone
  {
    if call.requestId !in st.requests then Some(RefusedResult(call.operation, NotFound("request")))
    else if StaleRevision(call, st.requests[call.requestId]) then
      Some(RefusedResult(call.operation, StaleRequestRevision(call.expectedRequestRevision, st.requests[call.requestId].revision)))
    else None
  }

  // ----- request.create -----

  function CreateRequest(cfg: Config, st: Store, call: Call, auth: AuthorizationContext): (r: (Store, Result)) {
    if !call.payload.CreatePayload? then (st, RefusedResult(call.operation, InvalidRequest("payload")))
    else
      var p := call.payload;
      var key := SemanticKeyOf(cfg, p.intent, p.interfaces, p.scopes);
      if Text.IsBlank(p.intent) || Text.IsBlank(p.rationale) then (st, RefusedResult(call.operation, InvalidRequest("intent/rationale")))
      else if key in st.semanticRequests then (st, RefusedResult(call.operation, DuplicateRequest(st.semanticRequests[key])))
      else WithRequest(cfg, st, call, auth)
  }

  /** A new request is stored in canonical form under the next id. */
  function WithRequest(cfg: Config, st: Store, call: Call, auth: AuthorizationContext): (r: (Store, Result))
    requires call.payload.CreatePayload?
  {
    var p, id := call.payload, st.nextRequestId + 1;
    var request := RequestRecord(id, Text.Trim(p.intent), Text.Trim(p.rationale), auth.subject, "",
                                 Text.SortedUnique(p.interfaces), Text.SortedUnique(p.scopes), "", "unrefined", "", [], "", "", 1);
    (st.(nextRequestId := id,
         requests := st.requests[id := request],
         semanticRequests := st.semanticRequests[SemanticKeyOf(cfg, p.intent, p.interfaces, p.scopes) := id],
         events := st.events + [RequestEvent(call, auth, "", id, "")]),
     RequestApplied(call, request))
  }

  /** The first revision of what the call asks for: its intent and rationale trimmed, its lists
      in normal form, the caller its author; unrefined, and with nothing linked to it. */
  predicate AsAsked(made: RequestRecord, call: Call, auth: AuthorizationContext) {
    && call.payload.CreatePayload?
    && made.intent == Text.Trim(call.payload.intent) && made.rationale == Text.Trim(call.payload.rationale)
    && made.createdBy == auth.subject && made.owner == ""
    && made.interfaces == Text.SortedUnique(call.payload.interfaces) && made.scopes == Text.SortedUnique(call.payload.scopes)
    && made.classification == "" && made.refinementState == "unrefined" && made.businessPriority == ""
    && made.relationships == [] && made.changeSetId == "" && made.buildWorkItemId == "" && made.revision == 1
  }

  // ----- request.refine -----

  /** The first relationship that is malformed, dangling or repeated. */
  function RelationshipsRejection(relationships: seq<Relationship>, requests: map<RequestId, RequestRecord>, self: RequestId): (r: Option<Rejection>) {
    if relationships == [] then None
    else
      var earlier := relationships[..|relationships| - 1];
      var last := relationships[|relationships| - 1];
      var rejection := RelationshipsRejection(earlier, requests, self);
      if rejection.Some? then rejection
      else if last.target == 0 || last.target == self || !ValidRelationshipKind(last.kind) then Some(InvalidRequest("relationships"))
      else if last.target !in requests then Some(NotFound("request"))
      else if last in earlier then Some(InvalidRequest("relationships"))
      else None
  }

  function Refined(request: RequestRecord, p: Refinement): (r: RequestRecord)
    ensures r.id == request.id && r.revision == request.revision
  {
    request.(
      intent := if p.intent != "" then Text.Trim(p.intent) else request.intent,
      rationale := if p.rationale != "" then Text.Trim(p.rationale) else request.rationale,
      owner := if p.owner != "" then p.owner else request.owner,
      interfaces := if p.interfaces.Some? then Text.SortedUnique(p.interfaces.value) else request.interfaces,
      scopes := if p.scopes.Some? then Text.SortedUnique(p.scopes.value) else request.scopes,
      relationships := if p.relationships.Some? then p.relationships.value else request.relationships,
      classification := if p.classification != "" then p.classification else request.classification,
      refinementState := p.refinementState)
  }

  /** The digest that binds an approval to exactly this content. */
  function ContentOf(request: RequestRecord): (d: Digest) {
    ContentDigest(RefinementContent(request.intent, request.rationale, request.owner, multiset(request.interfaces),
                                    multiset(request.scopes), multiset(request.relationships), request.classification,
                                    request.refinementState))
  }

  function RefineApprovalId(call: Call, p: Refinement): (id: string) {
    if call.humanApprovalId != "" then call.humanApprovalId else p.humanApprovalId
  }

  function RefineRequirement(projectId: string, auth: AuthorizationContext, requestId: RequestId, digest: Digest): (r: ApprovalRequirement) {
    ApprovalRequirement(RequestRefine, auth.subject, projectId, "", requestId, "", "", digest, NO_STATE, None, auth.policyVersion)
  }

  function RefinementFieldRejection(p: Refinement): (r: Option<Rejection>)
    ensures r.Some? ==> r.value.InvalidRequest?
  {
    if p.classification != "" && !ValidClassification(p.classification) then Some(InvalidRequest("classification"))
    else if !ValidRefinementState(p.refinementState) then Some(InvalidRequest("refinement_state"))
    else if (p.intent != "" && Text.IsBlank(p.intent)) || (p.rationale != "" && Text.IsBlank(p.rationale)) then
      Some(InvalidRequest("intent/rationale"))
    else None
  }

  function RefineRequest(cfg: Config, st: Store, now: Time, call: Call, auth: AuthorizationContext): (r: (Store, Result)) {
    if Target(st, call).Some? then (st, Target(st, call).value)
    else if !call.payload.RefinePayload? then (st, RefusedResult(call.operation, InvalidRequest("payload")))
    else
      var p := call.payload.refinement;
      var request := st.requests[call.requestId];
      var approvalId := RefineApprovalId(call, p);
      if RefinementFieldRejection(p).Some? then (st, RefusedResult(call.operation, RefinementFieldRejection(p).value))
      else if approvalId !in st.approvals then (st, ApprovalRefused(call, auth, "request"))
      else
        var approval := st.approvals[approvalId];
        var invalid := ValidateApproval(approval, RefineRequirement(cfg.projectId, auth, request.id, p.approvalDigest), now);
        if invalid.Some? then (st, RefusedResult(call.operation, invalid.value))
        else RefineApproved(cfg, st, call, auth, approvalId)
  }

  /** A refinement under a valid approval, of exactly the content that was approved. */
  function RefineApproved(cfg: Config, st: Store, call: Call, auth: AuthorizationContext, approvalId: string): (r: (Store, Result))
    requires call.requestId in st.requests && call.payload.RefinePayload? && approvalId in st.approvals
  {
    var p, request := call.payload.refinement, st.requests[call.requestId];
    var broken := if p.relationships.Some? then RelationshipsRejection(p.relationships.value, st.requests, request.id) else None;
    var refined := Refined(request, p);
    var key := KeyOf(cfg, refined);
    if broken.Some? then (st, RefusedResult(call.operation, broken.value))
    else if key in st.semanticRequests && st.semanticRequests[key] != refined.id then
      (st, RefusedResult(call.operation, DuplicateRequest(st.semanticRequests[key])))
    else if ContentOf(refined) != st.approvals[approvalId].digest then (st, ApprovalRefused(call, auth, "request"))
    else WithRefinement(cfg, st, call, auth, approvalId, refined)
  }

  /** The refined content is stored under its own key, and the approval spent. */
  function WithRefinement(
    cfg: Config, st: Store, call: Call, auth: AuthorizationContext, approvalId: string, refined: RequestRecord
  ): (r: (Store, Result))
    requires call.requestId in st.requests && approvalId in st.approvals
  {
    var approval := st.approvals[approvalId];
    var stored := refined.(revision := refined.revision + 1);
    (st.(requests := st.requests[stored.id := stored],
         semanticRequests := (st.semanticRequests - {KeyOf(cfg, st.requests[call.requestId])})[KeyOf(cfg, refined) := stored.id],
         approvals := st.approvals[approvalId := approval.(status := Consumed)],
         events := st.events + [RequestEvent(call, auth, approval.approvedSubject, stored.id, "")]),
     RequestApplied(call, stored).(approvalStatus := Consumed))
  }

  // ----- request.update-priority and the links -----

  function UpdatePriority(st: Store, call: Call, auth: AuthorizationContext): (r: (Store, Result)) {
    if Target(st, call).Some? then (st, Target(st, call).value)
    else if !call.payload.PriorityPayload? then (st, RefusedResult(call.operation, InvalidRequest("payload")))
    else
      var priority := call.payload.businessPriority;
      var request := st.requests[call.requestId];
      if !ValidPriority(priority) then (st, RefusedResult(call.operation, InvalidRequest("business_priority")))
      else if request.changeSetId != "" && request.changeSetId !in st.changeSets then
        (st, RefusedResult(call.operation, NotFound("change-set")))
      else if request.buildWorkItemId != "" && request.buildWorkItemId !in st.workItems then
        (st, RefusedResult(call.operation, NotFound("work-item")))
      else WithPriority(st, call, auth)
  }

  /** The priority of a request is also that of the change set and the record linked to it. */
  function WithPriority(st: Store, call: Call, auth: AuthorizationContext): (r: (Store, Result))
    requires call.requestId in st.requests && call.payload.PriorityPayload?
    requires st.requests[call.requestId].changeSetId == "" || st.requests[call.requestId].changeSetId in st.changeSets
    requires st.requests[call.requestId].buildWorkItemId == "" || st.requests[call.requestId].buildWorkItemId in st.workItems
  {
    var priority := call.payload.businessPriority;
    var request := st.requests[call.requestId];
    var stored := request.(businessPriority := priority, revision := request.revision + 1);
    var changeSets :=
      if request.changeSetId == "" then st.changeSets
      else
        var changeSet := st.changeSets[request.changeSetId].(businessPriority := priority);
        st.changeSets[changeSet.id := changeSet];
    var workItems :=
      if request.buildWorkItemId == "" then st.workItems
      else
        var item := st.workItems[request.buildWorkItemId].(priority := priority);
        st.workItems[item.id := item];
    (st.(requests := st.requests[stored.id := stored],
         changeSets := changeSets,
         workItems := workItems,
         events := st.events + [RequestEvent(call, auth, "", stored.id, request.buildWorkItemId)]),
     PriorityApplied(call, stored, workItems))
  }

  function PriorityApplied(call: Call, stored: RequestRecord, workItems: map<string, WorkItem>): (r: Result)
    ensures r.mutation == MutationApplied && r.decision.None?
  {
    var result := RequestApplied(call, stored).(
      changeSetPriority := if stored.changeSetId != "" then stored.businessPriority else "",
      workItemPriority := if stored.buildWorkItemId != "" then stored.businessPriority else "");
    if stored.buildWorkItemId in workItems then
      result.(workItemState := workItems[stored.buildWorkItemId].state, contractVersion := workItems[stored.buildWorkItemId].version)
    else result
  }

  function LinkChangeSet(st: Store, call: Call, auth: AuthorizationContext): (r: (Store, Result)) {
    if Target(st, call).Some? then (st, Target(st, call).value)
    else if !call.payload.ChangeSetLinkPayload? then (st, RefusedResult(call.operation, InvalidRequest("payload")))
    else
      var id := call.payload.changeSetId;
      var request := st.requests[call.requestId];
      if id !in st.changeSets then (st, RefusedResult(call.operation, NotFound("change-set")))
      else
        var changeSet := st.changeSets[id];
        if || id == "" || request.changeSetId == id
           || (call.payload.targetRevision != "" && changeSet.revision != call.payload.targetRevision)
           || (changeSet.revision != "proposed" && changeSet.revision != "approved")
        then (st, RefusedResult(call.operation, InvalidRequest("change_set_id/target_revision")))
        else WithChangeSet(st, call, auth)
  }

  function WithChangeSet(st: Store, call: Call, auth: AuthorizationContext): (r: (Store, Result))
    requires call.requestId in st.requests && call.payload.ChangeSetLinkPayload? && call.payload.changeSetId in st.changeSets
  {
    var request, changeSet := st.requests[call.requestId], st.changeSets[call.payload.changeSetId];
    var stored := request.(changeSetId := call.payload.changeSetId, revision := request.revision + 1);
    var linked := if request.businessPriority != "" then changeSet.(businessPriority := request.businessPriority) else changeSet;
    (st.(requests := st.requests[stored.id := stored],
         changeSets := st.changeSets[linked.id := linked],
         events := st.events + [RequestEvent(call, auth, "", stored.id, "")]),
     RequestApplied(call, stored))
  }

  function LinkWorkItem(st: Store, call: Call, auth: AuthorizationContext): (r: (Store, Result)) {
    if Target(st, call).Some? then (st, Target(st, call).value)
    else if !call.payload.WorkItemLinkPayload? then (st, RefusedResult(call.operation, InvalidRequest("payload")))
    else
      var id := call.payload.buildWorkItemId;
      var request := st.requests[call.requestId];
      if id !in st.workItems then (st, RefusedResult(call.operation, NotFound("work-item")))
      else if id == "" || request.buildWorkItemId == id then
        (st, RefusedResult(call.operation, InvalidRequest("build_work_item_id")))
      else WithWorkItem(st, call, auth)
  }

  function WithWorkItem(st: Store, call: Call, auth: AuthorizationContext): (r: (Store, Result))
    requires call.requestId in st.requests && call.payload.WorkItemLinkPayload? && call.payload.buildWorkItemId in st.workItems
  {
    var id := call.payload.buildWorkItemId;
    var request, item := st.requests[call.requestId], st.workItems[id];
    var stored := request.(buildWorkItemId := id, revision := request.revision + 1);
    var linked := if request.businessPriority != "" then item.(priority := request.businessPriority) else item;
    (st.(requests := st.requests[stored.id := stored],
         workItems := st.workItems[linked.id := linked],
         events := st.events + [RequestEvent(call, auth, "", stored.id, id)]),
     RequestApplied(call, stored))
  }

  // ----- blocked work -----

  /** Blocked-work operations compare and swap on a blocked record. */
  function BlockedExpected(call: Call, item: WorkItem): (r: Option<Rejection>)
    ensures r.None? <==> call.expectedState == item.state == Blocked && call.expectedVersion == Some(item.version)
  {
    if call.expectedState != item.state then Some(StaleState(call.expectedState, item.state))
    else if call.expectedVersion != Some(item.version) then Some(StaleContractVersion(call.expectedVersion, item.version))
    else if item.state != Blocked then Some(InvalidTransition(call.operation, item.state))
    else None
  }

  function BlockedTarget(st: Store, call: Call): (r: Option<Result>)
    ensures r.None? ==> call.workItemId in st.workItems && BlockedExpected(call, st.workItems[call.workItemId]).None?
    ensures r.Some? ==> r.value.mutation == MutationNone
  {
    if call.workItemId !in st.workItems then Some(RefusedResult(call.operation, NotFound("work-item")))
    else if BlockedExpected(call, st.workItems[call.workItemId]).Some? then
      Some(RefusedResult(call.operation, BlockedExpected(call, st.workItems[call.workItemId]).value))
    else None
  }

  predicate NeedsChangeSet(kind: string) {
    kind == "add-requirement" || kind == "impact-amendment"
  }

  /** The submission a pending one replaces, and what becomes of the approval it carried:
      revoked unless the new submission presents it again. */
  function Supersede(st: Store, workItemId: string, approvalId: string): (r: Store)
    ensures r == st.(submissions := r.submissions, approvals := r.approvals)
  {
    var prior := Active(st, workItemId);
    if prior == NoSubmission || prior !in st.submissions || st.submissions[prior].status != Pending then st
    else
      var replaced := st.submissions[prior];
      st.(submissions := st.submissions[prior := replaced.(status := Superseded)],
          approvals :=
            if replaced.approvalId == approvalId || replaced.approvalId !in st.approvals then st.approvals
            else st.approvals[replaced.approvalId := st.approvals[replaced.approvalId].(status := Revoked)])
  }

  function SubmitRequirement(cfg: Config, call: Call, auth: AuthorizationContext): (r: ApprovalRequirement)
    requires call.payload.BlockedResolutionPayload?
  {
    ApprovalRequirement(ResolveBlock, cfg.materializerSubject, cfg.projectId, call.workItemId, 0, call.payload.changeSetId,
                        call.payload.resolutionKind, ResolutionDigest(call.payload.approvalDigest), call.expectedState,
                        call.expectedVersion, auth.policyVersion)
  }

  function SubmitRejection(cfg: Config, st: Store, now: Time, call: Call, auth: AuthorizationContext): (r: Option<Result>)
    ensures r.Some? ==> r.value.mutation == MutationNone
    ensures r.None? ==>
              && call.workItemId in st.workItems
              && BlockedExpected(call, st.workItems[call.workItemId]).None?
              && call.payload.BlockedResolutionPayload?
              && call.humanApprovalId in st.approvals
              && ApprovalIsValid(st.approvals[call.humanApprovalId], SubmitRequirement(cfg, call, auth), now)
  {
    if BlockedTarget(st, call).Some? then BlockedTarget(st, call)
    else if !call.payload.BlockedResolutionPayload? then Some(RefusedResult(call.operation, InvalidRequest("payload")))
    else
      var p := call.payload;
      if p.resolutionKind !in {"add-requirement", "out-of-scope", "impact-amendment"} then
        Some(RefusedResult(call.operation, InvalidRequest("resolution_kind")))
      else if p.approvalDigest == "" || call.humanApprovalId == "" then Some(ApprovalRefused(call, auth, "work-item"))
      else if NeedsChangeSet(p.resolutionKind) && p.changeSetId !in st.changeSets then
        Some(RefusedResult(call.operation, NotFound("change-set")))
      else if call.humanApprovalId !in st.approvals || cfg.materializerSubject == "" then Some(ApprovalRefused(call, auth, "work-item"))
      else
        var invalid := ValidateApproval(st.approvals[call.humanApprovalId], SubmitRequirement(cfg, call, auth), now);
        if invalid.Some? then Some(RefusedResult(call.operation, invalid.value)) else None
  }

  function SubmitResolution(cfg: Config, st: Store, now: Time, call: Call, auth: AuthorizationContext): (r: (Store, Result)) {
    var refused := SubmitRejection(cfg, st, now, call, auth);
    if refused.Some? then (st, refused.value) else WithSubmission(st, call, auth)
  }

  /** An accepted submission replaces the pending one. */
  function WithSubmission(st: Store, call: Call, auth: AuthorizationContext): (r: (Store, Result))
    requires call.workItemId in st.workItems && call.payload.BlockedResolutionPayload? && call.humanApprovalId in st.approvals
  {
    var p := call.payload;
    var item := st.workItems[call.workItemId];
    var approval := st.approvals[call.humanApprovalId];
    var cleared := Supersede(st, item.id, call.humanApprovalId);
    var revision := Revision(st, item.id) + 1;
    var id := Resolution(st.nextResolutionId + 1);
    var prior := Active(st, item.id);
    var replaced := prior != NoSubmission && prior in st.submissions && st.submissions[prior].status == Pending;
    var result := AppliedResult(call.operation).(
      submission := "accepted",
      approvalStatus := Unused,
      workItemId := item.id,
      workItemState := item.state,
      contractVersion := item.version,
      submissionId := id,
      submissionRevision := revision,
      plannedDependencyComplete :=
        if p.resolutionKind == "add-requirement" then Some(PlannedDependencyComplete(st, p.changeSetId)) else None,
      priorSubmission := if replaced then prior else NoSubmission,
      priorSubmissionStatus := if replaced then Some(Superseded) else None,
      priorApprovalStatus :=
        if !replaced then NO_APPROVAL_STATUS
        else if st.submissions[prior].approvalId == call.humanApprovalId then approval.status
        else Revoked);
    (Filed(cleared, call, auth, item.id, approval.approvedSubject), result)
  }

  /** The store with a new pending submission, the active one of its record. */
  function Filed(st: Store, call: Call, auth: AuthorizationContext, workItemId: string, humanSubject: string): (r: Store)
    requires call.payload.BlockedResolutionPayload?
    ensures r == st.(resolutionRevisions := r.resolutionRevisions, nextResolutionId := r.nextResolutionId, submissions := r.submissions,
                     activeSubmissions := r.activeSubmissions, events := r.events)
  {
    var p, id, revision := call.payload, Resolution(st.nextResolutionId + 1), Revision(st, workItemId) + 1;
    st.(
      resolutionRevisions := st.resolutionRevisions[workItemId := revision],
      nextResolutionId := st.nextResolutionId + 1,
      submissions := st.submissions[id :=
        Submission(id, workItemId, p.resolutionKind, p.changeSetId, call.humanApprovalId, p.approvalDigest, humanSubject, Pending,
                   false, false, "", revision)],
      activeSubmissions := st.activeSubmissions[workItemId := id],
      events := st.events + [RequestEvent(call, auth, humanSubject, 0, workItemId)])
  }

  function AcknowledgeRequirement(cfg: Config, call: Call, auth: AuthorizationContext): (r: ApprovalRequirement)
    requires call.payload.BlockedResolutionPayload?
  {
    ApprovalRequirement(BlockedWorkAcknowledge, auth.subject, cfg.projectId, call.workItemId, 0, "", "",
                        ResolutionDigest(call.payload.approvalDigest), call.expectedState, call.expectedVersion, auth.policyVersion)
  }

  function Acknowledge(cfg: Config, st: Store, now: Time, call: Call, auth: AuthorizationContext): (r: (Store, Result)) {
    if BlockedTarget(st, call).Some? then (st, BlockedTarget(st, call).value)
    else if !call.payload.BlockedResolutionPayload? then (st, RefusedResult(call.operation, InvalidRequest("payload")))
    else if || Text.IsBlank(call.payload.reason) || call.payload.approvalDigest == "" || call.humanApprovalId == ""
            || call.humanApprovalId !in st.approvals
    then (st, ApprovalRefused(call, auth, "work-item"))
    else
      var approval := st.approvals[call.humanApprovalId];
      var invalid := ValidateApproval(approval, AcknowledgeRequirement(cfg, call, auth), now);
      if invalid.Some? then (st, RefusedResult(call.operation, invalid.value))
      else WithAcknowledgement(st, call, auth)
  }

  function WithAcknowledgement(st: Store, call: Call, auth: AuthorizationContext): (r: (Store, Result))
    requires call.workItemId in st.workItems && call.payload.BlockedResolutionPayload? && call.humanApprovalId in st.approvals
  {
    var approval := st.approvals[call.humanApprovalId];
    var item := st.workItems[call.workItemId];
    var id := Acknowledgement(st.nextAcknowledgementId + 1);
    (st.(approvals := st.approvals[call.humanApprovalId := approval.(status := Consumed)],
         nextAcknowledgementId := st.nextAcknowledgementId + 1,
         submissions := st.submissions[id :=
           Submission(id, item.id, "acknowledge", "", call.humanApprovalId, call.payload.approvalDigest, "",
                      SubmissionConsumed, false, false, "", 1)],
         events := st.events + [RequestEvent(call, auth, approval.approvedSubject, 0, item.id)]),
     AppliedResult(call.operation).(
       approvalStatus := Consumed,
       workItemId := item.id,
       workItemState := item.state,
       contractVersion := item.version,
       submissionId := id,
       submissionRevision := 1))
  }

  // ----- the operation surface -----

  predicate IsRequestMutation(operation: Operation) {
    operation in {RequestCreate, RequestRefine, RequestUpdatePriority, RequestLinkChangeSet, RequestLinkBuildWorkItem,
                  BlockedWorkSubmitResolution, BlockedWorkAcknowledge}
  }

  function MutateRequest(cfg: Config, st: Store, now: Time, call: Call, auth: AuthorizationContext): (r: (Store, Result))
    requires IsRequestMutation(call.operation)
  {
    match call.operation
    case RequestCreate => CreateRequest(cfg, st, call, auth)
    case RequestRefine => RefineRequest(cfg, st, now, call, auth)
    case RequestUpdatePriority => UpdatePriority(st, call, auth)
    case RequestLinkChangeSet => LinkChangeSet(st, call, auth)
    case RequestLinkBuildWorkItem => LinkWorkItem(st, call, auth)
    case BlockedWorkSubmitResolution => SubmitResolution(cfg, st, now, call, auth)
    case BlockedWorkAcknowledge => Acknowledge(cfg, st, now, call, auth)
  }

  /** A read: found or not, malformed or not; what a query lists is not modelled. */
  function ReadAnswer(st: Store, call: Call, auth: AuthorizationContext): (r: Result)
    ensures r.mutation == MutationNone
  {
    match call.operation
    case RequestGet =>
      if call.requestId in st.requests then
        BlankResult(call.operation).(request := Some(st.requests[call.requestId]), requestId := st.requests[call.requestId].id,
                                     requestRevision := st.requests[call.requestId].revision)
      else RefusedResult(call.operation, NotFound("request"))
    case WorkItemGet =>
      if call.workItemId in st.workItems then BlankResult(call.operation) else RefusedResult(call.operation, NotFound("work-item"))
    case BlockedWorkQuery => BlankResult(call.operation)
    case RequestQuery =>
      if call.payload.QueryPayload? then BlankResult(call.operation) else RefusedResult(call.operation, InvalidRequest("payload"))
    case WorkItemQuery =>
      if call.payload.QueryPayload? then BlankResult(call.operation) else RefusedResult(call.operation, InvalidRequest("payload"))
    case _ =>
      RefusedResult(call.operation, UnauthorizedAction(call.operation, if call.workItemId != "" then "work-item" else "project",
                                                       auth.policyVersion))
  }

  function ExecuteRequest(cfg: Config, st: Store, now: Time, call: Call, auth: AuthorizationContext): (r: (Store, Result)) {
    if !IsRequestMutation(call.operation) then (st, ReadAnswer(st, call, auth))
    else if call.idempotencyKey == "" then (st, RefusedResult(call.operation, InvalidRequest("idempotency_key")))
    else
      var fingerprint := RequestFingerprintOf(call, auth);
      if call.idempotencyKey in st.idempotency then
        var recorded := RecordedAnswer(st, call.idempotencyKey, fingerprint);
        (st, if recorded.Some? then recorded.value
             else RefusedResult(call.operation, IdempotencyConflict("request-fingerprint", call.idempotencyKey)))
      else
        var (after, result) := MutateRequest(cfg, st, now, call, auth);
        (Remember(after, call.idempotencyKey, fingerprint, result), result)
  }

  /** The advisory answer; it never changes the store. */
  function PreflightAnswer(cfg: Config, st: Store, now: Time, call: Call, auth: AuthorizationContext): (r: Result)
    ensures r.mutation == MutationNone
  {
    if !call.payload.PreflightPayload? then RefusedResult(call.operation, InvalidRequest("payload"))
    else
      var operation := call.payload.operation;
      var payload :=
        if call.humanApprovalId != "" then call.payload.payload.(humanApprovalId := call.humanApprovalId) else call.payload.payload;
      var workItemId :=
        if operation == Materialize && call.workItemId == "" && payload.workItem.Some? then payload.workItem.value.id
        else call.workItemId;
      var current := if workItemId in st.workItems then Some(st.workItems[workItemId]) else None;
      var request := Request(operation, cfg.projectId, workItemId, MaterializationKey(call, payload), "", call.expectedState,
                             call.expectedVersion, call.fencingToken, LifecycleReferences(operation, auth.role, payload), payload, auth);
      var id := payload.resolutionSubmission;
      var mirrors := id != NoSubmission && id in st.submissions && st.submissions[id].workItemId == workItemId
                     && st.submissions[id].status == Pending && Active(st, workItemId) == id;
      var kind := if mirrors then st.submissions[id].kind else payload.resolutionKind;
      var changeSetId := if mirrors then st.submissions[id].changeSetId else payload.changeSetId;
      var preview := ResolutionPreview(kind, changeSetId, kind == "add-requirement" && PlannedDependencyComplete(st, changeSetId),
                                       mirrors && st.submissions[id].inspectorConfirmationId != "");
      var refreshes := current.Some? && RefreshesDependencies(operation);
      var evaluation := EvaluationContext(
        Preflight, now, NO_TOKEN, map[], map[], Some(preview),
        if refreshes && workItemId in st.observedReadiness then Some(st.observedReadiness[workItemId]) else None,
        if operation == Materialize && payload.workItem.Some? then Some(LiveDependencies(cfg, st, payload.workItem.value))
        else if refreshes then Some(LiveDependencies(cfg, st, current.value)) else None);
      var decision :=
        if && call.policyVersion != "" && call.policyVersion != auth.policyVersion
           && AuthorizePreflight(auth, cfg.projectId, workItemId, payload.changeSetId, request.references, now).None?
        then
          RejectionDecision(request, Preflight, None,
                            UnauthorizedAction(operation, if workItemId != "" then "work-item" else "project", auth.policyVersion))
        else PreflightDecision(request, current, evaluation);
      ResultOfDecision(call.operation, decision)
  }

  function PreflightDecision(request: Request, current: Option<WorkItem>, evaluation: EvaluationContext): (d: Decision)
    requires evaluation.authority == Preflight
    ensures d.authority == Preflight
  {
    assert Evaluate(request, current, evaluation).authority == Preflight by {
      EvaluateKeepsAuthority(request, current, evaluation);
    }
    Evaluate(request, current, evaluation)
  }

  lemma EvaluateKeepsAuthority(request: Request, current: Option<WorkItem>, evaluation: EvaluationContext)
    ensures Evaluate(request, current, evaluation).authority == evaluation.authority
  {
    hide AuthorizeRequest, EvaluateTransition, EvaluateMaterialization, MutationPreconditions, LegalFrom, ContextIsValid;
  }

  /** One call, with the context the Gate resolved for it, if any. */
  function Execute(cfg: Config, st: Store, now: Time, call: Call, gate: Option<AuthorizationContext>): (r: (Store, Result)) {
    var project := if call.workItemId != "" then "work-item" else "project";
    if call.operation.OtherOperation? || gate.None? then
      (st, RefusedResult(call.operation, UnauthorizedAction(call.operation, project, "")))
    else
      var auth := gate.value;
      if call.operation == LifecyclePreflight then (st, PreflightAnswer(cfg, st, now, call, auth))
      else if KnownLifecycleOperation(call.operation) then ExecuteLifecycle(cfg, st, now, call, auth)
      else if !RoleHasWmsOperation(auth.role, call.operation) then
        (st, RefusedResult(call.operation, UnauthorizedAction(call.operation, project, auth.policyVersion)))
      else
        var unauthorized := AuthorizeContext(auth, call.operation, cfg.projectId, call.workItemId, "", ["project:" + cfg.projectId], now);
        if unauthorized.Some? then (st, RefusedResult(call.operation, unauthorized.value))
        else if call.policyVersion != "" && call.policyVersion != auth.policyVersion then
          (st, RefusedResult(call.operation, UnauthorizedAction(call.operation, project, auth.policyVersion)))
        else if call.operation == FindingCreate then (st, RefusedResult(call.operation, WmsUnavailable))
        else ExecuteRequest(cfg, st, now, call, auth)
  }

  // ----- trusted observations and seeds -----

  function ObserveConfirmation(st: Store, id: SubmissionId, confirmationId: string): (r: Store) {
    if id == NoSubmission || Text.IsBlank(confirmationId) || id !in st.submissions then st
    else
      var s := st.submissions[id];
      if || s.inspectorConfirmationId == confirmationId || s.kind != "out-of-scope" || s.status != Pending
         || Active(st, s.workItemId) != id || s.inspectorConfirmationId != ""
      then st
      else
        var revision := Revision(st, s.workItemId) + 1;
        st.(resolutionRevisions := st.resolutionRevisions[s.workItemId := revision],
            submissions := st.submissions[id :=
              s.(inspectorConfirmationId := confirmationId, inspectorConfirmed := true, revision := revision)])
  }

  function ObserveReadiness(st: Store, workItemId: string, readiness: Readiness): (r: Store) {
    if Text.IsBlank(workItemId) || workItemId !in st.workItems then st
    else st.(observedReadiness := st.observedReadiness[workItemId := readiness])
  }

  function ObserveInspection(st: Store, workItemId: string, evidence: InspectionEvidence): (r: Store) {
    if Text.IsBlank(workItemId) || workItemId !in st.workItems || st.workItems[workItemId].state != Inspecting then st
    else st.(workItems := st.workItems[workItemId := st.workItems[workItemId].(inspection := evidence)])
  }

  function ObserveReconciliation(st: Store, workItemId: string, evidence: Reconciliation): (r: Store) {
    if Text.IsBlank(workItemId) || workItemId !in st.workItems then st
    else st.(workItems := st.workItems[workItemId := st.workItems[workItemId].(reconciliation := evidence)])
  }

  function SeedChangeSet(st: Store, changeSet: ChangeSet): (r: Store) {
    if changeSet.id == "" || changeSet.id in st.changeSets then st
    else st.(changeSets := st.changeSets[changeSet.id := changeSet])
  }

  function SeedApproval(st: Store, id: string, approval: Approval): (r: Store) {
    if id == "" || id in st.approvals then st else st.(approvals := st.approvals[id := approval])
  }

  // ----- runs -----

  /** Everything that can happen to the store, in the order the lock admits it. */
  datatype Input =
    | Invoke(now: Time, call: Call, gate: Option<AuthorizationContext>)
    | ConfirmationObserved(submission: SubmissionId, confirmationId: string)
    | ReadinessObserved(workItemId: string, readiness: Readiness)
    | InspectionObserved(workItemId: string, inspection: InspectionEvidence)
    | ReconciliationObserved(workItemId: string, reconciliation: Reconciliation)
    | ChangeSetSeeded(changeSet: ChangeSet)
    | ApprovalSeeded(approvalId: string, approval: Approval)

  function Step(cfg: Config, st: Store, input: Input): (r: Store) {
    match input
    case Invoke(now, call, gate) => Execute(cfg, st, now, call, gate).0
    case ConfirmationObserved(id, confirmationId) => ObserveConfirmation(st, id, confirmationId)
    case ReadinessObserved(id, readiness) => ObserveReadiness(st, id, readiness)
    case InspectionObserved(id, evidence) => ObserveInspection(st, id, evidence)
    case ReconciliationObserved(id, evidence) => ObserveReconciliation(st, id, evidence)
    case ChangeSetSeeded(changeSet) => SeedChangeSet(st, changeSet)
    case ApprovalSeeded(id, approval) => SeedApproval(st, id, approval)
  }

  /** The store a run from the empty one reaches. */
  function Reached(cfg: Config, inputs: seq<Input>): (st: Store) {
    if inputs == [] then EMPTY else Step(cfg, Reached(cfg, inputs[..|inputs| - 1]), inputs[|inputs| - 1])
  }
}
