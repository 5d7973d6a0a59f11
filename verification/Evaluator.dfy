/** validation-rules/v1: the pure decision on one lifecycle command. */
module Evaluator {
  import opened Records
  import opened Authorization
  import Text

  // ----- the transition table -----

  /** The states a lifecycle command is legal from; empty for any other operation. */
  function LegalFrom(operation: Operation): (states: set<State>) {
    match operation
    case Materialize => {Initial}
    case RefreshDependencies => {Waiting}
    case Revalidate => {Waiting, ReadyForBuilding}
    case ResolveBlock => {Blocked}
    case Claim => {ReadyForBuilding}
    case RenewLease => {Building, Inspecting}
    case TestsPass => {Building}
    case RaiseSpecQuestion => {Building, Inspecting}
    case RefreshActive => {Building, Inspecting}
    case ReturnToBuilding => {Inspecting}
    case BeginMerge => {Inspecting}
    case MergeConflict => {Merging}
    case MergeNotApplied => {Merging}
    case RecordMerge => {Merging}
    case RecoverLease => {Building, Inspecting}
    case Abandon => {Waiting, ReadyForBuilding, Building, Inspecting, Blocked}
    case _ => {}
  }

  predicate KnownLifecycleOperation(operation: Operation) {
    operation in {Materialize, RefreshDependencies, Revalidate, ResolveBlock, Claim, RenewLease, TestsPass,
                  RaiseSpecQuestion, RefreshActive, ReturnToBuilding, BeginMerge, MergeConflict, MergeNotApplied,
                  RecordMerge, RecoverLease, Abandon}
  }

  predicate TransitionAllowed(operation: Operation, state: State) {
    state in LegalFrom(operation)
  }

  predicate IsTerminal(state: State) {
    state == Completed || state == Abandoned
  }

  predicate RequiresLiveFence(operation: Operation, role: Role) {
    && role == JobSite
    && operation in {RenewLease, TestsPass, RaiseSpecQuestion, RefreshActive, ReturnToBuilding, BeginMerge, MergeConflict, RecordMerge}
  }

  predicate IssuesToken(operation: Operation, role: Role, target: State) {
    role == JobSite && target == Building && operation in {Claim, RefreshActive, ReturnToBuilding, MergeConflict}
  }

  // ----- readiness and dependencies -----

  function ContractFailure(readiness: Readiness): (reason: string) {
    if !readiness.contractComplete then "the complete work-item contract is missing"
    else if !readiness.sourceImmutable then "the source specification commit is not immutable and resolvable"
    else if !readiness.specificationValidated then "ears-manager has not validated the registered specification artifacts"
    else if !readiness.requirementReferencesValid then "changed or applicable requirement references do not resolve"
    else if !readiness.pipelineEntrySatisfied then "the change-type pipeline entry requirements are not satisfied"
    else ""
  }

  /** The first blocker; an unresolved reason that is the empty text does not block. */
  function Blocker(readiness: Readiness): (reason: string) {
    if !readiness.impactDispositioned then "impact candidates remain undispositioned"
    else if !readiness.policyCompatible then "the work item is not compatible with current project policy"
    else if readiness.unresolvedReasons != [] then Text.Least(readiness.unresolvedReasons)
    else ""
  }

  function ReadinessFailure(readiness: Readiness): (reason: string) {
    if ContractFailure(readiness) != "" then ContractFailure(readiness) else Blocker(readiness)
  }

  predicate AllCompleted(dependencies: seq<Dependency>) {
    forall d | d in dependencies :: d.state == Completed
  }

  /** The least id among the dependencies that are not completed. */
  function FirstIncomplete(dependencies: seq<Dependency>): (blocking: Option<string>)
    ensures blocking.None? <==> AllCompleted(dependencies)
  {
    if dependencies == [] then None
    else
      var last := dependencies[|dependencies| - 1];
      var rest := FirstIncomplete(dependencies[..|dependencies| - 1]);
      assert dependencies == dependencies[..|dependencies| - 1] + [last];
      if last.state != Completed && (rest.None? || Text.Less(last.id, rest.value)) then Some(last.id) else rest
  }

  lemma {:induction false} FirstIncompleteIsLeast(dependencies: seq<Dependency>, i: nat)
    requires i < |dependencies| && dependencies[i].state != Completed
    ensures FirstIncomplete(dependencies).Some?
    ensures !Text.Less(dependencies[i].id, FirstIncomplete(dependencies).value)
    ensures exists d | d in dependencies :: d.state != Completed && d.id == FirstIncomplete(dependencies).value
  {
    var last := dependencies[|dependencies| - 1];
    var init := dependencies[..|dependencies| - 1];
    assert dependencies == init + [last];
    Text.LessTotal(last.id, last.id);
    if i < |init| {
      FirstIncompleteIsLeast(init, i);
      var rest := FirstIncomplete(init).value;
      if Text.Less(last.id, rest) && Text.Less(init[i].id, last.id) {
        Text.LessTransitive(init[i].id, last.id, rest);
      }
    } else if FirstIncomplete(init).Some? {
      var j :| 0 <= j < |init| && init[j].state != Completed;
      FirstIncompleteIsLeast(init, j);
    }
  }

  /** The running minimum the source keeps. */
  method FirstIncompleteLoop(dependencies: seq<Dependency>) returns (blocking: string, found: bool)
    ensures FirstIncomplete(dependencies) == if found then Some(blocking) else None
  {
    blocking, found := "", false;
    for i := 0 to |dependencies|
      invariant FirstIncomplete(dependencies[..i]) == if found then Some(blocking) else None
    {
      assert dependencies[..i + 1][..i] == dependencies[..i];
      if dependencies[i].state != Completed && (!found || Text.Less(dependencies[i].id, blocking)) {
        blocking, found := dependencies[i].id, true;
      }
    }
    assert dependencies[..|dependencies|] == dependencies;
  }

  function EffectiveReadiness(current: WorkItem, evaluation: EvaluationContext): (r: Readiness) {
    if evaluation.refreshReadiness.Some? then evaluation.refreshReadiness.value else current.readiness
  }

  function EffectiveDependencies(current: WorkItem, evaluation: EvaluationContext): (ds: seq<Dependency>) {
    if evaluation.refreshDependencies.Some? then evaluation.refreshDependencies.value else current.dependencies
  }

  /** The refusal that keeps an unready record from Building, contract first. */
  function NotReady(readiness: Readiness, dependencies: seq<Dependency>): (r: Option<Rejection>)
    ensures r.None? ==> ReadinessFailure(readiness) == "" && AllCompleted(dependencies)
    ensures r.Some? ==> r.value.PreconditionFailed? || r.value.DependencyIncomplete?
  {
    if ContractFailure(readiness) != "" then Some(PreconditionFailed(ContractFailure(readiness), "complete-work-item-contract"))
    else if Blocker(readiness) != "" then Some(PreconditionFailed(Blocker(readiness), "readiness-evidence"))
    else if FirstIncomplete(dependencies).Some? then Some(DependencyIncomplete(FirstIncomplete(dependencies).value))
    else None
  }

  // ----- merge envelopes and reconciliation -----

  predicate ReconciliationIs(evidence: Reconciliation, status: string, mutation: string) {
    evidence.status == status && evidence.gitMutation == mutation
  }

  /** A tested candidate: everything but the merge commit. */
  predicate IsCandidate(envelope: MergeEnvelope) {
    && envelope.productTreeDigest != "" && envelope.inspectionRunId != "" && envelope.integrationHead != ""
    && envelope.target != "" && envelope.mergeCommit == ""
  }

  function CandidateRejection(request: Request, current: WorkItem): (r: Option<Rejection>)
    ensures r.None? ==>
              && request.payload.mergeEnvelope.Some?
              && IsCandidate(request.payload.mergeEnvelope.value)
              && request.payload.mergeEnvelope.value.contractVersion == current.version + 1
    ensures r.Some? ==> r.value.PreconditionFailed?
  {
    var envelope := request.payload.mergeEnvelope;
    if envelope.None? || !IsCandidate(envelope.value) then
      Some(PreconditionFailed("begin-merge requires the tested-candidate merge envelope", "tested-candidate-envelope"))
    else if envelope.value.contractVersion != current.version + 1 then
      Some(PreconditionFailed("the tested-candidate merge envelope must name the contract version the merge completes under",
                              "tested-candidate-envelope"))
    else if current.expectedMerge.Some? && current.expectedMerge.value.target != ""
            && current.expectedMerge.value.target != envelope.value.target then
      Some(PreconditionFailed("the tested-candidate merge target does not match the work-item contract", "tested-candidate-envelope"))
    else None
  }

  /** The merge result is complete, at the current version, and is the expected
      candidate plus a merge commit. */
  predicate EnvelopeMatches(expected: Option<MergeEnvelope>, actual: Option<MergeEnvelope>, version: nat) {
    && expected.Some? && actual.Some?
    && IsCandidate(actual.value.(mergeCommit := ""))
    && actual.value.mergeCommit != ""
    && actual.value.contractVersion == version
    && actual.value.(mergeCommit := "") == expected.value.(mergeCommit := "")
  }

  // ----- materialization -----

  function TargetRejection(request: Request, item: Option<WorkItem>): (r: Option<Rejection>)
    ensures r.None? ==> item.Some? && item.value.id == request.workItemId != "" && item.value.projectId == request.projectId
    ensures r.Some? ==> r.value.PreconditionFailed?
  {
    if item.None? || item.value.id == "" || item.value.id != request.workItemId || item.value.projectId != request.projectId
    then Some(PreconditionFailed("a complete work-item contract for the trusted project is required", "complete-work-item-contract"))
    else None
  }

  /** A source may name the merge target and nothing else of an envelope. */
  function SourceMergeRejection(source: WorkItem): (r: Option<Rejection>)
    ensures r.Some? ==> r.value.PreconditionFailed?
  {
    if source.expectedMerge.None? then None
    else if source.expectedMerge.value.(target := "") != MergeEnvelope("", "", "", "", 0, "") then
      Some(PreconditionFailed("the materialization source may carry only the merge target", "materialization-merge-target"))
    else None
  }

  predicate ValidChangeType(changeType: string) {
    changeType in {"undefined", "changes", "contradicts"}
  }

  /** What a command would do once it is legal from the current state. */
  datatype Verdict =
    | Refuse(rejection: Rejection)
    | Omit(reservation: Reservation)
    | Move(to: State, reserved: Option<Reservation>)

  function EvaluateMaterialization(request: Request, evaluation: EvaluationContext): (v: Verdict) {
    if request.materializationKey == "" then Refuse(PreconditionFailed("materialization_key is required", "materialization_key"))
    else if TargetRejection(request, request.payload.workItem).Some? then
      Refuse(TargetRejection(request, request.payload.workItem).value)
    else
      var candidate := CanonicalSource(request.payload.workItem.value, request.payload.changeType);
      if !ValidChangeType(candidate.changeType) then Refuse(InvalidChangeType(candidate.changeType))
      else if ContractFailure(candidate.readiness) != "" then
        Refuse(PreconditionFailed(ContractFailure(candidate.readiness), "complete-work-item-contract"))
      else if SourceMergeRejection(candidate).Some? then Refuse(SourceMergeRejection(candidate).value)
      else
        var source := SourceOf(candidate);
        if !candidate.implementationRequired then
          Omit(Reservation(request.materializationKey, source, ReservedOmitted))
        else if Blocker(candidate.readiness) != "" then
          Move(Blocked, Some(Reservation(request.materializationKey, source, ReservedBlocked)))
        else if FirstIncomplete(EffectiveDependencies(candidate, evaluation)).Some? then
          Move(Waiting, Some(Reservation(request.materializationKey, source, ReservedWaiting)))
        else
          Move(ReadyForBuilding, Some(Reservation(request.materializationKey, source, ReservedReady)))
  }

  // ----- blocked-work resolution -----

  /** The authoritative binding of a resolve-block to the active submission and its
      unused approval. */
  function ResolutionBinding(request: Request, current: WorkItem, evaluation: EvaluationContext): (r: Option<Rejection>)
    ensures r.Some? ==> r.value.UnauthorizedAction?
  {
    var payload := request.payload;
    var id := payload.resolutionSubmission;
    var refusal := Some(Unauthorized(request.authorization, ResolveBlock, request.workItemId));
    if id == NoSubmission || payload.humanApprovalId == "" || payload.approvalDigest == "" || current.activeSubmission != id then
      refusal
    else if id !in evaluation.submissions then refusal
    else
      var submission := evaluation.submissions[id];
      if || submission.status != Pending
         || submission.id != current.activeSubmission
         || submission.workItemId != request.workItemId
         || submission.kind != payload.resolutionKind
         || submission.approvalId != payload.humanApprovalId
         || submission.approvalDigest != payload.approvalDigest
         || submission.approvedHumanSubject == ""
      then refusal
      else if payload.humanApprovalId !in evaluation.approvals then refusal
      else
        var approval := evaluation.approvals[payload.humanApprovalId];
        if approval.approvedSubject != submission.approvedHumanSubject then refusal
        else
          ValidateApproval(
            approval,
            ApprovalRequirement(ResolveBlock, request.authorization.subject, request.projectId, request.workItemId, 0,
                                submission.changeSetId, payload.resolutionKind, ResolutionDigest(payload.approvalDigest),
                                request.expectedState, request.expectedVersion, request.authorization.policyVersion),
            evaluation.time)
  }

  function ResolutionRefresh(kind: string, changeSetId: string, plannedComplete: bool, confirmed: bool): (r: Option<Rejection>) {
    if kind == "add-requirement" then
      if plannedComplete then None
      else
        Some(PreconditionFailed("planned dependency " + (if changeSetId == "" then "planned change-set" else changeSetId)
                                + " build work is not completed", "planned-dependency-completion"))
    else if kind == "out-of-scope" then
      if confirmed then None
      else Some(PreconditionFailed("independent Inspector confirmation is missing", "independent-inspector-confirmation"))
    else if kind == "impact-amendment" then None
    else Some(PreconditionFailed("the resolution kind is not supported for lifecycle unblock", "resolution-kind"))
  }

  function ResolutionPreconditions(request: Request, evaluation: EvaluationContext): (r: Option<Rejection>)
    ensures r.Some? ==> r.value.PreconditionFailed?
  {
    if evaluation.authority == Preflight then
      if evaluation.preview.Some? then
        var preview := evaluation.preview.value;
        ResolutionRefresh(preview.kind, preview.changeSetId, preview.plannedDependencyComplete, preview.inspectorConfirmed)
      else if request.payload.resolutionKind == "" then
        Some(PreconditionFailed("the blocked-work resolution kind is missing", "resolution-kind"))
      else
        ResolutionRefresh(request.payload.resolutionKind, request.payload.changeSetId, false, false)
    else if request.payload.resolutionSubmission in evaluation.submissions then
      var submission := evaluation.submissions[request.payload.resolutionSubmission];
      ResolutionRefresh(submission.kind, submission.changeSetId, submission.plannedDependencyComplete, submission.inspectorConfirmed)
    else
      ResolutionRefresh("", "", false, false)
  }

  // ----- the decision on one command -----

  function EvaluateTransition(request: Request, current: WorkItem, evaluation: EvaluationContext): (v: Verdict) {
    match request.operation
    case RefreshDependencies =>
      MoveUnless(NotReady(EffectiveReadiness(current, evaluation), EffectiveDependencies(current, evaluation)), ReadyForBuilding)
    case Revalidate =>
      if ReadinessFailure(EffectiveReadiness(current, evaluation)) == "" then
        Refuse(PreconditionFailed("revalidation found no unresolved blocker", "blocking-condition"))
      else Move(Blocked, None)
    case ResolveBlock =>
      var rejection := ResolutionPreconditions(request, evaluation);
      if rejection.Some? then Refuse(rejection.value)
      else
        MoveUnless(NotReady(EffectiveReadiness(current, evaluation), EffectiveDependencies(current, evaluation)), ReadyForBuilding)
    case Claim =>
      MoveUnless(NotReady(current.readiness, current.dependencies), Building)
    case RenewLease =>
      Move(current.state, None)
    case RefreshActive =>
      Move(if NotReady(EffectiveReadiness(current, evaluation), EffectiveDependencies(current, evaluation)).Some?
           then Blocked else Building, None)
    case ReturnToBuilding =>
      if request.payload.inContractDefect || request.payload.finalTestsFailed then Move(Building, None)
      else Refuse(PreconditionFailed("no in-contract defect or failed final test was recorded", "rework-reason"))
    case TestsPass =>
      if request.payload.buildTestsPassed then Move(Inspecting, None)
      else Refuse(PreconditionFailed("the Building test gate has not passed", "building-test-gate"))
    case RaiseSpecQuestion =>
      if Text.IsBlank(request.payload.question) then
        Refuse(PreconditionFailed("the specification question is missing", "specification-question"))
      else Move(Blocked, None)
    case BeginMerge =>
      if current.inspection != FULL_INSPECTION then
        Refuse(PreconditionFailed("inspection and final test gates are incomplete", "sealed-inspection-and-final-tests"))
      else MoveUnless(CandidateRejection(request, current), Merging)
    case MergeConflict =>
      if request.authorization.role == Reconciler then
        if ReconciliationIs(current.reconciliation, "conflict", "conflict") then Move(ReadyForBuilding, None)
        else Refuse(PreconditionFailed("the WMS has no matching Git conflict observation", "reconciliation-conflict-evidence"))
      else if current.reconciliation == NO_RECONCILIATION || ReconciliationIs(current.reconciliation, "conflict", "conflict") then
        Move(Building, None)
      else
        Refuse(PreconditionFailed("the WMS has contradictory Git reconciliation observations", "reconciliation-conflict-evidence"))
    case MergeNotApplied =>
      if ReconciliationIs(current.reconciliation, "not-applied", "none") then Move(ReadyForBuilding, None)
      else Refuse(PreconditionFailed("the WMS has no matching not-applied observation", "reconciliation-not-applied-evidence"))
    case RecordMerge =>
      if request.authorization.role == Reconciler then
        if && ReconciliationIs(current.reconciliation, "merge-recorded", "merged")
           && EnvelopeMatches(current.expectedMerge, current.reconciliation.envelope, current.version)
        then Move(Completed, None)
        else Refuse(PreconditionFailed("the WMS merge observation does not match the work-item contract", "reconciliation-merge-envelope"))
      else if EnvelopeMatches(current.expectedMerge, request.payload.mergeEnvelope, current.version) then Move(Completed, None)
      else Refuse(PreconditionFailed("the tested candidate and merge result do not match", "tested-merge-envelope"))
    case RecoverLease =>
      if current.lease.Some? && evaluation.time < current.lease.value.expiresAt then
        Refuse(PreconditionFailed("the execution lease has not expired", "expired-lease"))
      else if ReconciliationIs(current.reconciliation, "lease-recovered", "none") then Move(ReadyForBuilding, None)
      else Refuse(PreconditionFailed("lease recovery has no matching WMS reconciliation evidence", "lease-recovery-evidence"))
    case Abandon =>
      if request.payload.cancellationConfirmed && ReconciliationIs(current.reconciliation, "not-integrated", "none") then
        Move(Abandoned, None)
      else
        Refuse(PreconditionFailed("cancellation is not confirmed or Git integration is not ruled out", "not-integrated-reconciliation"))
    case _ =>
      Refuse(Unauthorized(request.authorization, request.operation, request.workItemId))
  }

  function MoveUnless(rejection: Option<Rejection>, to: State): (v: Verdict) {
    if rejection.Some? then Refuse(rejection.value) else Move(to, None)
  }

  function LiveFence(request: Request, current: WorkItem, now: Time): (r: Option<Rejection>)
    ensures r.None? <==>
            && current.lease.Some?
            && now < current.lease.value.expiresAt
            && current.lease.value.owner == request.authorization.subject
            && request.fencingToken == current.lease.value.token != NO_TOKEN
  {
    if current.lease.None? then Some(StaleFencingToken(FenceMissing, current.version))
    else if current.lease.value.expiresAt <= now then Some(StaleFencingToken(FenceExpired, current.version))
    else if current.lease.value.owner != request.authorization.subject then
      Some(StaleFencingToken(FenceOwnerMismatch, current.version))
    else if request.fencingToken == NO_TOKEN || request.fencingToken != current.lease.value.token then
      Some(StaleFencingToken(FenceStale, current.version))
    else None
  }

  /** Compare-and-swap on state and contract version. */
  function Expected(request: Request, before: StateVersion): (r: Option<Rejection>)
    ensures r.None? <==> request.expectedState == before.state && request.expectedVersion == Some(before.version)
  {
    if request.expectedState != before.state then Some(StaleState(request.expectedState, before.state))
    else if request.expectedVersion != Some(before.version) then Some(StaleContractVersion(request.expectedVersion, before.version))
    else None
  }

  function MutationPreconditions(request: Request, current: WorkItem, evaluation: EvaluationContext): (r: Option<Rejection>) {
    var binding :=
      if request.operation == ResolveBlock && evaluation.authority == Authoritative
      then ResolutionBinding(request, current, evaluation) else None;
    if binding.Some? then binding
    else if IsTerminal(current.state) then Some(AlreadyTerminal(current.state, current.version))
    else if request.operation == Claim && current.lease.Some? && evaluation.time < current.lease.value.expiresAt then
      Some(DuplicateClaim(current.state, current.version))
    else
      var stale := Expected(request, StateVersion(current.state, current.version));
      if stale.Some? then stale
      else if RequiresLiveFence(request.operation, request.authorization.role) then LiveFence(request, current, evaluation.time)
      else None
  }

  function AuthorizeRequest(request: Request, evaluation: EvaluationContext): (r: Option<Rejection>) {
    if evaluation.authority == Preflight then
      AuthorizePreflight(request.authorization, request.projectId, request.workItemId, request.payload.changeSetId,
                         request.references, evaluation.time)
    else
      AuthorizeLifecycle(request.authorization, request.operation, request.projectId, request.workItemId,
                         request.payload.changeSetId, request.references, evaluation.time)
  }

  function RejectionDecision(request: Request, authority: Authority, before: Option<StateVersion>, rejection: Rejection): (d: Decision) {
    Decision(Rejected, false, authority, request.authorization.policyVersion, request.operation, before, None, None, NO_TOKEN,
             Some(rejection))
  }

  /** The decision a verdict leads to, for the record version it was reached on. */
  function Decide(request: Request, evaluation: EvaluationContext, before: StateVersion, verdict: Verdict): (d: Decision)
    ensures d.outcome == Rejected ==> d.after.None?
  {
    var blank := RejectionDecision(request, evaluation.authority, Some(before), NotFound("")).(rejection := None);
    match verdict
    case Refuse(rejection) => blank.(rejection := Some(rejection))
    case Omit(reservation) => blank.(outcome := Omitted, reservation := Some(reservation))
    case Move(to, reserved) =>
      var issues := evaluation.authority == Authoritative && IssuesToken(request.operation, request.authorization.role, to);
      if issues && evaluation.nextToken == NO_TOKEN then
        blank.(reservation := reserved,
               rejection := Some(PreconditionFailed("the WMS did not provide a new fencing token", "fencing_token")))
      else
        blank.(outcome := Allowed,
               reservation := reserved,
               after := Some(StateVersion(to, before.version + 1)),
               tokenIssued := if issues then evaluation.nextToken else NO_TOKEN)
  }

  /** The decision for an authorized caller on a visible record. */
  function EvaluateItem(request: Request, item: WorkItem, evaluation: EvaluationContext): (d: Decision) {
    var before := StateVersion(item.state, item.version);
    var failed := MutationPreconditions(request, item, evaluation);
    if failed.Some? then RejectionDecision(request, evaluation.authority, Some(before), failed.value)
    else if !TransitionAllowed(request.operation, item.state) then
      RejectionDecision(request, evaluation.authority, Some(before), InvalidTransition(request.operation, item.state))
    else Decide(request, evaluation, before, EvaluateTransition(request, item, evaluation))
  }

  /** The decision for an authorized caller on a new materialization. */
  function EvaluateNew(request: Request, current: Option<WorkItem>, evaluation: EvaluationContext): (d: Decision) {
    var before := StateVersion(Initial, 0);
    if current.Some? then
      RejectionDecision(request, evaluation.authority, Some(before),
                        IdempotencyConflict("materialization-source", request.materializationKey))
    else if Expected(request, before).Some? then
      RejectionDecision(request, evaluation.authority, Some(before), Expected(request, before).value)
    else Decide(request, evaluation, before, EvaluateMaterialization(request, evaluation))
  }

  predicate Visible(request: Request, current: Option<WorkItem>) {
    current.Some? && current.value.projectId == request.projectId && current.value.id == request.workItemId
  }

  /** Authorization and visibility, in the order the rules check them; `None` lets the
      command through to its preconditions. */
  function Gate(request: Request, current: Option<WorkItem>, evaluation: EvaluationContext): (d: Option<Decision>)
    ensures d.Some? ==> d.value.outcome == Rejected && d.value.after.None? && d.value.tokenIssued == NO_TOKEN
    ensures d.None? ==> KnownLifecycleOperation(request.operation) && AuthorizeRequest(request, evaluation).None?
    ensures d.None? ==> request.operation == Materialize || Visible(request, current)
  {
    var action := if evaluation.authority == Preflight then LifecyclePreflight else request.operation;
    if !KnownLifecycleOperation(request.operation) then
      Some(RejectionDecision(request, evaluation.authority, None,
                             Unauthorized(request.authorization, request.operation, request.workItemId)))
    else if !ContextIsValid(request.authorization, request.projectId, request.workItemId, request.payload.changeSetId, evaluation.time) then
      Some(RejectionDecision(request, evaluation.authority, None, Unauthorized(request.authorization, action, request.workItemId)))
    else if request.operation != Materialize && !Visible(request, current) then
      Some(RejectionDecision(request, evaluation.authority, None, NotFound("work-item")))
    else if AuthorizeRequest(request, evaluation).Some? then
      var before :=
        if request.operation == Materialize then StateVersion(Initial, 0)
        else StateVersion(current.value.state, current.value.version);
      Some(RejectionDecision(request, evaluation.authority, Some(before), AuthorizeRequest(request, evaluation).value))
    else None
  }

  function Evaluate(request: Request, current: Option<WorkItem>, evaluation: EvaluationContext): (d: Decision) {
    var refused := Gate(request, current, evaluation);
    if refused.Some? then refused.value
    else if request.operation == Materialize then EvaluateNew(request, current, evaluation)
    else EvaluateItem(request, current.value, evaluation)
  }

  // ----- what an allowed decision comes with -----

  lemma TransitionShape(request: Request, item: WorkItem, evaluation: EvaluationContext)
    ensures !EvaluateTransition(request, item, evaluation).Omit?
  {
    hide NotReady, Text.IsBlank, CandidateRejection, EnvelopeMatches, ResolutionPreconditions;
  }

  lemma MaterializationShape(request: Request, evaluation: EvaluationContext)
    ensures EvaluateMaterialization(request, evaluation).Move? ==> EvaluateMaterialization(request, evaluation).reserved.Some?
    ensures !EvaluateMaterialization(request, evaluation).Refuse? ==>
              && request.materializationKey != ""
              && request.payload.workItem.Some?
              && TargetRejection(request, request.payload.workItem).None?
  {
    hide ContractFailure, Blocker, FirstIncomplete, SourceMergeRejection, SourceOf;
  }

  /** A decision that goes through names its result; materialization reserves its key for
      a record that did not exist, and any other command acts on a visible record; a
      resolve-block is bound to its submission and approval. */
  lemma AllowedShape(request: Request, current: Option<WorkItem>, evaluation: EvaluationContext)
    ensures var d := Evaluate(request, current, evaluation);
            && (d.outcome == Allowed ==> d.after.Some?)
            && (d.outcome == Rejected ==> d.after.None? && d.tokenIssued == NO_TOKEN)
            && (d.outcome == Omitted ==> request.operation == Materialize && d.after.None? && d.tokenIssued == NO_TOKEN)
            && (d.outcome != Rejected && request.operation == Materialize ==>
                  request.payload.workItem.Some? && d.reservation.Some? && current.None?)
            && (d.outcome != Rejected && request.operation != Materialize ==> Visible(request, current))
            && (d.outcome != Rejected && request.operation == ResolveBlock && evaluation.authority == Authoritative ==>
                  ResolutionBinding(request, current.value, evaluation).None?)
  {
    hide AuthorizeRequest, Gate, ResolutionBinding, EvaluateTransition, EvaluateMaterialization, LiveFence, LegalFrom;
    if Gate(request, current, evaluation).None? {
      if request.operation == Materialize {
        MaterializationShape(request, evaluation);
      } else {
        TransitionShape(request, current.value, evaluation);
      }
    }
  }
}
