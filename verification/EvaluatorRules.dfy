/** The decision tables of validation-rules/v1: for each command what has to hold for it to be
    allowed, and where it leads, in both directions. The tables are written out here, by state,
    role and field, and name none of the evaluator's own conditions. */
module EvaluatorRules {
  import opened Records
  import opened Authorization
  import opened Evaluator
  import Text

  // ----- readiness -----

  predicate ContractReady(r: Readiness) {
    r.contractComplete && r.sourceImmutable && r.specificationValidated && r.requirementReferencesValid && r.pipelineEntrySatisfied
  }

  /** Nothing is unresolved; a reason with an empty text counts as no reason at all. */
  predicate Unblocked(r: Readiness) {
    r.impactDispositioned && r.policyCompatible && (r.unresolvedReasons == [] || "" in r.unresolvedReasons)
  }

  lemma LeastIsEmpty(reasons: seq<string>)
    requires reasons != []
    ensures Text.Least(reasons) == "" <==> "" in reasons
  {
    if "" in reasons {
      var i :| 0 <= i < |reasons| && reasons[i] == "";
      Text.LeastIsLowerBound(reasons, i);
    }
  }

  lemma ContractExactly(r: Readiness)
    ensures ContractFailure(r) == "" <==> ContractReady(r)
  {
    if !ContractReady(r) {
      assert |ContractFailure(r)| > 0;
    }
  }

  lemma BlockerExactly(r: Readiness)
    ensures Blocker(r) == "" <==> Unblocked(r)
  {
    if r.unresolvedReasons != [] {
      LeastIsEmpty(r.unresolvedReasons);
    }
    hide Text.Least;
  }

  lemma ReadyExactly(r: Readiness)
    ensures ContractFailure(r) == "" <==> ContractReady(r)
    ensures Blocker(r) == "" <==> Unblocked(r)
    ensures ReadinessFailure(r) == "" <==> ContractReady(r) && Unblocked(r)
  {
    hide ContractFailure, Blocker, ContractReady, Unblocked;
    ContractExactly(r);
    BlockerExactly(r);
  }

  /** So a record can pass as ready with an unresolved reason on it: one with an empty text
      hides the others. */
  lemma EmptyReasonHidesOthers(r: Readiness)
    requires ContractReady(r) && r.impactDispositioned && r.policyCompatible
    ensures ReadinessFailure(r.(unresolvedReasons := ["open question"])) == "open question"
    ensures ReadinessFailure(r.(unresolvedReasons := ["open question", ""])) == ""
  {
    ReadyExactly(r.(unresolvedReasons := ["open question", ""]));
    assert "" in ["open question", ""];
  }

  predicate ReadyToBuild(r: Readiness, dependencies: seq<Dependency>) {
    ContractReady(r) && Unblocked(r) && forall d | d in dependencies :: d.state == Completed
  }

  lemma NotReadyExactly(r: Readiness, dependencies: seq<Dependency>)
    ensures NotReady(r, dependencies).None? <==> ReadyToBuild(r, dependencies)
  {
    ReadyExactly(r);
    hide ContractFailure, Blocker, ContractReady, Unblocked;
  }

  // ----- who may send what -----

  /** The roles a lifecycle command is open to. */
  function RolesFor(operation: Operation): (roles: set<Role>) {
    match operation
    case Abandon => {HumanMaintainer}
    case Materialize => {Materializer}
    case RefreshDependencies => {Materializer}
    case Revalidate => {Materializer}
    case ResolveBlock => {Materializer}
    case RecoverLease => {Reconciler}
    case MergeNotApplied => {Reconciler}
    case MergeConflict => {JobSite, Reconciler}
    case RecordMerge => {JobSite, Reconciler}
    case Claim => {JobSite}
    case RenewLease => {JobSite}
    case TestsPass => {JobSite}
    case RaiseSpecQuestion => {JobSite}
    case RefreshActive => {JobSite}
    case ReturnToBuilding => {JobSite}
    case BeginMerge => {JobSite}
    case _ => {}
  }

  /** A caller may send a command while its context lasts, in its project, for the record and
      the change set it is bound to, if it is bound to any, with the action and every reference
      granted by name. */
  ghost predicate MaySend(request: Request, now: Time) {
    var auth := request.authorization;
    && now != 0 && now < auth.expiresAt && auth.expiresAt != 0
    && auth.subject != "" && auth.policyVersion != ""
    && auth.projectId == request.projectId != ""
    && (auth.workItemId == "" || auth.workItemId == request.workItemId)
    && (auth.changeSetId == "" || auth.changeSetId == request.payload.changeSetId)
    && (forall action | action in auth.allowedActions :: !IsWildcardAction(action))
    && (forall ref | ref in auth.allowedRefs :: !IsWildcard(ref))
    && request.operation in auth.allowedActions && "project:" + request.projectId in auth.allowedRefs
    && (forall ref | ref in request.references :: ref in auth.allowedRefs)
    && auth.role in RolesFor(request.operation)
  }

  lemma SendersExactly(request: Request, evaluation: EvaluationContext)
    requires evaluation.authority == Authoritative && KnownLifecycleOperation(request.operation)
    ensures AuthorizeRequest(request, evaluation).None? <==> MaySend(request, evaluation.time)
    ensures MaySend(request, evaluation.time) ==>
              ContextIsValid(request.authorization, request.projectId, request.workItemId, request.payload.changeSetId, evaluation.time)
  {
    hide IsWildcard, RoleAllows, RolesFor;
    RolesExactly(request.authorization.role, request.operation);
  }

  lemma RolesExactly(role: Role, operation: Operation)
    requires KnownLifecycleOperation(operation)
    ensures RoleAllows(role, operation) <==> role in RolesFor(operation)
    ensures role in RolesFor(operation) ==> !role.OtherRole?
  {
  }

  /** The commands that are legal in a state. */
  function LegalIn(state: State): (operations: set<Operation>) {
    match state
    case Initial => {Materialize}
    case Waiting => {RefreshDependencies, Revalidate, Abandon}
    case ReadyForBuilding => {Revalidate, Claim, Abandon}
    case Building => {RenewLease, TestsPass, RaiseSpecQuestion, RefreshActive, RecoverLease, Abandon}
    case Inspecting => {RenewLease, RaiseSpecQuestion, RefreshActive, ReturnToBuilding, BeginMerge, RecoverLease, Abandon}
    case Blocked => {ResolveBlock, Abandon}
    case Merging => {MergeConflict, MergeNotApplied, RecordMerge}
    case _ => {}
  }

  lemma LegalExactly(operation: Operation, state: State)
    ensures TransitionAllowed(operation, state) <==> operation in LegalIn(state)
    ensures IsTerminal(state) ==> LegalIn(state) == {}
  {
  }

  // ----- commands on a record -----

  function ReadinessNow(item: WorkItem, evaluation: EvaluationContext): (r: Readiness) {
    match evaluation.refreshReadiness
    case Some(r) => r
    case None => item.readiness
  }

  function DependenciesNow(item: WorkItem, evaluation: EvaluationContext): (ds: seq<Dependency>) {
    match evaluation.refreshDependencies
    case Some(ds) => ds
    case None => item.dependencies
  }

  predicate RefreshedReady(item: WorkItem, evaluation: EvaluationContext) {
    ReadyToBuild(ReadinessNow(item, evaluation), DependenciesNow(item, evaluation))
  }

  predicate SeenInGit(item: WorkItem, status: string, mutation: string) {
    item.reconciliation.status == status && item.reconciliation.gitMutation == mutation
  }

  /** A merge of exactly the candidate that was expected, at this version of the contract. */
  predicate MergeOf(expected: Option<MergeEnvelope>, actual: Option<MergeEnvelope>, version: nat) {
    && expected.Some? && actual.Some? && CompleteCandidate(actual.value) && actual.value.mergeCommit != ""
    && actual.value.productTreeDigest == expected.value.productTreeDigest
    && actual.value.inspectionRunId == expected.value.inspectionRunId
    && actual.value.integrationHead == expected.value.integrationHead
    && actual.value.target == expected.value.target
    && actual.value.contractVersion == expected.value.contractVersion == version
  }

  predicate CompleteCandidate(envelope: MergeEnvelope) {
    envelope.productTreeDigest != "" && envelope.inspectionRunId != "" && envelope.integrationHead != "" && envelope.target != ""
  }

  /** A resolution can be applied: an added requirement once its planned work is completed, an
      out-of-scope answer once an Inspector has confirmed it, an impact amendment at once. */
  predicate Resolvable(submission: Submission) {
    || (submission.kind == "add-requirement" && submission.plannedDependencyComplete)
    || (submission.kind == "out-of-scope" && submission.inspectorConfirmed)
    || submission.kind == "impact-amendment"
  }

  /** The request names the active, pending submission of the record and the unused approval it
      was filed with, given to this principal for exactly this. */
  predicate BoundResolution(request: Request, item: WorkItem, evaluation: EvaluationContext) {
    var id, approvalId := request.payload.resolutionSubmission, request.payload.humanApprovalId;
    && id != NoSubmission && item.activeSubmission == id && id in evaluation.submissions && approvalId in evaluation.approvals
    && approvalId != "" && request.payload.approvalDigest != ""
    && var s, approval := evaluation.submissions[id], evaluation.approvals[approvalId];
       && s.id == id && s.workItemId == request.workItemId && s.status == Pending && s.kind == request.payload.resolutionKind
       && s.approvalId == approvalId && s.approvalDigest == request.payload.approvalDigest
       && s.approvedHumanSubject == approval.approvedSubject != ""
       && approval.status == Unused && evaluation.time < approval.expiresAt && approval.expiresAt != 0
       && approval.delegatedPrincipal == request.authorization.subject != ""
       && approval.action == ResolveBlock && approval.resolutionKind == s.kind
       && approval.projectId == request.projectId && approval.workItemId == request.workItemId && approval.requestId == 0
       && approval.changeSetId == s.changeSetId && approval.digest == ResolutionDigest(s.approvalDigest)
       && approval.expectedState == request.expectedState && approval.expectedVersion == request.expectedVersion
       && approval.policyVersion == request.authorization.policyVersion
  }

  lemma BindingExactly(request: Request, item: WorkItem, evaluation: EvaluationContext)
    ensures ResolutionBinding(request, item, evaluation).None? <==> BoundResolution(request, item, evaluation)
  {
  }

  /** The evidence a command needs beside being legal from the record's state. */
  predicate Evidence(request: Request, item: WorkItem, evaluation: EvaluationContext) {
    var byReconciler := request.authorization.role == Reconciler;
    match request.operation
    case RefreshDependencies => RefreshedReady(item, evaluation)
    case Revalidate =>
      var r := ReadinessNow(item, evaluation);
      !(ContractReady(r) && Unblocked(r))
    case ResolveBlock =>
      && request.payload.resolutionSubmission in evaluation.submissions
      && Resolvable(evaluation.submissions[request.payload.resolutionSubmission])
      && RefreshedReady(item, evaluation)
    case Claim => ReadyToBuild(item.readiness, item.dependencies)
    case RenewLease => true
    case TestsPass => request.payload.buildTestsPassed
    case RaiseSpecQuestion => exists c | c in request.payload.question :: !Text.IsSpace(c)
    case RefreshActive => true
    case ReturnToBuilding => request.payload.inContractDefect || request.payload.finalTestsFailed
    case BeginMerge =>
      && item.inspection.runSealed && item.inspection.findingsTerminal && item.inspection.finalTestsPassed
      && TestedCandidate(request.payload.mergeEnvelope, item)
    case MergeConflict =>
      || SeenInGit(item, "conflict", "conflict")
      || (!byReconciler && SeenInGit(item, "", "") && item.reconciliation.envelope.None?)
    case MergeNotApplied => SeenInGit(item, "not-applied", "none")
    case RecordMerge =>
      && (byReconciler ==> SeenInGit(item, "merge-recorded", "merged"))
      && MergeOf(item.expectedMerge, if byReconciler then item.reconciliation.envelope else request.payload.mergeEnvelope, item.version)
    case RecoverLease =>
      && (item.lease.Some? ==> item.lease.value.expiresAt <= evaluation.time)
      && SeenInGit(item, "lease-recovered", "none")
    case Abandon => request.payload.cancellationConfirmed && SeenInGit(item, "not-integrated", "none")
    case _ => false
  }

  /** The candidate a merge may begin with: complete, not merged, for the version it completes
      under, to the target the contract names, if it names one. */
  predicate TestedCandidate(envelope: Option<MergeEnvelope>, item: WorkItem) {
    && envelope.Some? && CompleteCandidate(envelope.value) && envelope.value.mergeCommit == ""
    && envelope.value.contractVersion == item.version + 1
    && (item.expectedMerge.Some? && item.expectedMerge.value.target != "" ==> envelope.value.target == item.expectedMerge.value.target)
  }

  /** Where a command that is allowed leads. */
  function Destination(request: Request, item: WorkItem, evaluation: EvaluationContext): (to: State) {
    match request.operation
    case RefreshDependencies => ReadyForBuilding
    case Revalidate => Blocked
    case ResolveBlock => ReadyForBuilding
    case Claim => Building
    case TestsPass => Inspecting
    case RaiseSpecQuestion => Blocked
    case RefreshActive => if RefreshedReady(item, evaluation) then Building else Blocked
    case ReturnToBuilding => Building
    case BeginMerge => Merging
    case MergeConflict => if request.authorization.role == Reconciler then ReadyForBuilding else Building
    case MergeNotApplied => ReadyForBuilding
    case RecordMerge => Completed
    case RecoverLease => ReadyForBuilding
    case Abandon => Abandoned
    case _ => item.state
  }

  lemma CandidateExactly(request: Request, item: WorkItem)
    ensures CandidateRejection(request, item).None? <==> TestedCandidate(request.payload.mergeEnvelope, item)
  {
  }

  lemma MergedExactly(expected: Option<MergeEnvelope>, actual: Option<MergeEnvelope>, version: nat)
    ensures EnvelopeMatches(expected, actual, version) <==> MergeOf(expected, actual, version)
  {
    if expected.Some? && actual.Some? {
      var a, b := actual.value.(mergeCommit := ""), expected.value.(mergeCommit := "");
      assert a == b <==>
          && a.productTreeDigest == b.productTreeDigest && a.inspectionRunId == b.inspectionRunId
          && a.integrationHead == b.integrationHead && a.target == b.target && a.contractVersion == b.contractVersion;
    }
  }

  lemma ResolvableExactly(request: Request, evaluation: EvaluationContext)
    requires evaluation.authority == Authoritative
    ensures ResolutionPreconditions(request, evaluation).None? <==>
            && request.payload.resolutionSubmission in evaluation.submissions
            && Resolvable(evaluation.submissions[request.payload.resolutionSubmission])
  {
  }

  /** A verdict that is as the tables say. */
  ghost predicate AsTabled(request: Request, item: WorkItem, evaluation: EvaluationContext) {
    var v := EvaluateTransition(request, item, evaluation);
    && (v.Move? <==> Evidence(request, item, evaluation))
    && (v.Move? ==> v.to == Destination(request, item, evaluation) && v.reserved.None?)
    && !v.Omit?
  }

  lemma PlanningExactly(request: Request, item: WorkItem, evaluation: EvaluationContext)
    requires request.operation in {RefreshDependencies, ResolveBlock, RefreshActive} && evaluation.authority == Authoritative
    ensures AsTabled(request, item, evaluation)
  {
    hide NotReady, ReadinessFailure, ReadyToBuild, ResolutionPreconditions, Resolvable;
    NotReadyExactly(EffectiveReadiness(item, evaluation), EffectiveDependencies(item, evaluation));
    ResolvableExactly(request, evaluation);
  }

  lemma RevalidateExactly(request: Request, item: WorkItem, evaluation: EvaluationContext)
    requires request.operation == Revalidate
    ensures AsTabled(request, item, evaluation)
  {
    hide ReadinessFailure, ContractReady, Unblocked, ContractFailure, Blocker;
    var r := EffectiveReadiness(item, evaluation);
    assert r == ReadinessNow(item, evaluation);
    assert ReadinessFailure(r) == "" <==> ContractReady(r) && Unblocked(r) by {
      ReadyExactly(r);
    }
    hide ReadinessNow, EffectiveReadiness;
  }

  lemma ClaimExactly(request: Request, item: WorkItem, evaluation: EvaluationContext)
    requires request.operation == Claim
    ensures AsTabled(request, item, evaluation)
  {
    hide NotReady, ReadyToBuild, ReadinessFailure, ResolutionPreconditions, EnvelopeMatches, CandidateRejection, ReconciliationIs, MergeOf,
         TestedCandidate, SeenInGit, Resolvable, RefreshedReady;
    NotReadyExactly(item.readiness, item.dependencies);
  }

  lemma ExecutionExactly(request: Request, item: WorkItem, evaluation: EvaluationContext)
    requires request.operation in {RenewLease, TestsPass, RaiseSpecQuestion, ReturnToBuilding, BeginMerge}
    ensures AsTabled(request, item, evaluation)
  {
    hide TestedCandidate, CandidateRejection;
    CandidateExactly(request, item);
  }

  lemma RecordMergeExactly(request: Request, item: WorkItem, evaluation: EvaluationContext)
    requires request.operation == RecordMerge
    ensures AsTabled(request, item, evaluation)
  {
    hide EnvelopeMatches, MergeOf;
    MergedExactly(item.expectedMerge, item.reconciliation.envelope, item.version);
    MergedExactly(item.expectedMerge, request.payload.mergeEnvelope, item.version);
  }

  lemma UnmergedExactly(request: Request, item: WorkItem, evaluation: EvaluationContext)
    requires request.operation in {MergeConflict, MergeNotApplied}
    ensures AsTabled(request, item, evaluation)
  {
  }

  lemma RecoveryExactly(request: Request, item: WorkItem, evaluation: EvaluationContext)
    requires request.operation in {RecoverLease, Abandon}
    ensures AsTabled(request, item, evaluation)
  {
  }

  lemma VerdictExactly(request: Request, item: WorkItem, evaluation: EvaluationContext)
    requires request.operation != Materialize && KnownLifecycleOperation(request.operation) && evaluation.authority == Authoritative
    ensures AsTabled(request, item, evaluation)
  {
    hide AsTabled;
    if request.operation in {RefreshDependencies, ResolveBlock, RefreshActive} {
      PlanningExactly(request, item, evaluation);
    } else if request.operation == Revalidate {
      RevalidateExactly(request, item, evaluation);
    } else if request.operation == Claim {
      ClaimExactly(request, item, evaluation);
    } else if request.operation in {RenewLease, TestsPass, RaiseSpecQuestion, ReturnToBuilding, BeginMerge} {
      ExecutionExactly(request, item, evaluation);
    } else if request.operation == RecordMerge {
      RecordMergeExactly(request, item, evaluation);
    } else if request.operation in {MergeConflict, MergeNotApplied} {
      UnmergedExactly(request, item, evaluation);
    } else {
      RecoveryExactly(request, item, evaluation);
    }
  }

  /** What every command on a record needs first. */
  ghost predicate Admitted(request: Request, item: WorkItem, evaluation: EvaluationContext) {
    && MaySend(request, evaluation.time)
    && item.projectId == request.projectId && item.id == request.workItemId
    && request.operation in LegalIn(item.state)
    && request.expectedState == item.state && request.expectedVersion == Some(item.version)
    && (request.operation == Claim ==> item.lease.None? || item.lease.value.expiresAt <= evaluation.time)
    && (request.operation == ResolveBlock ==> BoundResolution(request, item, evaluation))
    && (request.authorization.role == JobSite && request.operation != Claim ==>
          && item.lease.Some? && evaluation.time < item.lease.value.expiresAt
          && item.lease.value.owner == request.authorization.subject
          && request.fencingToken == item.lease.value.token != NO_TOKEN)
  }

  /** A command on a record is allowed exactly if it is admitted and has its evidence; it then
      leads where its table says, one version on. */
  lemma AllowedExactly(request: Request, item: WorkItem, evaluation: EvaluationContext)
    requires evaluation.authority == Authoritative && evaluation.nextToken != NO_TOKEN
    requires request.operation != Materialize && KnownLifecycleOperation(request.operation)
    ensures var d := Evaluate(request, Some(item), evaluation);
            && (d.outcome == Allowed <==> Admitted(request, item, evaluation) && Evidence(request, item, evaluation))
            && (d.outcome == Allowed ==> d.after == Some(StateVersion(Destination(request, item, evaluation), item.version + 1)))
            && d.outcome != Omitted
  {
    hide EvaluateTransition, Evidence, Destination, ResolutionBinding, BoundResolution, LegalFrom, LegalIn, ContextIsValid, MaySend,
         AuthorizeRequest, KnownLifecycleOperation, LiveFence;
    VerdictExactly(request, item, evaluation);
    SendersExactly(request, evaluation);
    LegalExactly(request.operation, item.state);
    BindingExactly(request, item, evaluation);
    FencedExactly(request, evaluation);
  }

  lemma FencedExactly(request: Request, evaluation: EvaluationContext)
    requires KnownLifecycleOperation(request.operation)
    ensures MaySend(request, evaluation.time) ==>
              (RequiresLiveFence(request.operation, request.authorization.role) <==>
                 request.authorization.role == JobSite && request.operation != Claim)
  {
    hide IsWildcard;
  }

  // ----- materialization -----

  /** What a materialization needs. */
  ghost predicate MayMaterialize(request: Request, current: Option<WorkItem>, evaluation: EvaluationContext) {
    && MaySend(request, evaluation.time)
    && current.None?
    && request.expectedState == Initial && request.expectedVersion == Some(0)
    && request.materializationKey != ""
    && request.payload.workItem.Some?
    && var item := request.payload.workItem.value;
       var source := CanonicalSource(item, request.payload.changeType);
       && item.id == request.workItemId != "" && item.projectId == request.projectId
       && source.changeType in {"undefined", "changes", "contradicts"}
       && ContractReady(source.readiness)
       && (source.expectedMerge.Some? ==> source.expectedMerge.value.(target := "") == MergeEnvelope("", "", "", "", 0, ""))
  }

  function MaterializedState(request: Request, evaluation: EvaluationContext): (to: State)
    requires request.payload.workItem.Some?
  {
    var source := CanonicalSource(request.payload.workItem.value, request.payload.changeType);
    if !Unblocked(source.readiness) then Blocked
    else if exists d | d in DependenciesNow(source, evaluation) :: d.state != Completed then Waiting
    else ReadyForBuilding
  }

  lemma SourceExactly(request: Request, evaluation: EvaluationContext)
    requires request.payload.workItem.Some?
    ensures var v := EvaluateMaterialization(request, evaluation);
            var item := request.payload.workItem.value;
            var source := CanonicalSource(item, request.payload.changeType);
            && (!v.Refuse? <==>
                  && request.materializationKey != ""
                  && item.id == request.workItemId != "" && item.projectId == request.projectId
                  && source.changeType in {"undefined", "changes", "contradicts"}
                  && ContractReady(source.readiness)
                  && (source.expectedMerge.Some? ==> source.expectedMerge.value.(target := "") == MergeEnvelope("", "", "", "", 0, "")))
            && (v.Omit? ==> !source.implementationRequired)
            && (v.Move? ==> source.implementationRequired && v.to == MaterializedState(request, evaluation))
  {
    var source := CanonicalSource(request.payload.workItem.value, request.payload.changeType);
    ReadyExactly(source.readiness);
    hide ContractFailure, Blocker, ContractReady, Unblocked, FirstIncomplete, SourceOf, CanonicalSource;
  }

  /** A materialization is refused exactly if something it needs is missing; otherwise it is
      omitted exactly if no implementation is required, and leads where its table says. */
  lemma MaterializedExactly(request: Request, current: Option<WorkItem>, evaluation: EvaluationContext)
    requires evaluation.authority == Authoritative && evaluation.nextToken != NO_TOKEN
    requires request.operation == Materialize
    ensures var d := Evaluate(request, current, evaluation);
            && (d.outcome != Rejected <==> MayMaterialize(request, current, evaluation))
            && (d.outcome != Rejected ==>
                  var source := CanonicalSource(request.payload.workItem.value, request.payload.changeType);
                  && (d.outcome == Omitted <==> !source.implementationRequired)
                  && (d.outcome == Allowed ==> d.after == Some(StateVersion(MaterializedState(request, evaluation), 1))))
  {
    hide EvaluateMaterialization, LegalFrom, ContextIsValid, CanonicalSource, ContractReady, Unblocked, MaterializedState, MaySend,
         AuthorizeRequest;
    SendersExactly(request, evaluation);
    if request.payload.workItem.Some? {
      SourceExactly(request, evaluation);
    } else {
      MaterializationNeedsItem(request, evaluation);
    }
  }

  lemma MaterializationNeedsItem(request: Request, evaluation: EvaluationContext)
    requires request.payload.workItem.None?
    ensures EvaluateMaterialization(request, evaluation).Refuse?
  {
    hide ContractFailure, Blocker, FirstIncomplete, SourceOf, CanonicalSource, SourceMergeRejection;
  }
}
