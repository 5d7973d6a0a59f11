/** The in-memory work-management system itself: an object that updates its maps, log and
    counters in place. Each method is proved to take the store and to answer as the
    functions of `MemoryStore` and `MemoryRequests` say. */
module MemorySystem {
  import opened Records
  import opened Authorization
  import opened Evaluator
  import opened MemoryStore
  import opened MemoryRequests
  import opened MemoryProtocol
  import opened MemorySteps
  import opened MemoryRequestSteps
  import opened MemoryRuns
  import Text

  // ----- changing one record -----

  function StartLease(cfg: Config, item: WorkItem, owner: string, token: Token, now: Time): (r: WorkItem) {
    item.(owner := owner, lease := Some(Lease(owner, token, now + cfg.leaseDuration)))
  }

  function ReleaseLease(item: WorkItem): (r: WorkItem) {
    item.(owner := "", lease := None)
  }

  function ApplyRefresh(item: WorkItem, evaluation: EvaluationContext): (r: WorkItem) {
    item.(
      readiness := if evaluation.refreshReadiness.Some? then SortedReasons(evaluation.refreshReadiness.value) else item.readiness,
      dependencies := if evaluation.refreshDependencies.Some? then evaluation.refreshDependencies.value else item.dependencies)
  }

  /** A reason to block read off the refreshed record is the one the evidence gave. */
  lemma RefreshedReason(item: WorkItem, refreshed: WorkItem, evaluation: EvaluationContext)
    requires refreshed.readiness == ApplyRefresh(item, evaluation).readiness
    requires refreshed.dependencies == ApplyRefresh(item, evaluation).dependencies
    ensures EffectiveReadiness(refreshed, evaluation) == EffectiveReadiness(item, evaluation)
    ensures RefreshedBlockReason(refreshed, evaluation) == RefreshedBlockReason(item, evaluation)
  {
    hide SortedReasons, ReadinessFailure, FirstIncomplete;
  }

  /** The commands that take in refreshed evidence, on a record already in its new state. */
  method ApplyRefreshCommand(cfg: Config, current: WorkItem, request: Request, token: Token, evaluation: EvaluationContext)
    returns (item: WorkItem)
    requires RefreshesDependencies(request.operation)
    ensures item == ApplyRefresh(current, evaluation).(
              owner := OwnerAfter(current, request, current.state),
              lease := LeaseAfter(cfg, current, request, current.state, token, evaluation.time),
              blockReason := BlockReasonAfter(current, request, current.state, evaluation))
  {
    hide SortedReasons, ReadinessFailure, RefreshedBlockReason, EffectiveReadiness;
    item := current;
    match request.operation {
      case Revalidate =>
        item := ApplyRefresh(item, evaluation);
        RefreshedReason(current, item, evaluation);
        item := item.(blockReason := ReadinessFailure(EffectiveReadiness(item, evaluation)));
      case RefreshDependencies =>
        item := ApplyRefresh(item, evaluation);
      case RefreshActive =>
        item := ApplyRefresh(item, evaluation);
        if item.state == Building {
          item := StartLease(cfg, item, request.authorization.subject, token, evaluation.time);
        } else {
          RefreshedReason(current, item, evaluation);
          item := item.(blockReason := RefreshedBlockReason(item, evaluation));
          item := ReleaseLease(item);
        }
      case ResolveBlock =>
        item := item.(blockReason := "");
        item := ApplyRefresh(item, evaluation);
    }
  }

  /** The other commands. */
  method ApplyWorkCommand(cfg: Config, current: WorkItem, request: Request, token: Token, evaluation: EvaluationContext)
    returns (item: WorkItem)
    requires !RefreshesDependencies(request.operation)
    ensures item == current.(
              owner := OwnerAfter(current, request, current.state),
              lease := LeaseAfter(cfg, current, request, current.state, token, evaluation.time),
              reconciliation := ReconciliationAfter(current, request),
              blockReason := BlockReasonAfter(current, request, current.state, evaluation),
              expectedMerge := if request.operation == BeginMerge then request.payload.mergeEnvelope else current.expectedMerge)
  {
    hide ReadinessFailure, RefreshedBlockReason, EffectiveReadiness;
    var subject := request.authorization.subject;
    item := current;
    match request.operation {
      case Claim =>
        item := item.(reconciliation := NO_RECONCILIATION);
        item := StartLease(cfg, item, subject, token, evaluation.time);
      case RenewLease =>
        if item.lease.Some? {
          item := item.(lease := Some(item.lease.value.(expiresAt := evaluation.time + cfg.leaseDuration)));
        }
      case RaiseSpecQuestion =>
        item := item.(blockReason := request.payload.question);
        item := ReleaseLease(item);
      case ReturnToBuilding =>
        item := item.(blockReason := "");
        item := StartLease(cfg, item, subject, token, evaluation.time);
      case BeginMerge =>
        item := item.(expectedMerge := request.payload.mergeEnvelope);
      case MergeConflict =>
        item := item.(reconciliation := NO_RECONCILIATION);
        if item.state == Building {
          item := StartLease(cfg, item, subject, token, evaluation.time);
        } else {
          item := item.(blockReason := "");
          item := ReleaseLease(item);
        }
      case MergeNotApplied =>
        item := item.(reconciliation := NO_RECONCILIATION, blockReason := "");
        item := ReleaseLease(item);
      case RecoverLease =>
        item := item.(reconciliation := NO_RECONCILIATION, blockReason := "");
        item := ReleaseLease(item);
      case RecordMerge =>
        var envelope := request.payload.mergeEnvelope;
        if request.authorization.role == Reconciler {
          envelope := item.reconciliation.envelope;
        }
        item := item.(reconciliation := Reconciliation("merge-recorded", "merged", envelope), blockReason := "");
        item := ReleaseLease(item);
      case Abandon =>
        item := item.(blockReason := "");
        item := ReleaseLease(item);
      case _ =>
    }
  }

  /** What a command does to a record does not depend on the state it had. */
  lemma MovesAlike(cfg: Config, a: WorkItem, b: WorkItem, request: Request, token: Token, evaluation: EvaluationContext)
    requires b == a.(state := b.state, version := b.version, inspection := b.inspection)
    ensures OwnerAfter(b, request, b.state) == OwnerAfter(a, request, b.state)
    ensures LeaseAfter(cfg, b, request, b.state, token, evaluation.time) == LeaseAfter(cfg, a, request, b.state, token, evaluation.time)
    ensures ReconciliationAfter(b, request) == ReconciliationAfter(a, request)
    ensures BlockReasonAfter(b, request, b.state, evaluation) == BlockReasonAfter(a, request, b.state, evaluation)
    ensures RefreshesDependencies(request.operation) ==>
              ReconciliationAfter(a, request) == a.reconciliation && request.operation != BeginMerge
  {
    hide ReadinessFailure, FirstIncomplete;
  }

  /** The record is changed step by step, command by command; the outcome is the
      field-by-field description. */
  method ApplyLifecycleMutation(
    cfg: Config, current: WorkItem, request: Request, after: StateVersion, token: Token, evaluation: EvaluationContext
  ) returns (item: WorkItem)
    ensures item == Moved(cfg, current, request, after, token, evaluation)
  {
    item := current.(state := after.state, version := after.version);
    if item.state !in {Inspecting, Merging, Completed, Abandoned} {
      item := item.(inspection := NO_INSPECTION);
    }
    MovesAlike(cfg, current, item, request, token, evaluation);
    hide OwnerAfter, LeaseAfter, ReconciliationAfter, BlockReasonAfter, SortedReasons, RefreshesDependencies;
    if RefreshesDependencies(request.operation) {
      item := ApplyRefreshCommand(cfg, item, request, token, evaluation);
    } else {
      item := ApplyWorkCommand(cfg, item, request, token, evaluation);
    }
  }

  /** A materialized record takes the source contract and starts with no evidence. */
  method NewRecord(request: Request, after: StateVersion, evaluation: EvaluationContext) returns (item: WorkItem)
    requires request.payload.workItem.Some?
    ensures item == NewItem(request, after, evaluation)
  {
    hide ReadinessFailure, CanonicalSource;
    item := CanonicalSource(request.payload.workItem.value, request.payload.changeType);
    item := item.(state := after.state, version := after.version);
    item := item.(materializationKey := request.materializationKey, owner := "", lease := None);
    if evaluation.refreshDependencies.Some? {
      item := item.(dependencies := evaluation.refreshDependencies.value);
    }
    item := item.(reconciliation := NO_RECONCILIATION, inspection := NO_INSPECTION);
    if item.state == Blocked {
      item := item.(blockReason := ReadinessFailure(item.readiness));
    }
  }

  lemma AdvancedKeepsProtocol(
    cfg: Config, st: Store, request: Request, item: WorkItem, decision: Decision, evaluation: EvaluationContext
  )
    requires decision.after.Some?
    ensures SameProtocol(st, Advanced(cfg, st, request, item, decision, evaluation))
  {
    hide Moved;
  }

  class Memory {
    const cfg: Config
    var workItems: map<string, WorkItem>
    var requests: map<RequestId, RequestRecord>
    var changeSets: map<string, ChangeSet>
    var approvals: map<string, Approval>
    var submissions: map<SubmissionId, Submission>
    var activeSubmissions: map<string, SubmissionId>
    var idempotency: map<string, IdempotencyEntry>
    var materializations: map<string, MaterializationEntry>
    var semanticRequests: map<SemanticKey, RequestId>
    var observedReadiness: map<string, Readiness>
    var events: seq<AuditEvent>
    var nextRequestId: nat
    var nextResolutionId: nat
    var nextAcknowledgementId: nat
    var resolutionRevisions: map<string, nat>
    var nextToken: nat

    function Contents(): (st: Store)
      reads this
    {
      Store(workItems, requests, changeSets, approvals, submissions, activeSubmissions, idempotency, materializations,
            semanticRequests, observedReadiness, events, nextRequestId, nextResolutionId, nextAcknowledgementId,
            resolutionRevisions, nextToken)
    }

    ghost predicate Valid()
      reads this
    {
      Inv(cfg, Contents())
    }

    constructor (cfg: Config)
      ensures this.cfg == cfg && Contents() == EMPTY && Valid()
    {
      this.cfg := cfg;
      workItems, requests, changeSets, approvals := map[], map[], map[], map[];
      submissions, activeSubmissions, idempotency, materializations := map[], map[], map[], map[];
      semanticRequests, observedReadiness, events, resolutionRevisions := map[], map[], [], map[];
      nextRequestId, nextResolutionId, nextAcknowledgementId, nextToken := 0, 0, 0, 0;
      new;
      hide Inv;
      EveryRunKeeps(cfg, []);
    }

    // ----- lifecycle commands -----

    method ObservedDependencies(item: WorkItem) returns (dependencies: seq<Dependency>)
      ensures dependencies == LiveDependencies(cfg, Contents(), item)
    {
      dependencies := [];
      for i := 0 to |item.dependencies|
        invariant |dependencies| == i
        invariant forall k | 0 <= k < i :: dependencies[k] == Live(cfg, Contents(), item.dependencies[k].id)
      {
        var id := item.dependencies[i].id;
        var state := Initial;
        if id in workItems && workItems[id].projectId == cfg.projectId {
          state := workItems[id].state;
        }
        dependencies := dependencies + [Dependency(id, state)];
      }
    }

    method RememberIdempotency(key: string, fingerprint: Fingerprint, result: Result)
      modifies this`idempotency
      ensures Contents() == Remember(old(Contents()), key, fingerprint, result)
    {
      idempotency := idempotency[key := IdempotencyEntry(fingerprint, result)];
    }

    method ConsumeResolutionApproval(request: Request)
      requires request.payload.humanApprovalId in approvals && request.payload.resolutionSubmission in submissions
      modifies this`approvals, this`submissions, this`activeSubmissions
      ensures Contents() == ResolutionSpent(old(Contents()), request)
    {
      var approval := approvals[request.payload.humanApprovalId];
      approvals := approvals[request.payload.humanApprovalId := approval.(status := Consumed)];
      var submission := submissions[request.payload.resolutionSubmission];
      submission := submission.(status := SubmissionConsumed);
      submissions := submissions[submission.id := submission];
      activeSubmissions := activeSubmissions[request.workItemId := NoSubmission];
    }

    /** Answers from a recorded key or a bound materialization key, if there is one. */
    method ReplayLifecycleRequest(request: Request) returns (handled: bool, result: Result)
      modifies this`idempotency
      ensures handled == ReplayRoute(old(Contents()), request).Some?
      ensures handled ==> result == ReplayRoute(old(Contents()), request).value.result
      ensures Contents() ==
              if handled && ReplayRoute(old(Contents()), request).value.Freeze?
              then Remember(old(Contents()), request.idempotencyKey, FingerprintOf(request), result) else old(Contents())
    {
      hide FingerprintOf, SourceOf, TargetRejection, SourceMergeRejection, MarkReplayed;
      handled, result := false, BlankResult(request.operation);
      var key := request.idempotencyKey;
      if key in idempotency {
        handled := true;
        if idempotency[key].fingerprint == FingerprintOf(request) {
          result := MarkReplayed(idempotency[key].result);
        } else {
          result := RefusedDecision(request, IdempotencyConflict("request-fingerprint", key));
        }
      } else if request.operation == Materialize && request.payload.workItem.Some? && request.materializationKey in materializations {
        handled := true;
        var entry := materializations[request.materializationKey];
        var target := TargetRejection(request, request.payload.workItem);
        var source := CanonicalSource(request.payload.workItem.value, request.payload.changeType);
        if target.Some? {
          result := RefusedDecision(request, target.value);
        } else if SourceMergeRejection(source).Some? {
          result := RefusedDecision(request, SourceMergeRejection(source).value);
        } else if SourceOf(source) != entry.source {
          result := RefusedDecision(request, IdempotencyConflict("materialization-source", request.materializationKey));
        } else {
          result := MarkReplayed(entry.result);
        }
        RememberIdempotency(key, FingerprintOf(request), result);
      }
    }

    method CommitMaterialization(request: Request, decision: Decision, evaluation: EvaluationContext) returns (result: Result)
      requires request.payload.workItem.Some? && decision.reservation.Some? && decision.outcome != Rejected
      requires if decision.outcome == Allowed then decision.after.Some? else decision.tokenIssued == NO_TOKEN
      modifies this`workItems, this`events, this`nextToken, this`materializations
      ensures Contents() == Materialized(old(Contents()), request, decision, evaluation)
      ensures result == MaterializeResult(request, decision, evaluation)
    {
      hide ResultOfDecision, NewItem;
      result := ResultOfDecision(request.operation, decision);
      if decision.outcome == Allowed {
        var item := NewRecord(request, decision.after.value, evaluation);
        workItems := workItems[item.id := item];
        result := result.(workItemId := item.id, workItemState := item.state, contractVersion := item.version, item := Some(item));
        nextToken := nextToken + if decision.tokenIssued != NO_TOKEN then 1 else 0;
      } else {
        result := result.(submission := "omitted");
      }
      events := events + [LifecycleEvent(Contents(), request, decision)];
      materializations := materializations[request.materializationKey := MaterializationEntry(decision.reservation.value.source, result)];
    }

    method CommitMove(request: Request, item: WorkItem, decision: Decision, evaluation: EvaluationContext) returns (updated: WorkItem)
      requires decision.after.Some?
      modifies this`workItems, this`events, this`nextToken
      ensures Contents() == Advanced(cfg, old(Contents()), request, item, decision, evaluation)
      ensures updated == Moved(cfg, item, request, decision.after.value, decision.tokenIssued, evaluation)
    {
      hide Moved;
      updated := ApplyLifecycleMutation(cfg, item, request, decision.after.value, decision.tokenIssued, evaluation);
      workItems := workItems[updated.id := updated];
      nextToken := nextToken + if decision.tokenIssued != NO_TOKEN then 1 else 0;
      events := events + [LifecycleEvent(Contents(), request, decision)];
    }

    /** Evaluates a command and commits what it decides. */
    method ApplyLifecycleRequest(request: Request, current: Option<WorkItem>, evaluation: EvaluationContext, ghost now: Time)
      returns (result: Result)
      requires current == CurrentItem(Contents(), request) && evaluation == RefreshedEvaluation(cfg, Contents(), now, request)
      modifies this
      ensures result == Performed(cfg, old(Contents()), now, request).1
      ensures Contents() == Remember(Performed(cfg, old(Contents()), now, request).0, request.idempotencyKey, FingerprintOf(request), result)
    {
      ghost var st := Contents();
      hide Evaluate, FingerprintOf, CurrentItem, RefreshedEvaluation, ResultOfDecision, Moved, Materialized, MaterializeResult, Advanced,
           ResolutionBinding, ResolutionSpent;
      var decision := Evaluate(request, current, evaluation);
      AllowedShape(request, current, evaluation);
      if decision.outcome == Rejected {
        result := ResultOfDecision(request.operation, decision);
        if request.operation == ResolveBlock && request.payload.humanApprovalId != "" && request.payload.humanApprovalId in approvals {
          result := result.(approvalStatus := approvals[request.payload.humanApprovalId].status);
        }
      } else if request.operation == Materialize {
        result := CommitMaterialization(request, decision, evaluation);
      } else {
        var updated := CommitMove(request, current.value, decision, evaluation);
        result := ResultOfDecision(request.operation, decision);
        result := result.(workItemId := updated.id, workItemState := updated.state, contractVersion := updated.version);
        if request.operation == ResolveBlock {
          SpendableResolution(cfg, st, now, request);
          AdvancedKeepsProtocol(cfg, st, request, current.value, decision, evaluation);
          ConsumeResolutionApproval(request);
          result := result.(approvalStatus := Consumed);
        }
      }
      RememberIdempotency(request.idempotencyKey, FingerprintOf(request), result);
    }

    /** An authorized command under a key: answered from the record, or performed. */
    method AdmitLifecycleRequest(request: Request, current: Option<WorkItem>, given: EvaluationContext, now: Time) returns (result: Result)
      requires current == CurrentItem(Contents(), request)
      requires given == BaseEvaluation(Contents(), now).(refreshDependencies := given.refreshDependencies)
      requires given.refreshDependencies ==
               if request.operation == Materialize && request.payload.workItem.Some?
               then Some(LiveDependencies(cfg, Contents(), request.payload.workItem.value)) else None
      modifies this
      ensures result == Settle(cfg, old(Contents()), now, Admitted(cfg, old(Contents()), now, request)).1
      ensures Contents() == Settle(cfg, old(Contents()), now, Admitted(cfg, old(Contents()), now, request)).0
    {
      hide FingerprintOf, SubmissionSnapshot, LiveDependencies, Performed, ReplayRoute, Evaluate;
      var handled, replay := ReplayLifecycleRequest(request);
      if handled {
        return replay;
      }
      var evaluation := given;
      if current.Some? && (RefreshesDependencies(request.operation) || request.operation == Materialize) {
        var dependencies := ObservedDependencies(current.value);
        evaluation := evaluation.(refreshDependencies := Some(dependencies));
      }
      if current.Some? && RefreshesDependencies(request.operation) && request.workItemId in observedReadiness {
        evaluation := evaluation.(refreshReadiness := Some(observedReadiness[request.workItemId]));
      }
      result := ApplyLifecycleRequest(request, current, evaluation, now);
    }

    /** A command on a record that does not exist: its refusal is recorded for a caller who
        could have given it. */
    method RefuseMissing(request: Request, call: Call, evaluation: EvaluationContext, authorized: bool) returns (result: Result)
      modifies this`idempotency
      ensures (Contents(), result) == Settle(cfg, old(Contents()), evaluation.time, Missing(old(Contents()), call, request, evaluation, authorized))
    {
      hide FingerprintOf, ReplayRoute, Evaluate, ResultOfDecision;
      result := ResultOfDecision(call.operation, Evaluate(request, None, evaluation));
      if authorized && request.idempotencyKey != "" {
        var handled, replay := ReplayLifecycleRequest(request);
        if handled {
          return replay;
        }
        RememberIdempotency(request.idempotencyKey, FingerprintOf(request), result);
      }
    }

    /** A lifecycle call: visibility and authorization, then the record of its key, then the
        command. */
    method RunLifecycle(now: Time, call: Call, auth: AuthorizationContext) returns (result: Result)
      modifies this
      ensures result == ExecuteLifecycle(cfg, old(Contents()), now, call, auth).1
      ensures Contents() == ExecuteLifecycle(cfg, old(Contents()), now, call, auth).0
    {
      ghost var st := Contents();
      hide Settle, Admitted, Missing, Evaluate, FingerprintOf, Normalize, SubmissionSnapshot, LiveDependencies, ResultOfDecision, Performed,
           ContextIsValid, AuthorizeLifecycle, ReplayRoute, RouteOf, ExecuteLifecycle, BaseEvaluation, RefusedDecision, RefusedResult,
           CurrentItem;
      RoutesTaken(cfg, st, now, call, auth);
      BaseFacts(st, now);
      if !call.payload.LifecyclePayload? {
        return RefusedResult(call.operation, InvalidRequest("payload"));
      }
      var request := Normalize(cfg, Contents(), call, auth, call.payload.payload);
      var evaluation := BaseEvaluation(Contents(), now);
      if !ContextIsValid(auth, request.projectId, request.workItemId, request.payload.changeSetId, now) {
        return ResultOfDecision(call.operation, Evaluate(request, None, evaluation));
      }
      var unauthorized := AuthorizeLifecycle(auth, request.operation, request.projectId, request.workItemId, request.payload.changeSetId,
                                             request.references, now);
      var current := CurrentItem(Contents(), request);
      if request.operation == Materialize {
        if request.payload.workItem.Some? {
          var dependencies := ObservedDependencies(request.payload.workItem.value);
          evaluation := evaluation.(refreshDependencies := Some(dependencies));
        }
      } else if current.None? {
        result := RefuseMissing(request, call, evaluation, Authorized(call, request, now));
        return;
      }
      if unauthorized.Some? {
        UnauthorizedAlike(request, current, evaluation, BaseEvaluation(st, now));
        return ResultOfDecision(call.operation, Evaluate(request, current, evaluation));
      }
      if call.policyVersion != "" && call.policyVersion != auth.policyVersion {
        return RefusedDecision(request, UnauthorizedAction(call.operation, if call.workItemId != "" then "work-item" else "project",
                                                           auth.policyVersion));
      }
      if request.idempotencyKey == "" {
        return RefusedResult(call.operation, InvalidRequest("idempotency_key"));
      }
      result := AdmitLifecycleRequest(request, current, evaluation, now);
    }

    // ----- requests -----

    method RunCreate(call: Call, auth: AuthorizationContext) returns (result: Result)
      modifies this`nextRequestId, this`requests, this`semanticRequests, this`events
      ensures (Contents(), result) == CreateRequest(cfg, old(Contents()), call, auth)
    {
      hide Text.IsBlank, SemanticKeyOf, RefusedResult, WithRequest;
      if !call.payload.CreatePayload? {
        return RefusedResult(call.operation, InvalidRequest("payload"));
      }
      var p := call.payload;
      if Text.IsBlank(p.intent) || Text.IsBlank(p.rationale) {
        return RefusedResult(call.operation, InvalidRequest("intent/rationale"));
      }
      var key := SemanticKeyOf(cfg, p.intent, p.interfaces, p.scopes);
      if key in semanticRequests {
        return RefusedResult(call.operation, DuplicateRequest(semanticRequests[key]));
      }
      result := CommitCreate(call, auth, key);
    }

    method CommitCreate(call: Call, auth: AuthorizationContext, key: SemanticKey) returns (result: Result)
      requires call.payload.CreatePayload?
      requires key == SemanticKeyOf(cfg, call.payload.intent, call.payload.interfaces, call.payload.scopes)
      modifies this`nextRequestId, this`requests, this`semanticRequests, this`events
      ensures (Contents(), result) == WithRequest(cfg, old(Contents()), call, auth)
    {
      hide SemanticKeyOf, Text.Trim, Text.SortedUnique, RequestApplied, RequestEvent;
      var p := call.payload;
      var interfaces := Text.SortedUniqueLoop(p.interfaces);
      var scopes := Text.SortedUniqueLoop(p.scopes);
      nextRequestId := nextRequestId + 1;
      var request := RequestRecord(nextRequestId, Text.Trim(p.intent), Text.Trim(p.rationale), auth.subject, "", interfaces, scopes, "",
                                   "unrefined", "", [], "", "", 1);
      requests := requests[request.id := request];
      semanticRequests := semanticRequests[key := request.id];
      events := events + [RequestEvent(call, auth, "", request.id, "")];
      result := RequestApplied(call, request);
    }

    method CheckRelationships(relationships: seq<Relationship>, self: RequestId) returns (rejection: Option<Rejection>)
      ensures rejection == RelationshipsRejection(relationships, requests, self)
    {
      var seen: set<Relationship> := {};
      for i := 0 to |relationships|
        invariant seen == set r | r in relationships[..i]
        invariant RelationshipsRejection(relationships[..i], requests, self).None?
      {
        assert relationships[..i + 1][..i] == relationships[..i];
        var r := relationships[i];
        rejection :=
          if r.target == 0 || r.target == self || !ValidRelationshipKind(r.kind) then Some(InvalidRequest("relationships"))
          else if r.target !in requests then Some(NotFound("request"))
          else if r in seen then Some(InvalidRequest("relationships"))
          else None;
        assert rejection == RelationshipsRejection(relationships[..i + 1], requests, self);
        if rejection.Some? {
          FirstRejectionStays(relationships, requests, self, i + 1);
          return;
        }
        seen := seen + {r};
      }
      assert relationships[..|relationships|] == relationships;
      rejection := None;
    }

    method CommitRefinement(call: Call, auth: AuthorizationContext, approvalId: string, refined: RequestRecord) returns (result: Result)
      requires call.requestId in requests && approvalId in approvals
      modifies this`requests, this`semanticRequests, this`approvals, this`events
      ensures (Contents(), result) == WithRefinement(cfg, old(Contents()), call, auth, approvalId, refined)
    {
      hide KeyOf, RequestApplied, RequestEvent;
      var priorKey, nextKey, approval := KeyOf(cfg, requests[call.requestId]), KeyOf(cfg, refined), approvals[approvalId];
      var stored := refined.(revision := refined.revision + 1);
      var index := semanticRequests;
      if priorKey != nextKey {
        index := index - {priorKey};
      }
      index := index[nextKey := stored.id];
      assert index == (semanticRequests - {priorKey})[nextKey := stored.id] by {
        Reindexed(semanticRequests, priorKey, nextKey, stored.id);
      }
      requests, semanticRequests := requests[stored.id := stored], index;
      approvals := approvals[approvalId := approval.(status := Consumed)];
      events := events + [RequestEvent(call, auth, approval.approvedSubject, stored.id, "")];
      result := RequestApplied(call, stored).(approvalStatus := Consumed);
    }

    method RunRefine(now: Time, call: Call, auth: AuthorizationContext) returns (result: Result)
      modifies this`requests, this`semanticRequests, this`approvals, this`events
      ensures (Contents(), result) == RefineRequest(cfg, old(Contents()), now, call, auth)
    {
      hide RefinementFieldRejection, RefineRequirement, ValidateApproval, RefusedResult, ApprovalRefused, MemoryRequests.Target,
           StaleRevision, RefineApproved;
      var refused := MemoryRequests.Target(Contents(), call);
      if refused.Some? {
        return refused.value;
      }
      if !call.payload.RefinePayload? {
        return RefusedResult(call.operation, InvalidRequest("payload"));
      }
      var p := call.payload.refinement;
      if RefinementFieldRejection(p).Some? {
        return RefusedResult(call.operation, RefinementFieldRejection(p).value);
      }
      var request := requests[call.requestId];
      var approvalId := if call.humanApprovalId != "" then call.humanApprovalId else p.humanApprovalId;
      if approvalId !in approvals {
        return ApprovalRefused(call, auth, "request");
      }
      var invalid := ValidateApproval(approvals[approvalId], RefineRequirement(cfg.projectId, auth, request.id, p.approvalDigest), now);
      if invalid.Some? {
        return RefusedResult(call.operation, invalid.value);
      }
      result := RunApprovedRefinement(call, auth, approvalId);
    }

    method RunApprovedRefinement(call: Call, auth: AuthorizationContext, approvalId: string) returns (result: Result)
      requires call.requestId in requests && call.payload.RefinePayload? && approvalId in approvals
      modifies this`requests, this`semanticRequests, this`approvals, this`events
      ensures (Contents(), result) == RefineApproved(cfg, old(Contents()), call, auth, approvalId)
    {
      hide ContentOf, KeyOf, RelationshipsRejection, Refined, RefusedResult, ApprovalRefused, WithRefinement;
      var p, request := call.payload.refinement, requests[call.requestId];
      if p.relationships.Some? {
        var broken := CheckRelationships(p.relationships.value, request.id);
        if broken.Some? {
          return RefusedResult(call.operation, broken.value);
        }
      }
      var refined := RefineCopy(request, p);
      var key := KeyOf(cfg, refined);
      if key in semanticRequests && semanticRequests[key] != refined.id {
        return RefusedResult(call.operation, DuplicateRequest(semanticRequests[key]));
      }
      if ContentOf(refined) != approvals[approvalId].digest {
        return ApprovalRefused(call, auth, "request");
      }
      result := CommitRefinement(call, auth, approvalId, refined);
    }

    /** The linked change set and record take the priority of the request. */
    method PropagatePriority(request: RequestRecord)
      requires request.changeSetId == "" || request.changeSetId in changeSets
      requires request.buildWorkItemId == "" || request.buildWorkItemId in workItems
      modifies this`changeSets, this`workItems
      ensures changeSets ==
              if request.changeSetId == "" then old(changeSets)
              else
                var changeSet := old(changeSets)[request.changeSetId].(businessPriority := request.businessPriority);
                old(changeSets)[changeSet.id := changeSet]
      ensures workItems ==
              if request.buildWorkItemId == "" then old(workItems)
              else
                var item := old(workItems)[request.buildWorkItemId].(priority := request.businessPriority);
                old(workItems)[item.id := item]
    {
      if request.changeSetId != "" {
        var changeSet := changeSets[request.changeSetId];
        changeSet := changeSet.(businessPriority := request.businessPriority);
        changeSets := changeSets[changeSet.id := changeSet];
      }
      if request.buildWorkItemId != "" {
        var workItem := workItems[request.buildWorkItemId];
        workItem := workItem.(priority := request.businessPriority);
        workItems := workItems[workItem.id := workItem];
      }
    }

    method CommitPriority(call: Call, auth: AuthorizationContext, stored: RequestRecord) returns (result: Result)
      requires call.requestId in requests && call.payload.PriorityPayload? && stored == requests[call.requestId]
      requires stored.changeSetId == "" || stored.changeSetId in changeSets
      requires stored.buildWorkItemId == "" || stored.buildWorkItemId in workItems
      modifies this`requests, this`changeSets, this`workItems, this`events
      ensures (Contents(), result) == WithPriority(old(Contents()), call, auth)
    {
      hide PriorityApplied, RequestEvent;
      var priority := call.payload.businessPriority;
      var request := stored.(businessPriority := priority, revision := stored.revision + 1);
      PropagatePriority(request);
      requests := requests[request.id := request];
      events := events + [RequestEvent(call, auth, "", request.id, request.buildWorkItemId)];
      result := PriorityApplied(call, request, workItems);
    }

    method RunPriority(call: Call, auth: AuthorizationContext) returns (result: Result)
      modifies this`requests, this`changeSets, this`workItems, this`events
      ensures (Contents(), result) == UpdatePriority(old(Contents()), call, auth)
    {
      hide RefusedResult, MemoryRequests.Target, StaleRevision, ValidPriority, WithPriority;
      var refused := MemoryRequests.Target(Contents(), call);
      if refused.Some? {
        return refused.value;
      }
      if !call.payload.PriorityPayload? {
        return RefusedResult(call.operation, InvalidRequest("payload"));
      }
      if !ValidPriority(call.payload.businessPriority) {
        return RefusedResult(call.operation, InvalidRequest("business_priority"));
      }
      var request := requests[call.requestId];
      if request.changeSetId != "" && request.changeSetId !in changeSets {
        return RefusedResult(call.operation, NotFound("change-set"));
      }
      if request.buildWorkItemId != "" && request.buildWorkItemId !in workItems {
        return RefusedResult(call.operation, NotFound("work-item"));
      }
      result := CommitPriority(call, auth, request);
    }

    method CommitChangeSetLink(call: Call, auth: AuthorizationContext, stored: RequestRecord, target: ChangeSet) returns (result: Result)
      requires MemoryRequests.Target(Contents(), call).None? && call.payload.ChangeSetLinkPayload?
      requires stored == requests[call.requestId] && call.payload.changeSetId in changeSets && target == changeSets[call.payload.changeSetId]
      modifies this`requests, this`changeSets, this`events
      ensures (Contents(), result) == WithChangeSet(old(Contents()), call, auth)
    {
      hide RequestApplied, RequestEvent, MemoryRequests.Target, StaleRevision;
      var request := stored.(changeSetId := call.payload.changeSetId, revision := stored.revision + 1);
      var changeSet := target;
      if request.businessPriority != "" {
        changeSet := changeSet.(businessPriority := request.businessPriority);
      }
      changeSets := changeSets[changeSet.id := changeSet];
      requests := requests[request.id := request];
      events := events + [RequestEvent(call, auth, "", request.id, "")];
      result := RequestApplied(call, request);
    }

    method RunLinkChangeSet(call: Call, auth: AuthorizationContext) returns (result: Result)
      modifies this`requests, this`changeSets, this`events
      ensures (Contents(), result) == LinkChangeSet(old(Contents()), call, auth)
    {
      hide RefusedResult, RequestApplied, RequestEvent, ApprovalRefused, MemoryRequests.Target, StaleRevision, WithChangeSet;
      var refused := MemoryRequests.Target(Contents(), call);
      if refused.Some? {
        return refused.value;
      }
      if !call.payload.ChangeSetLinkPayload? {
        return RefusedResult(call.operation, InvalidRequest("payload"));
      }
      var id := call.payload.changeSetId;
      if id !in changeSets {
        return RefusedResult(call.operation, NotFound("change-set"));
      }
      var request, changeSet := requests[call.requestId], changeSets[id];
      if || id == "" || request.changeSetId == id
         || (call.payload.targetRevision != "" && changeSet.revision != call.payload.targetRevision)
         || (changeSet.revision != "proposed" && changeSet.revision != "approved")
      {
        return RefusedResult(call.operation, InvalidRequest("change_set_id/target_revision"));
      }
      result := CommitChangeSetLink(call, auth, request, changeSet);
    }

    method CommitWorkItemLink(call: Call, auth: AuthorizationContext, stored: RequestRecord, target: WorkItem) returns (result: Result)
      requires call.requestId in requests && call.payload.WorkItemLinkPayload? && call.payload.buildWorkItemId in workItems
      requires stored == requests[call.requestId] && target == workItems[call.payload.buildWorkItemId]
      modifies this`requests, this`workItems, this`events
      ensures (Contents(), result) == WithWorkItem(old(Contents()), call, auth)
    {
      hide RequestApplied, RequestEvent;
      var request := stored.(buildWorkItemId := call.payload.buildWorkItemId, revision := stored.revision + 1);
      var workItem := target;
      if request.businessPriority != "" {
        workItem := workItem.(priority := request.businessPriority);
      }
      workItems := workItems[workItem.id := workItem];
      requests := requests[request.id := request];
      events := events + [RequestEvent(call, auth, "", request.id, call.payload.buildWorkItemId)];
      result := RequestApplied(call, request);
    }

    method RunLinkWorkItem(call: Call, auth: AuthorizationContext) returns (result: Result)
      modifies this`requests, this`workItems, this`events
      ensures (Contents(), result) == LinkWorkItem(old(Contents()), call, auth)
    {
      hide RefusedResult, MemoryRequests.Target, StaleRevision, WithWorkItem;
      var refused := MemoryRequests.Target(Contents(), call);
      if refused.Some? {
        return refused.value;
      }
      if !call.payload.WorkItemLinkPayload? {
        return RefusedResult(call.operation, InvalidRequest("payload"));
      }
      var id := call.payload.buildWorkItemId;
      if id !in workItems {
        return RefusedResult(call.operation, NotFound("work-item"));
      }
      if id == "" || requests[call.requestId].buildWorkItemId == id {
        return RefusedResult(call.operation, InvalidRequest("build_work_item_id"));
      }
      result := CommitWorkItemLink(call, auth, requests[call.requestId], workItems[id]);
    }

    // ----- blocked work -----

    /** Settles the pending submission of a record, revoking its approval unless it is
        presented again. */
    method SupersedePrior(workItemId: string, approvalId: string) returns (prior: SubmissionId, status: ApprovalStatus)
      requires SubmissionInv(Contents())
      modifies this`submissions, this`approvals
      ensures Contents() == Supersede(old(Contents()), workItemId, approvalId)
      ensures var active := Active(old(Contents()), workItemId);
              var replaced := active != NoSubmission && active in old(submissions) && old(submissions)[active].status == Pending;
              && prior == (if replaced then active else NoSubmission)
              && (replaced ==>
                    && old(submissions)[active].approvalId in old(approvals)
                    && status == (if old(submissions)[active].approvalId == approvalId then old(approvals)[approvalId].status else Revoked))
              && (!replaced ==> status == NO_APPROVAL_STATUS)
    {
      prior, status := NoSubmission, NO_APPROVAL_STATUS;
      var id := Active(Contents(), workItemId);
      if id != NoSubmission && id in submissions && submissions[id].status == Pending {
        var replaced := submissions[id];
        assert PendingOk(Contents(), replaced);
        submissions := submissions[id := replaced.(status := Superseded)];
        prior := id;
        if replaced.approvalId == approvalId {
          status := approvals[replaced.approvalId].status;
        } else {
          var approval := approvals[replaced.approvalId];
          approvals := approvals[replaced.approvalId := approval.(status := Revoked)];
          status := Revoked;
        }
      }
    }

    method CommitSubmission(call: Call, auth: AuthorizationContext) returns (result: Result)
      requires SubmissionInv(Contents())
      requires call.workItemId in workItems && call.payload.BlockedResolutionPayload? && call.humanApprovalId in approvals
      modifies this`submissions, this`approvals, this`resolutionRevisions, this`nextResolutionId, this`activeSubmissions, this`events
      ensures (Contents(), result) == WithSubmission(old(Contents()), call, auth)
    {
      hide SubmissionInv, PlannedDependencyComplete, AppliedResult, Filed, Supersede;
      var p, item, approval := call.payload, workItems[call.workItemId], approvals[call.humanApprovalId];
      var planned := if p.resolutionKind == "add-requirement" then Some(PlannedDependencyComplete(Contents(), p.changeSetId)) else None;
      var prior, status := SupersedePrior(item.id, call.humanApprovalId);
      var id, revision := FileSubmission(call, auth, item, approval);
      result := AppliedResult(call.operation).(
        submission := "accepted",
        approvalStatus := Unused,
        workItemId := item.id,
        workItemState := item.state,
        contractVersion := item.version,
        submissionId := id,
        submissionRevision := revision,
        plannedDependencyComplete := planned,
        priorSubmission := prior,
        priorSubmissionStatus := if prior != NoSubmission then Some(Superseded) else None,
        priorApprovalStatus := status);
    }

    method FileSubmission(call: Call, auth: AuthorizationContext, item: WorkItem, approval: Approval)
      returns (id: SubmissionId, revision: nat)
      requires call.payload.BlockedResolutionPayload?
      modifies this`submissions, this`resolutionRevisions, this`nextResolutionId, this`activeSubmissions, this`events
      ensures id == Resolution(old(nextResolutionId) + 1) && revision == Revision(old(Contents()), item.id) + 1
      ensures Contents() == Filed(old(Contents()), call, auth, item.id, approval.approvedSubject)
    {
      hide RequestEvent, Revision;
      ghost var next := Filed(Contents(), call, auth, item.id, approval.approvedSubject);
      var p := call.payload;
      revision := Revision(Contents(), item.id) + 1;
      id := Resolution(nextResolutionId + 1);
      var submission := Submission(id, item.id, p.resolutionKind, p.changeSetId, call.humanApprovalId, p.approvalDigest,
                                   approval.approvedSubject, Pending, false, false, "", revision);
      resolutionRevisions, nextResolutionId := resolutionRevisions[item.id := revision], nextResolutionId + 1;
      submissions, activeSubmissions := submissions[id := submission], activeSubmissions[item.id := id];
      events := events + [RequestEvent(call, auth, approval.approvedSubject, 0, item.id)];
      assert resolutionRevisions == next.resolutionRevisions && nextResolutionId == next.nextResolutionId;
      assert submissions == next.submissions && activeSubmissions == next.activeSubmissions && events == next.events;
      hide Filed;
    }

    method RunSubmit(now: Time, call: Call, auth: AuthorizationContext) returns (result: Result)
      requires SubmissionInv(Contents())
      modifies this`submissions, this`approvals, this`resolutionRevisions, this`nextResolutionId, this`activeSubmissions, this`events
      ensures (Contents(), result) == SubmitResolution(cfg, old(Contents()), now, call, auth)
    {
      hide SubmissionInv, BlockedTarget, RefusedResult, ApprovalRefused, ValidateApproval, SubmitRequirement, ApprovalIsValid, WithSubmission,
           BlockedExpected;
      var refused := BlockedTarget(Contents(), call);
      if refused.Some? {
        return refused.value;
      }
      if !call.payload.BlockedResolutionPayload? {
        return RefusedResult(call.operation, InvalidRequest("payload"));
      }
      var p := call.payload;
      if p.resolutionKind != "add-requirement" && p.resolutionKind != "out-of-scope" && p.resolutionKind != "impact-amendment" {
        return RefusedResult(call.operation, InvalidRequest("resolution_kind"));
      }
      if p.approvalDigest == "" || call.humanApprovalId == "" {
        return ApprovalRefused(call, auth, "work-item");
      }
      if (p.resolutionKind == "add-requirement" || p.resolutionKind == "impact-amendment") && p.changeSetId !in changeSets {
        return RefusedResult(call.operation, NotFound("change-set"));
      }
      if call.humanApprovalId !in approvals || cfg.materializerSubject == "" {
        return ApprovalRefused(call, auth, "work-item");
      }
      var invalid := ValidateApproval(approvals[call.humanApprovalId], SubmitRequirement(cfg, call, auth), now);
      if invalid.Some? {
        return RefusedResult(call.operation, invalid.value);
      }
      result := CommitSubmission(call, auth);
    }

    method CommitAcknowledgement(call: Call, auth: AuthorizationContext) returns (result: Result)
      requires call.workItemId in workItems && call.payload.BlockedResolutionPayload? && call.humanApprovalId in approvals
      modifies this`approvals, this`nextAcknowledgementId, this`submissions, this`events
      ensures (Contents(), result) == WithAcknowledgement(old(Contents()), call, auth)
    {
      hide RequestEvent, AppliedResult;
      var item, approval := workItems[call.workItemId], approvals[call.humanApprovalId];
      approvals := approvals[call.humanApprovalId := approval.(status := Consumed)];
      nextAcknowledgementId := nextAcknowledgementId + 1;
      var id := Acknowledgement(nextAcknowledgementId);
      submissions := submissions[id := Submission(id, item.id, "acknowledge", "", call.humanApprovalId, call.payload.approvalDigest, "",
                                                  SubmissionConsumed, false, false, "", 1)];
      events := events + [RequestEvent(call, auth, approval.approvedSubject, 0, item.id)];
      result := AppliedResult(call.operation).(
        approvalStatus := Consumed, workItemId := item.id, workItemState := item.state, contractVersion := item.version,
        submissionId := id, submissionRevision := 1);
    }

    method RunAcknowledge(now: Time, call: Call, auth: AuthorizationContext) returns (result: Result)
      modifies this`approvals, this`nextAcknowledgementId, this`submissions, this`events
      ensures (Contents(), result) == Acknowledge(cfg, old(Contents()), now, call, auth)
    {
      hide BlockedTarget, RefusedResult, ApprovalRefused, ValidateApproval, AcknowledgeRequirement, WithAcknowledgement, Text.IsBlank,
           BlockedExpected;
      var refused := BlockedTarget(Contents(), call);
      if refused.Some? {
        return refused.value;
      }
      if !call.payload.BlockedResolutionPayload? {
        return RefusedResult(call.operation, InvalidRequest("payload"));
      }
      if Text.IsBlank(call.payload.reason) || call.payload.approvalDigest == "" || call.humanApprovalId == "" {
        return ApprovalRefused(call, auth, "work-item");
      }
      if call.humanApprovalId !in approvals {
        return ApprovalRefused(call, auth, "work-item");
      }
      var invalid := ValidateApproval(approvals[call.humanApprovalId], AcknowledgeRequirement(cfg, call, auth), now);
      if invalid.Some? {
        return RefusedResult(call.operation, invalid.value);
      }
      result := CommitAcknowledgement(call, auth);
    }

    // ----- the operation surface -----

    method RunRequest(now: Time, call: Call, auth: AuthorizationContext) returns (result: Result)
      requires SubmissionInv(Contents())
      modifies this
      ensures (Contents(), result) == ExecuteRequest(cfg, old(Contents()), now, call, auth)
    {
      hide SubmissionInv, RequestFingerprintOf, CreateRequest, RefineRequest, UpdatePriority, LinkChangeSet, LinkWorkItem, SubmitResolution,
           Acknowledge, ReadAnswer, MarkReplayed;
      if !IsRequestMutation(call.operation) {
        return ReadAnswer(Contents(), call, auth);
      }
      if call.idempotencyKey == "" {
        return RefusedResult(call.operation, InvalidRequest("idempotency_key"));
      }
      var fingerprint := RequestFingerprintOf(call, auth);
      if call.idempotencyKey in idempotency {
        if idempotency[call.idempotencyKey].fingerprint == fingerprint {
          return MarkReplayed(idempotency[call.idempotencyKey].result);
        }
        return RefusedResult(call.operation, IdempotencyConflict("request-fingerprint", call.idempotencyKey));
      }
      match call.operation {
        case RequestCreate => result := RunCreate(call, auth);
        case RequestRefine => result := RunRefine(now, call, auth);
        case RequestUpdatePriority => result := RunPriority(call, auth);
        case RequestLinkChangeSet => result := RunLinkChangeSet(call, auth);
        case RequestLinkBuildWorkItem => result := RunLinkWorkItem(call, auth);
        case BlockedWorkSubmitResolution => result := RunSubmit(now, call, auth);
        case BlockedWorkAcknowledge => result := RunAcknowledge(now, call, auth);
      }
      RememberIdempotency(call.idempotencyKey, fingerprint, result);
    }

    /** One call, under the context the trusted Gate resolved for it. */
    method Run(now: Time, call: Call, gate: Option<AuthorizationContext>) returns (result: Result)
      requires Valid()
      modifies this
      ensures Valid()
      ensures (Contents(), result) == Execute(cfg, old(Contents()), now, call, gate)
    {
      ghost var st := Contents();
      hide Inv, ExecuteLifecycle, ExecuteRequest, PreflightAnswer, RoleHasWmsOperation, AuthorizeContext, KnownLifecycleOperation;
      ExecuteIsGood(cfg, st, now, call, gate);
      assert SubmissionInv(st) by {
        InvProtocol(cfg, st);
      }
      var project := if call.workItemId != "" then "work-item" else "project";
      if call.operation.OtherOperation? || gate.None? {
        return RefusedResult(call.operation, UnauthorizedAction(call.operation, project, ""));
      }
      var auth := gate.value;
      if call.operation == LifecyclePreflight {
        return PreflightAnswer(cfg, Contents(), now, call, auth);
      }
      if KnownLifecycleOperation(call.operation) {
        result := RunLifecycle(now, call, auth);
        return;
      }
      if !RoleHasWmsOperation(auth.role, call.operation) {
        return RefusedResult(call.operation, UnauthorizedAction(call.operation, project, auth.policyVersion));
      }
      var unauthorized := AuthorizeContext(auth, call.operation, cfg.projectId, call.workItemId, "", ["project:" + cfg.projectId], now);
      if unauthorized.Some? {
        return RefusedResult(call.operation, unauthorized.value);
      }
      if call.policyVersion != "" && call.policyVersion != auth.policyVersion {
        return RefusedResult(call.operation, UnauthorizedAction(call.operation, project, auth.policyVersion));
      }
      if call.operation == FindingCreate {
        return RefusedResult(call.operation, WmsUnavailable);
      }
      result := RunRequest(now, call, auth);
    }

    // ----- trusted observations and seeds; `ok` is false where the source returns an error -----

    method NoteConfirmation(id: SubmissionId, confirmationId: string) returns (ok: bool)
      requires Valid()
      modifies this`submissions, this`resolutionRevisions
      ensures Valid() && Contents() == ObserveConfirmation(old(Contents()), id, confirmationId)
      ensures !ok ==> Contents() == old(Contents())
    {
      hide Inv, Text.IsBlank;
      ConfirmationIsGood(cfg, Contents(), id, confirmationId);
      if id == NoSubmission || Text.IsBlank(confirmationId) || id !in submissions {
        return false;
      }
      var submission := submissions[id];
      if submission.inspectorConfirmationId == confirmationId {
        return true;
      }
      if submission.kind != "out-of-scope" || submission.status != Pending || Active(Contents(), submission.workItemId) != id {
        return false;
      }
      if submission.inspectorConfirmationId != "" {
        return false;
      }
      var revision := Revision(Contents(), submission.workItemId) + 1;
      resolutionRevisions := resolutionRevisions[submission.workItemId := revision];
      submission := submission.(inspectorConfirmationId := confirmationId, inspectorConfirmed := true, revision := revision);
      submissions := submissions[id := submission];
      ok := true;
    }

    method NoteReadiness(workItemId: string, readiness: Readiness) returns (ok: bool)
      requires Valid()
      modifies this`observedReadiness
      ensures Valid() && Contents() == ObserveReadiness(old(Contents()), workItemId, readiness)
      ensures ok <==> !Text.IsBlank(workItemId) && workItemId in workItems
    {
      hide Inv, Text.IsBlank;
      ReadinessIsGood(cfg, Contents(), workItemId, readiness);
      ok := !Text.IsBlank(workItemId) && workItemId in workItems;
      if ok {
        observedReadiness := observedReadiness[workItemId := readiness];
      }
    }

    method NoteInspection(workItemId: string, evidence: InspectionEvidence) returns (ok: bool)
      requires Valid()
      modifies this`workItems
      ensures Valid() && Contents() == ObserveInspection(old(Contents()), workItemId, evidence)
      ensures ok <==> !Text.IsBlank(workItemId) && workItemId in old(workItems) && old(workItems)[workItemId].state == Inspecting
    {
      hide Inv, Text.IsBlank;
      InspectionIsGood(cfg, Contents(), workItemId, evidence);
      ok := !Text.IsBlank(workItemId) && workItemId in workItems && workItems[workItemId].state == Inspecting;
      if ok {
        workItems := workItems[workItemId := workItems[workItemId].(inspection := evidence)];
      }
    }

    method NoteReconciliation(workItemId: string, evidence: Reconciliation) returns (ok: bool)
      requires Valid()
      modifies this`workItems
      ensures Valid() && Contents() == ObserveReconciliation(old(Contents()), workItemId, evidence)
      ensures ok <==> !Text.IsBlank(workItemId) && workItemId in old(workItems)
    {
      hide Inv, Text.IsBlank;
      ReconciliationIsGood(cfg, Contents(), workItemId, evidence);
      ok := !Text.IsBlank(workItemId) && workItemId in workItems;
      if ok {
        workItems := workItems[workItemId := workItems[workItemId].(reconciliation := evidence)];
      }
    }

    method SeedChange(changeSet: ChangeSet) returns (ok: bool)
      requires Valid()
      modifies this`changeSets
      ensures Valid() && Contents() == SeedChangeSet(old(Contents()), changeSet)
      ensures ok <==> changeSet.id != "" && changeSet.id !in old(changeSets)
    {
      hide Inv;
      ChangeSetIsGood(cfg, Contents(), changeSet);
      ok := changeSet.id != "" && changeSet.id !in changeSets;
      if ok {
        changeSets := changeSets[changeSet.id := changeSet];
      }
    }

    method SeedGateApproval(id: string, approval: Approval) returns (ok: bool)
      requires Valid()
      modifies this`approvals
      ensures Valid() && Contents() == SeedApproval(old(Contents()), id, approval)
      ensures ok <==> id != "" && id !in old(approvals)
    {
      hide Inv;
      SeedIsGood(cfg, Contents(), id, approval);
      ok := id != "" && id !in approvals;
      if ok {
        approvals := approvals[id := approval];
      }
    }
  }

  lemma BaseFacts(st: Store, now: Time)
    ensures var base := BaseEvaluation(st, now);
            base.refreshDependencies.None? && base.authority == Authoritative && base.time == now
  {
    hide SubmissionSnapshot;
  }

  lemma {:induction false} FirstRejectionStays(
    relationships: seq<Relationship>, requests: map<RequestId, RequestRecord>, self: RequestId, i: nat
  )
    requires i <= |relationships|
    requires RelationshipsRejection(relationships[..i], requests, self).Some?
    ensures RelationshipsRejection(relationships, requests, self) == RelationshipsRejection(relationships[..i], requests, self)
  {
    if i == |relationships| {
      assert relationships[..i] == relationships;
    } else {
      var earlier := relationships[..|relationships| - 1];
      assert earlier[..i] == relationships[..i];
      FirstRejectionStays(earlier, requests, self, i);
    }
  }

  /** The refinement is applied to a copy, field by field. */
  method RefineCopy(request: RequestRecord, p: Refinement) returns (refined: RequestRecord)
    ensures refined == Refined(request, p)
  {
    hide Text.Trim, Text.SortedUnique;
    refined := request;
    if p.intent != "" {
      refined := refined.(intent := Text.Trim(p.intent));
    }
    if p.rationale != "" {
      refined := refined.(rationale := Text.Trim(p.rationale));
    }
    if p.owner != "" {
      refined := refined.(owner := p.owner);
    }
    if p.interfaces.Some? {
      var interfaces := Text.SortedUniqueLoop(p.interfaces.value);
      refined := refined.(interfaces := interfaces);
    }
    if p.scopes.Some? {
      var scopes := Text.SortedUniqueLoop(p.scopes.value);
      refined := refined.(scopes := scopes);
    }
    if p.relationships.Some? {
      refined := refined.(relationships := p.relationships.value);
    }
    if p.classification != "" {
      refined := refined.(classification := p.classification);
    }
    refined := refined.(refinementState := p.refinementState);
  }

  lemma Reindexed<K, V>(index: map<K, V>, prior: K, next: K, v: V)
    ensures (if prior != next then index - {prior} else index)[next := v] == (index - {prior})[next := v]
  {
  }

  lemma InvProtocol(cfg: Config, st: Store)
    requires Inv(cfg, st)
    ensures SubmissionInv(st)
  {
    hide SubmissionInv;
  }

  /** What a route does. */
  function Settle(cfg: Config, st: Store, now: Time, route: Route): (r: (Store, Result)) {
    match route
    case Answer(result) => (st, result)
    case Freeze(request, result) => (Remember(st, request.idempotencyKey, FingerprintOf(request), result), result)
    case Perform(request, _, _) =>
      var (after, result) := Performed(cfg, st, now, request);
      (Remember(after, request.idempotencyKey, FingerprintOf(request), result), result)
  }

  function Admitted(cfg: Config, st: Store, now: Time, request: Request): (r: Route) {
    var replay := ReplayRoute(st, request);
    if replay.Some? then replay.value else Perform(request, CurrentItem(st, request), RefreshedEvaluation(cfg, st, now, request))
  }

  function Missing(st: Store, call: Call, request: Request, evaluation: EvaluationContext, authorized: bool): (r: Route) {
    var refusal := ResultOfDecision(call.operation, Evaluate(request, None, evaluation));
    if authorized && request.idempotencyKey != "" then
      var replay := ReplayRoute(st, request);
      if replay.Some? then replay.value else Freeze(request, refusal)
    else Answer(refusal)
  }

  /** The cases of a lifecycle call, as the code takes them. */
  lemma RoutesTaken(cfg: Config, st: Store, now: Time, call: Call, auth: AuthorizationContext)
    ensures var taken := ExecuteLifecycle(cfg, st, now, call, auth);
            if !call.payload.LifecyclePayload? then taken == (st, RefusedResult(call.operation, InvalidRequest("payload")))
            else
              var request := Normalize(cfg, st, call, auth, call.payload.payload);
              var base := BaseEvaluation(st, now);
              var current := CurrentItem(st, request);
              if !ContextIsValid(auth, request.projectId, request.workItemId, request.payload.changeSetId, now) then
                taken == (st, ResultOfDecision(call.operation, Evaluate(request, None, base)))
              else if current.None? && request.operation != Materialize then
                taken == Settle(cfg, st, now, Missing(st, call, request, base, Authorized(call, request, now)))
              else if AuthorizeLifecycle(auth, request.operation, request.projectId, request.workItemId, request.payload.changeSetId,
                                         request.references, now).Some? then
                taken == (st, ResultOfDecision(call.operation, Evaluate(request, current, base)))
              else if !Authorized(call, request, now) then
                taken == (st, RefusedDecision(request, UnauthorizedAction(call.operation,
                                                                          if call.workItemId != "" then "work-item" else "project",
                                                                          auth.policyVersion)))
              else if request.idempotencyKey == "" then
                taken == (st, RefusedResult(call.operation, InvalidRequest("idempotency_key")))
              else taken == Settle(cfg, st, now, Admitted(cfg, st, now, request))
  {
    hide Evaluate, FingerprintOf, Normalize, SubmissionSnapshot, LiveDependencies, ResultOfDecision, Performed, ContextIsValid,
         AuthorizeLifecycle, ReplayRoute, BaseEvaluation, RefreshedEvaluation, CurrentItem, RefusedDecision, RefusedResult;
  }

  /** A refusal for want of authorization does not look at the evidence. */
  lemma UnauthorizedAlike(request: Request, current: Option<WorkItem>, a: EvaluationContext, b: EvaluationContext)
    requires a.authority == b.authority == Authoritative && a.time == b.time
    requires AuthorizeLifecycle(request.authorization, request.operation, request.projectId, request.workItemId,
                                request.payload.changeSetId, request.references, a.time).Some?
    ensures Evaluate(request, current, a) == Evaluate(request, current, b)
  {
    hide AuthorizeLifecycle, EvaluateNew, EvaluateItem, ContextIsValid;
  }
}
