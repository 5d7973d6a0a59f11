/** The promises of the in-memory work-management system, each over every run. A moment of a
    run is the number of inputs taken so far. */
module MemoryGuarantees {
  import opened Records
  import opened Authorization
  import opened Evaluator
  import opened MemoryStore
  import opened MemoryRequests
  import opened MemoryItems
  import opened MemoryInvariant
  import opened MemoryProtocol
  import opened MemoryBacklog
  import opened MemoryEvolution
  import opened MemorySteps
  import opened MemoryRequestSteps
  import opened MemoryRuns
  import Text

  // ----- dependencies -----

  predicate DependsOn(st: Store, a: string, b: string) {
    a in st.workItems && exists i | 0 <= i < |st.workItems[a].dependencies| :: st.workItems[a].dependencies[i].id == b
  }

  /** Each record on the path names the next as a dependency. */
  predicate IsPath(st: Store, path: seq<string>) {
    && path != []
    && path[0] in st.workItems
    && forall i | 0 <= i < |path| - 1 :: DependsOn(st, path[i], path[i + 1])
  }

  /** The rank of a completed record is the position of the event that completed it. */
  lemma {:induction false} RankIsCompletion(events: seq<AuditEvent>, id: string)
    ensures var rank := CompletionRank(events, id);
            && (rank < |events| ==>
                  events[rank].workItemId == id && events[rank].after.Some? && events[rank].after.value.state == Completed)
            && (forall i | 0 <= i < rank ::
                  !(events[i].workItemId == id && events[i].after.Some? && events[i].after.value.state == Completed))
  {
    if events != [] {
      RankIsCompletion(events[..|events| - 1], id);
    }
  }

  /** Completion order is a strict rank along every dependency path out of started work. */
  lemma {:induction false} PathDescends(cfg: Config, st: Store, path: seq<string>, k: nat)
    requires Inv(cfg, st) && IsPath(st, path)
    requires Started(st.workItems[path[0]].state)
    requires 0 < k < |path|
    ensures path[k] in st.workItems && st.workItems[path[k]].state == Completed
    ensures CompletionRank(st.events, path[k]) < CompletionRank(st.events, path[0])
  {
    hide ItemsInv, TokensInv, AuditInv, MaterializationInv, SubmissionInv, SemanticInv, KeysInv, CompletionRank;
    if k > 1 {
      PathDescends(cfg, st, path, k - 1);
    }
    assert DependsOn(st, path[k - 1], path[k]);
    var a := path[k - 1];
    assert DependenciesDone(st, st.workItems[a], CompletionRank(st.events, a));
    var i :| 0 <= i < |st.workItems[a].dependencies| && st.workItems[a].dependencies[i].id == path[k];
  }

  /** Started work depends, directly or not, only on completed records, and never on itself. */
  lemma StartedWorkIsAcyclic(cfg: Config, inputs: seq<Input>, path: seq<string>, k: nat)
    requires IsPath(Reached(cfg, inputs), path)
    requires Started(Reached(cfg, inputs).workItems[path[0]].state)
    requires 0 < k < |path|
    ensures path[k] != path[0]
    ensures path[k] in Reached(cfg, inputs).workItems && Reached(cfg, inputs).workItems[path[k]].state == Completed
  {
    hide Inv;
    EveryRunKeeps(cfg, inputs);
    PathDescends(cfg, Reached(cfg, inputs), path, k);
  }

  /** A record on a dependency cycle at one moment is never past the dependency gate, then
      or later. */
  lemma CyclesNeverStart(cfg: Config, inputs: seq<Input>, m: nat, n: nat, path: seq<string>)
    requires m <= n <= |inputs|
    requires IsPath(At(cfg, inputs, m), path) && |path| > 1 && path[|path| - 1] == path[0]
    ensures path[0] in At(cfg, inputs, n).workItems && !Started(At(cfg, inputs, n).workItems[path[0]].state)
  {
    hide Inv;
    var a, b := At(cfg, inputs, m), At(cfg, inputs, n);
    Between(cfg, inputs, m, n);
    hide At;
    PathStays(a, b, path);
    if Started(b.workItems[path[0]].state) {
      PathDescends(cfg, b, path, |path| - 1);
    }
  }

  /** The dependencies of a record never change. */
  lemma PathStays(a: Store, b: Store, path: seq<string>)
    requires Evolves(a, b) && IsPath(a, path)
    ensures IsPath(b, path)
  {
    hide ApprovalsEvolve, SubmissionsEvolve, KeysEvolve;
    forall i | 0 <= i < |path| - 1
      ensures DependsOn(b, path[i], path[i + 1])
    {
      assert DependsOn(a, path[i], path[i + 1]);
      var j :| 0 <= j < |a.workItems[path[i]].dependencies| && a.workItems[path[i]].dependencies[j].id == path[i + 1];
      assert ItemEvolves(a.workItems[path[i]], b.workItems[path[i]], a.nextToken);
      assert b.workItems[path[i]].dependencies[j].id == path[i + 1];
    }
  }

  // ----- fencing tokens -----

  predicate Holds(st: Store, id: string, token: Token) {
    id in st.workItems && st.workItems[id].lease.Some? && st.workItems[id].lease.value.token == token
  }

  /** A token belongs to one record for ever. */
  lemma TokensAreNeverShared(cfg: Config, inputs: seq<Input>, m: nat, n: nat, a: string, b: string, token: Token)
    requires m <= n <= |inputs|
    requires Holds(At(cfg, inputs, m), a, token) && Holds(At(cfg, inputs, n), b, token)
    ensures a == b && token != NO_TOKEN
  {
    var x, y := At(cfg, inputs, m), At(cfg, inputs, n);
    Between(cfg, inputs, m, n) by {
      hide Inv;
    }
    hide At, DependencyInv, AuditInv, MaterializationInv, SubmissionInv, SemanticInv, KeysInv, ApprovalsEvolve, SubmissionsEvolve,
         KeysEvolve, GateOk, SameIds, MemoryItems.Target;
    assert ItemOk(cfg.projectId, x.workItems[a]);
  }

  /** Once a record has lost a token it never holds it again. */
  lemma LostTokensStayLost(cfg: Config, inputs: seq<Input>, l: nat, m: nat, n: nat, id: string, token: Token)
    requires l <= m <= n <= |inputs|
    requires Holds(At(cfg, inputs, l), id, token) && !Holds(At(cfg, inputs, m), id, token)
    ensures !Holds(At(cfg, inputs, n), id, token)
  {
    var x, y, z := At(cfg, inputs, l), At(cfg, inputs, m), At(cfg, inputs, n);
    Between(cfg, inputs, l, m) by {
      hide Inv;
    }
    Between(cfg, inputs, m, n) by {
      hide Inv;
    }
    hide At, DependencyInv, AuditInv, MaterializationInv, SubmissionInv, SemanticInv, KeysInv, ApprovalsEvolve, SubmissionsEvolve,
         KeysEvolve, GateOk, SameIds, MemoryItems.Target, LeaseOk;
    assert ItemOk(cfg.projectId, x.workItems[id]);
  }

  /** An applied call that changes a record is an allowed command on it. */
  lemma AppliedIsAllowed(cfg: Config, st: Store, now: Time, call: Call, auth: AuthorizationContext)
    requires KnownLifecycleOperation(call.operation)
    requires ExecuteLifecycle(cfg, st, now, call, auth).1.mutation == MutationApplied
    ensures call.payload.LifecyclePayload?
    ensures var request := Normalize(cfg, st, call, auth, call.payload.payload);
            && ExecuteLifecycle(cfg, st, now, call, auth)
               == (Remember(Performed(cfg, st, now, request).0, request.idempotencyKey, FingerprintOf(request),
                            Performed(cfg, st, now, request).1),
                   Performed(cfg, st, now, request).1)
            && Evaluate(request, CurrentItem(st, request), RefreshedEvaluation(cfg, st, now, request)).outcome != Rejected
            && RouteOf(cfg, st, now, call, auth).Perform?
  {
    hide Normalize, Moved, Advanced, Materialized, NewItem, ResolutionSpent, FingerprintOf, Evaluate, RouteOf, CurrentItem, RefreshedEvaluation,
         Remember;
    AnswersReportNothing(cfg, st, now, call, auth);
    var request := Normalize(cfg, st, call, auth, call.payload.payload);
    AllowedShape(request, CurrentItem(st, request), RefreshedEvaluation(cfg, st, now, request));
  }

  /** An applied Job Site command past the claim comes from the live owner of the record's
      current token. */
  lemma FencedCallsHoldTheToken(cfg: Config, st: Store, now: Time, call: Call, auth: AuthorizationContext)
    requires RequiresLiveFence(call.operation, auth.role)
    requires Execute(cfg, st, now, call, Some(auth)).1.mutation == MutationApplied
    ensures Holds(st, call.workItemId, call.fencingToken)
    ensures now < st.workItems[call.workItemId].lease.value.expiresAt
    ensures auth.subject == st.workItems[call.workItemId].lease.value.owner
  {
    hide Normalize, Performed, FingerprintOf, Evaluate, RouteOf, RefreshedEvaluation, Remember, ExecuteLifecycle, ExecuteRequest;
    AppliedIsAllowed(cfg, st, now, call, auth);
    var request := Normalize(cfg, st, call, auth, call.payload.payload);
    var current := CurrentItem(st, request);
    var evaluation := RefreshedEvaluation(cfg, st, now, request);
    AllowedShape(request, current, evaluation);
    PerformTime(cfg, st, now, request);
    AllowedIsMove(current.value, request, evaluation);
  }

  lemma PerformTime(cfg: Config, st: Store, now: Time, request: Request)
    ensures var e := RefreshedEvaluation(cfg, st, now, request);
            e.time == now && e.authority == Authoritative && e.nextToken == st.nextToken + 1
  {
    hide SubmissionSnapshot, LiveDependencies, CurrentItem;
  }

  /** A lost token opens nothing: no fenced command that carries it is ever applied again,
      whoever sends it and however often. */
  lemma LostTokensAreRefused(
    cfg: Config, inputs: seq<Input>, l: nat, m: nat, now: Time, call: Call, auth: AuthorizationContext
  )
    requires l <= m <= |inputs|
    requires Holds(At(cfg, inputs, l), call.workItemId, call.fencingToken)
    requires !Holds(At(cfg, inputs, m), call.workItemId, call.fencingToken)
    requires RequiresLiveFence(call.operation, auth.role)
    ensures var st := Reached(cfg, inputs);
            var (next, result) := Execute(cfg, st, now, call, Some(auth));
            result.mutation != MutationApplied && next == st.(idempotency := next.idempotency)
  {
    hide Inv, Evolves, Execute, Holds;
    var st := Reached(cfg, inputs);
    var (next, result) := Execute(cfg, st, now, call, Some(auth));
    assert inputs[..|inputs|] == inputs;
    LostTokensStayLost(cfg, inputs, l, m, |inputs|, call.workItemId, call.fencingToken);
    EveryRunKeeps(cfg, inputs);
    hide Reached;
    ExecuteIsGood(cfg, st, now, call, Some(auth));
    if result.mutation == MutationApplied {
      FencedCallsHoldTheToken(cfg, st, now, call, auth);
    }
  }

  /** The token a step's call was issued, if any. */
  function Issued(cfg: Config, inputs: seq<Input>, k: nat): (token: Token)
    requires k < |inputs|
  {
    if !inputs[k].Invoke? then NO_TOKEN
    else
      var result := Execute(cfg, At(cfg, inputs, k), inputs[k].now, inputs[k].call, inputs[k].gate).1;
      if result.mutation == MutationApplied && result.decision.Some? then result.decision.value.tokenIssued else NO_TOKEN
  }

  /** A performed command that issues a token advances the counter to it. */
  lemma PerformedIssues(cfg: Config, st: Store, now: Time, request: Request)
    requires var (_, result) := Performed(cfg, st, now, request);
             result.mutation == MutationApplied && result.decision.Some? && result.decision.value.tokenIssued != NO_TOKEN
    ensures var (next, result) := Performed(cfg, st, now, request);
            result.decision.value.tokenIssued == st.nextToken + 1 == next.nextToken
  {
    var current := CurrentItem(st, request);
    var evaluation := RefreshedEvaluation(cfg, st, now, request);
    hide Evaluate, Moved, NewItem, CurrentItem, RefreshedEvaluation;
    AllowedShape(request, current, evaluation);
    PerformTime(cfg, st, now, request);
    if request.operation == Materialize {
      if Evaluate(request, current, evaluation).outcome != Rejected {
        AllowedIsNew(request, current, evaluation);
      }
    } else if Evaluate(request, current, evaluation).outcome != Rejected {
      AllowedIsMove(current.value, request, evaluation);
    }
  }

  lemma ExecuteIssues(cfg: Config, st: Store, now: Time, call: Call, auth: AuthorizationContext)
    requires KnownLifecycleOperation(call.operation)
    requires var (_, result) := ExecuteLifecycle(cfg, st, now, call, auth);
             result.mutation == MutationApplied && result.decision.Some? && result.decision.value.tokenIssued != NO_TOKEN
    ensures var (next, result) := ExecuteLifecycle(cfg, st, now, call, auth);
            result.decision.value.tokenIssued == st.nextToken + 1 == next.nextToken
  {
    hide Normalize, Performed, FingerprintOf, Evaluate, RouteOf, RefreshedEvaluation, ExecuteLifecycle;
    AppliedIsAllowed(cfg, st, now, call, auth);
    PerformedIssues(cfg, st, now, Normalize(cfg, st, call, auth, call.payload.payload));
  }

  /** Requests are decided without the evaluator. */
  lemma RequestsIssueNothing(cfg: Config, st: Store, now: Time, call: Call, auth: AuthorizationContext)
    requires IsRequestMutation(call.operation)
    ensures MutateRequest(cfg, st, now, call, auth).1.decision.None?
  {
    hide Text.IsBlank, SemanticKeyOf, Text.Trim, Text.SortedUnique, RefinementFieldRejection, RelationshipsRejection, Refined, ContentOf,
         ValidPriority, StaleRevision, BlockedExpected, PlannedDependencyComplete, Revision, ValidateApproval;
  }

  lemma CallIssues(cfg: Config, st: Store, now: Time, call: Call, gate: Option<AuthorizationContext>)
    requires var (_, result) := Execute(cfg, st, now, call, gate);
             result.mutation == MutationApplied && result.decision.Some? && result.decision.value.tokenIssued != NO_TOKEN
    ensures var (next, result) := Execute(cfg, st, now, call, gate);
            result.decision.value.tokenIssued == st.nextToken + 1 == next.nextToken
  {
    hide ExecuteLifecycle, MutateRequest, PreflightAnswer, ReadAnswer, RoleHasWmsOperation, AuthorizeContext, RequestFingerprintOf;
    if KnownLifecycleOperation(call.operation) {
      ExecuteIssues(cfg, st, now, call, gate.value);
    } else if IsRequestMutation(call.operation) {
      RequestsIssueNothing(cfg, st, now, call, gate.value);
    }
  }

  /** The store after the call at `k` of a run. */
  lemma Taken(cfg: Config, inputs: seq<Input>, k: nat)
    requires k < |inputs|
    ensures At(cfg, inputs, k + 1) == Step(cfg, At(cfg, inputs, k), inputs[k])
  {
    hide Step;
    var taken := inputs[..k + 1];
    assert taken[..k] == inputs[..k];
  }

  lemma IssuedIsCounted(cfg: Config, inputs: seq<Input>, k: nat)
    requires k < |inputs| && Issued(cfg, inputs, k) != NO_TOKEN
    ensures Issued(cfg, inputs, k) == At(cfg, inputs, k).nextToken + 1 == At(cfg, inputs, k + 1).nextToken
  {
    hide Execute, At;
    CallIssues(cfg, At(cfg, inputs, k), inputs[k].now, inputs[k].call, inputs[k].gate);
    Taken(cfg, inputs, k);
  }

  /** Every token issued in a run is fresh: larger than any issued before, and no record
      has held it. */
  lemma IssuedTokensAreFresh(cfg: Config, inputs: seq<Input>, i: nat, j: nat, id: string)
    requires i <= j < |inputs| && Issued(cfg, inputs, j) != NO_TOKEN
    ensures i < j ==> Issued(cfg, inputs, i) < Issued(cfg, inputs, j)
    ensures !Holds(At(cfg, inputs, i), id, Issued(cfg, inputs, j))
  {
    hide Inv, Evolves, Issued, Execute, Reached;
    IssuedIsCounted(cfg, inputs, j);
    Between(cfg, inputs, i, j);
    CounterGrows(cfg, At(cfg, inputs, i), At(cfg, inputs, j), id);
    if i < j && Issued(cfg, inputs, i) != NO_TOKEN {
      IssuedIsCounted(cfg, inputs, i);
      Between(cfg, inputs, i + 1, j);
      CounterGrows(cfg, At(cfg, inputs, i + 1), At(cfg, inputs, j), id);
    }
  }

  lemma CounterGrows(cfg: Config, a: Store, b: Store, id: string)
    requires Inv(cfg, a) && Evolves(a, b)
    ensures a.nextToken <= b.nextToken
    ensures id in a.workItems && a.workItems[id].lease.Some? ==> a.workItems[id].lease.value.token <= a.nextToken
  {
    hide ItemsEvolve, ApprovalsEvolve, SubmissionsEvolve, KeysEvolve, TokensInv, DependencyInv, AuditInv, MaterializationInv, SubmissionInv,
         SemanticInv, KeysInv, ItemOk;
  }

  // ----- leases and the completion gate -----

  /** Every stored record obeys the lease discipline and the completion gate. */
  lemma EveryRecordIsGated(cfg: Config, inputs: seq<Input>, id: string)
    requires id in Reached(cfg, inputs).workItems
    ensures var item := Reached(cfg, inputs).workItems[id];
            && (item.lease.Some? <==> item.state in {Building, Inspecting, Merging})
            && (item.lease.Some? ==> item.owner == item.lease.value.owner)
            && (item.lease.None? ==> item.owner == "")
            && (item.state !in {Inspecting, Merging, Completed, Abandoned} ==> item.inspection == NO_INSPECTION)
            && (item.state in {Merging, Completed} ==>
                  && item.inspection == FULL_INSPECTION
                  && item.expectedMerge.Some?
                  && IsCandidate(item.expectedMerge.value))
            && (item.state == Merging ==> item.expectedMerge.value.contractVersion == item.version)
            && (item.state == Completed ==> item.expectedMerge.value.contractVersion == item.version - 1)
  {
    var st := Reached(cfg, inputs);
    EveryRunKeeps(cfg, inputs) by {
      hide Inv;
    }
    hide Reached, TokensInv, DependencyInv, AuditInv, MaterializationInv, SubmissionInv, SemanticInv, KeysInv;
    assert ItemOk(cfg.projectId, st.workItems[id]);
  }

  /** A record keeps what it was materialized as, its merge target once it names one, and,
      once terminal, its state and version. */
  lemma RecordsAreStable(cfg: Config, inputs: seq<Input>, m: nat, n: nat, id: string)
    requires m <= n <= |inputs| && id in At(cfg, inputs, m).workItems
    ensures id in At(cfg, inputs, n).workItems
    ensures var a, b := At(cfg, inputs, m).workItems[id], At(cfg, inputs, n).workItems[id];
            && b.materializationKey == a.materializationKey && b.changeType == a.changeType && b.projectId == a.projectId
            && SameIds(a.dependencies, b.dependencies)
            && a.version <= b.version
            && (a.version == b.version ==> a.state == b.state)
            && (MemoryItems.Target(a) != "" ==> MemoryItems.Target(b) == MemoryItems.Target(a))
            && (a.state in {Completed, Abandoned} ==> b.state == a.state && b.version == a.version)
  {
    Between(cfg, inputs, m, n) by {
      hide Inv;
    }
    hide At, Inv, ApprovalsEvolve, SubmissionsEvolve, KeysEvolve, SameIds, MemoryItems.Target;
  }

  // ----- the audit log -----

  /** The moves recorded for a record are an unbroken chain of legal transitions from
      (initial, 0) to its state and version. */
  lemma EveryTrailIsUnbroken(cfg: Config, inputs: seq<Input>, id: string)
    requires id in Reached(cfg, inputs).workItems
    ensures var st := Reached(cfg, inputs);
            Unbroken(Trail(st.events, id), StateVersion(st.workItems[id].state, st.workItems[id].version))
  {
    EveryRunKeeps(cfg, inputs) by {
      hide Inv;
    }
    hide Reached, ItemsInv, TokensInv, DependencyInv, MaterializationInv, SubmissionInv, SemanticInv, KeysInv, Unbroken, Trail;
  }

  /** So a record's version counts its moves. */
  lemma {:induction false} VersionCountsMoves(trail: seq<AuditEvent>, end: StateVersion)
    requires Unbroken(trail, end)
    ensures end.version == |trail|
  {
    if |trail| > 1 {
      var earlier := trail[..|trail| - 1];
      assert LegalMove(trail[|trail| - 1]);
      assert forall i | 0 <= i < |earlier| :: earlier[i] == trail[i];
      VersionCountsMoves(earlier, earlier[|earlier| - 1].after.value);
    } else {
      assert LegalMove(trail[0]);
    }
  }

  // ----- idempotency -----

  /** A call whose key is recorded changes nothing; an answer says "applied" exactly when the
      call appended one event, under its own key. */
  lemma CallsAccountForThemselves(cfg: Config, inputs: seq<Input>, now: Time, call: Call, gate: Option<AuthorizationContext>)
    ensures var st := Reached(cfg, inputs);
            var (next, result) := Execute(cfg, st, now, call, gate);
            && (call.idempotencyKey in st.idempotency ==> next == st && result.mutation != MutationApplied)
            && (result.mutation == MutationApplied <==> next.events != st.events)
            && (result.mutation == MutationApplied ==>
                  && |next.events| == |st.events| + 1
                  && st.events <= next.events
                  && next.events[|st.events|].idempotencyKey == call.idempotencyKey)
            && (result.mutation != MutationApplied ==> next == st.(idempotency := next.idempotency))
  {
    hide Inv, Execute, ItemsEvolve, ApprovalsEvolve, SubmissionsEvolve, KeysEvolve;
    EveryRunKeeps(cfg, inputs);
    var st := Reached(cfg, inputs);
    hide Reached;
    ExecuteIsGood(cfg, st, now, call, gate);
  }

  /** No two events share a key, and an entry never changes once written. */
  lemma KeysAreUsedOnce(cfg: Config, inputs: seq<Input>, m: nat, key: string)
    requires m <= |inputs|
    ensures var st := Reached(cfg, inputs);
            forall i, j | 0 <= i < j < |st.events| :: st.events[i].idempotencyKey != st.events[j].idempotencyKey
    ensures key in At(cfg, inputs, m).idempotency ==>
              && key in Reached(cfg, inputs).idempotency
              && Reached(cfg, inputs).idempotency[key] == At(cfg, inputs, m).idempotency[key]
    ensures key in At(cfg, inputs, m).materializations ==>
              && key in Reached(cfg, inputs).materializations
              && Reached(cfg, inputs).materializations[key] == At(cfg, inputs, m).materializations[key]
  {
    EveryRunKeeps(cfg, inputs) by {
      hide Inv;
    }
    EveryRunEvolves(cfg, inputs, m) by {
      hide Inv;
    }
    hide Reached, LifecycleInv, SubmissionInv, SemanticInv, ItemsEvolve, ApprovalsEvolve, SubmissionsEvolve;
  }

  // ----- approvals and submissions -----

  /** Two pending submissions never speak for one record or carry one approval, and a
      pending one is active, over an unused approval, for a blocked or abandoned record. */
  lemma OnePendingSubmission(cfg: Config, inputs: seq<Input>, a: SubmissionId, b: SubmissionId)
    requires var st := Reached(cfg, inputs);
             && a in st.submissions && st.submissions[a].status == Pending
             && b in st.submissions && st.submissions[b].status == Pending
    ensures var st := Reached(cfg, inputs);
            var s := st.submissions[a];
            && Active(st, s.workItemId) == a
            && s.workItemId in st.workItems && st.workItems[s.workItemId].state in {Blocked, Abandoned}
            && s.approvalId in st.approvals && st.approvals[s.approvalId].status == Unused
            && (s.workItemId == st.submissions[b].workItemId || s.approvalId == st.submissions[b].approvalId ==> a == b)
  {
    EveryRunKeeps(cfg, inputs) by {
      hide Inv;
    }
    var st := Reached(cfg, inputs);
    hide Reached, LifecycleInv, SemanticInv, KeysInv;
    assert PendingOk(st, st.submissions[a]);
    if st.submissions[a].workItemId == st.submissions[b].workItemId || st.submissions[a].approvalId == st.submissions[b].approvalId {
      PendingIsUnique(st, a, b);
    }
  }

  /** An approval that is spent or revoked, and a submission that is settled, stay so. */
  lemma SettledIsFinal(cfg: Config, inputs: seq<Input>, m: nat, n: nat, approvalId: string, id: SubmissionId)
    requires m <= n <= |inputs|
    ensures approvalId in At(cfg, inputs, m).approvals && At(cfg, inputs, m).approvals[approvalId].status != Unused ==>
              && approvalId in At(cfg, inputs, n).approvals
              && At(cfg, inputs, n).approvals[approvalId] == At(cfg, inputs, m).approvals[approvalId]
    ensures id in At(cfg, inputs, m).submissions && At(cfg, inputs, m).submissions[id].status != Pending ==>
              && id in At(cfg, inputs, n).submissions
              && At(cfg, inputs, n).submissions[id].status == At(cfg, inputs, m).submissions[id].status
  {
    Between(cfg, inputs, m, n) by {
      hide Inv;
    }
    hide At, Inv, ItemsEvolve, KeysEvolve;
    if approvalId in At(cfg, inputs, m).approvals {
      assert ApprovalEvolves(At(cfg, inputs, m).approvals[approvalId], At(cfg, inputs, n).approvals[approvalId]);
    }
    if id in At(cfg, inputs, m).submissions {
      assert SubmissionEvolves(At(cfg, inputs, m).submissions[id], At(cfg, inputs, n).submissions[id]);
    }
  }

  /** The step at `k` spends an approval. */
  predicate SpendsAt(cfg: Config, inputs: seq<Input>, k: nat, approvalId: string)
    requires k < |inputs|
  {
    && approvalId in At(cfg, inputs, k).approvals && At(cfg, inputs, k).approvals[approvalId].status == Unused
    && approvalId in At(cfg, inputs, k + 1).approvals && At(cfg, inputs, k + 1).approvals[approvalId].status == Consumed
  }

  /** No approval is spent twice in a run. */
  lemma SpentOnce(cfg: Config, inputs: seq<Input>, i: nat, j: nat, approvalId: string)
    requires i < |inputs| && j < |inputs|
    requires SpendsAt(cfg, inputs, i, approvalId) && SpendsAt(cfg, inputs, j, approvalId)
    ensures i == j
  {
    hide At;
    if i < j {
      SettledIsFinal(cfg, inputs, i + 1, j, approvalId, NoSubmission);
    } else if j < i {
      SettledIsFinal(cfg, inputs, j + 1, i, approvalId, NoSubmission);
    }
  }

  // ----- the backlog -----

  /** The duplicate check is a full scan: the index maps exactly the canonical keys of the
      stored requests, each to its request. */
  lemma DuplicateCheckIsScan(cfg: Config, inputs: seq<Input>, key: SemanticKey)
    ensures var st := Reached(cfg, inputs);
            && (key in st.semanticRequests <==> exists id | id in st.requests :: KeyOf(cfg, st.requests[id]) == key)
            && (key in st.semanticRequests ==>
                  st.semanticRequests[key] in st.requests && KeyOf(cfg, st.requests[st.semanticRequests[key]]) == key)
            && (forall a, b | a in st.requests && b in st.requests ::
                  KeyOf(cfg, st.requests[a]) == KeyOf(cfg, st.requests[b]) ==> a == b)
  {
    EveryRunKeeps(cfg, inputs) by {
      hide Inv;
    }
    hide Reached, LifecycleInv, SubmissionInv, KeysInv, KeyOf;
    IndexIsScan(cfg, Reached(cfg, inputs), key);
  }
}
