/** A run in which the retry of an applied call is not answered from the record: the call
    named a submission before there was one. */
module MemoryRetryRun {
  import opened Records
  import opened Authorization
  import opened Evaluator
  import opened MemoryStore
  import opened MemoryRequests
  import opened MemoryRuns
  import opened MemoryReplay
  import opened EvaluatorRules
  import Text

  const CFG: Config := Config("P", 60, "materializer", c => c)

  const AUTH: AuthorizationContext :=
    AuthorizationContext("materializer", Materializer, "P", "", "", [Materialize], ["project:P"], 100, "v1")

  const DRAFTER: AuthorizationContext :=
    AuthorizationContext("drafter", DraftingTable, "P", "", "", [BlockedWorkSubmitResolution], ["project:P"], 100, "v1")

  /** Complete, but held up by project policy. */
  const ITEM: WorkItem :=
    WorkItem("W", "P", NO_STATE, 0, "", "changes", true, "", "", None, [], Readiness(true, true, true, true, true, true, false, []), "",
             NoSubmission, NO_INSPECTION, None, NO_RECONCILIATION)

  /** A materialization that names the first submission, and no change set. */
  const MATERIALIZE: Call :=
    Call(Materialize, "", 0, "W", None, Initial, Some(0), NO_TOKEN, "", "K1", "M",
         LifecyclePayload(Payload(Some(ITEM), "", "", "", "", "", "", Resolution(1), false, "", false, false, false, None)))

  const APPROVAL: Approval :=
    Approval("maintainer", "materializer", "P", "W", 0, "CS", ResolutionDigest("d"), ResolveBlock, "out-of-scope", Blocked, Some(1), "v1", 100,
             Unused)

  const SUBMIT: Call :=
    Call(BlockedWorkSubmitResolution, "", 0, "W", None, Blocked, Some(1), NO_TOKEN, "A", "K2", "",
         BlockedResolutionPayload("out-of-scope", "CS", "d", ""))

  const RUN: seq<Input> := [Invoke(1, MATERIALIZE, Some(AUTH)), ApprovalSeeded("A", APPROVAL), Invoke(2, SUBMIT, Some(DRAFTER))]

  lemma Trusted(now: Time)
    requires 0 < now < 100
    ensures AuthorizeLifecycle(AUTH, Materialize, "P", "W", "", [], now).None?
    ensures AuthorizeContext(DRAFTER, BlockedWorkSubmitResolution, "P", "W", "", ["project:" + "P"], now).None?
    ensures !IsWildcard("project:P")
  {
    assert "project:" + "P" == "project:P";
    assert !IsWildcard("project:P") by {
      assert Text.TrimLeft("project:P") == "project:P";
      assert Text.TrimRight("project:P") == "project:P";
    }
  }

  const REQUEST: Request :=
    Request(Materialize, "P", "W", "M", "K1", Initial, Some(0), NO_TOKEN, [], MATERIALIZE.payload.payload, AUTH)

  lemma Normalized()
    ensures Normalize(CFG, EMPTY, MATERIALIZE, AUTH, MATERIALIZE.payload.payload) == REQUEST
  {
  }

  lemma Decided()
    ensures CurrentItem(EMPTY, REQUEST).None?
    ensures var d := Evaluate(REQUEST, None, RefreshedEvaluation(CFG, EMPTY, 1, REQUEST));
            d.outcome == Allowed && d.authority == Authoritative && d.after == Some(StateVersion(Blocked, 1)) && d.reservation.Some?
  {
    hide Evaluate, AuthorizeLifecycle, LiveDependencies, SubmissionSnapshot;
    var evaluation := RefreshedEvaluation(CFG, EMPTY, 1, REQUEST);
    Trusted(1);
    MaterializedExactly(REQUEST, None, evaluation);
    AllowedShape(REQUEST, None, evaluation);
    EvaluateKeepsAuthority(REQUEST, None, evaluation);
  }

  lemma Routed()
    ensures RouteOf(CFG, EMPTY, 1, MATERIALIZE, AUTH).Perform?
    ensures RouteOf(CFG, EMPTY, 1, MATERIALIZE, AUTH).request == REQUEST
  {
    Normalized();
    Trusted(1);
    hide Normalize, Evaluate, AuthorizeLifecycle, LiveDependencies, SubmissionSnapshot;
    assert Authorized(MATERIALIZE, REQUEST, 1);
  }

  lemma FirstStep()
    ensures var (st, result) := Execute(CFG, EMPTY, 1, MATERIALIZE, Some(AUTH));
            && result.mutation == MutationApplied
            && "W" in st.workItems && st.workItems["W"].state == Blocked && st.workItems["W"].version == 1 && st.workItems["W"].id == "W"
            && st.idempotency.Keys == {"K1"} && st.approvals == map[] && st.submissions == map[] && st.activeSubmissions == map[]
            && st.nextResolutionId == 0
  {
    hide Normalize, Evaluate, RefreshedEvaluation, CurrentItem, RouteOf, ExecuteRequest, PreflightAnswer, FingerprintOf, ApprovalSubject;
    Routed();
    Decided();
    LifecycleExecutes(CFG, EMPTY, 1, MATERIALIZE, AUTH);
  }

  lemma SecondCall(st: Store)
    requires "W" in st.workItems && st.workItems["W"].state == Blocked && st.workItems["W"].version == 1 && st.workItems["W"].id == "W"
    requires "K2" !in st.idempotency && "A" in st.approvals && st.approvals["A"] == APPROVAL
    requires st.activeSubmissions == map[] && st.nextResolutionId == 0
    ensures var next := Execute(CFG, st, 2, SUBMIT, Some(DRAFTER)).0;
            Resolution(1) in next.submissions && next.submissions[Resolution(1)].changeSetId == "CS"
  {
    hide AuthorizeContext, RequestFingerprintOf, ExecuteLifecycle, PreflightAnswer, SubmitRejection, Supersede;
    Trusted(2);
    Accepted(st);
  }

  lemma Accepted(st: Store)
    requires "W" in st.workItems && st.workItems["W"].state == Blocked && st.workItems["W"].version == 1
    requires "A" in st.approvals && st.approvals["A"] == APPROVAL
    ensures SubmitRejection(CFG, st, 2, SUBMIT, DRAFTER).None?
  {
  }

  /** The materialization is applied and, a submission having been filed meanwhile, its retry
      is refused. */
  lemma RetryIsRefused(later: Time)
    requires 0 < later < 100
    ensures Execute(CFG, At(CFG, RUN, 0), 1, MATERIALIZE, Some(AUTH)).1.mutation == MutationApplied
    ensures var again := Execute(CFG, At(CFG, RUN, 3), later, MATERIALIZE, Some(AUTH));
            again.0 == At(CFG, RUN, 3) && !again.1.ok
  {
    hide Execute;
    FirstStep();
    assert At(CFG, RUN, 0) == EMPTY;
    hide At;
    Onward(CFG, RUN, 0);
    Onward(CFG, RUN, 1);
    Onward(CFG, RUN, 2);
    SecondCall(At(CFG, RUN, 2));
    assert Rebound(At(CFG, RUN, 0), At(CFG, RUN, 3), MATERIALIZE);
    RetriesReplay(CFG, RUN, 0, 3, later);
  }
}
