/** A preflight answers what the authoritative evaluation would: advice is faithful. */
module Preflighting {
  import opened Records
  import opened Authorization
  import opened Evaluator

  /** The two evaluations look at the same record, time and refresh evidence, and the
      caller passes both authorization gates. */
  ghost predicate SameEvidence(request: Request, advisory: EvaluationContext, binding: EvaluationContext) {
    && advisory.authority == Preflight
    && binding.authority == Authoritative
    && advisory.time == binding.time
    && advisory.refreshReadiness == binding.refreshReadiness
    && advisory.refreshDependencies == binding.refreshDependencies
    && binding.nextToken != NO_TOKEN
    && AuthorizeRequest(request, advisory).None?
    && AuthorizeRequest(request, binding).None?
  }

  ghost predicate SameAnswer(advice: Decision, decision: Decision) {
    && advice.outcome == decision.outcome
    && advice.before == decision.before
    && advice.after == decision.after
    && advice.reservation == decision.reservation
    && advice.rejection == decision.rejection
  }

  lemma SameGate(request: Request, current: Option<WorkItem>, advisory: EvaluationContext, binding: EvaluationContext)
    requires SameEvidence(request, advisory, binding)
    ensures Gate(request, current, advisory).None? == Gate(request, current, binding).None?
    ensures Gate(request, current, advisory).Some? ==>
              SameAnswer(Gate(request, current, advisory).value, Gate(request, current, binding).value)
  {
  }

  lemma SameVerdict(request: Request, item: WorkItem, advisory: EvaluationContext, binding: EvaluationContext)
    requires SameEvidence(request, advisory, binding)
    requires request.operation == ResolveBlock ==> PreviewMirrors(request, advisory, binding)
    ensures EvaluateTransition(request, item, advisory) == EvaluateTransition(request, item, binding)
  {
  }

  lemma SameMaterialization(request: Request, advisory: EvaluationContext, binding: EvaluationContext)
    requires SameEvidence(request, advisory, binding)
    ensures EvaluateMaterialization(request, advisory) == EvaluateMaterialization(request, binding)
  {
    hide AuthorizeRequest, SourceOf, ContractFailure, Blocker, FirstIncomplete, TargetRejection, SourceMergeRejection, CanonicalSource;
  }

  lemma SameDecide(request: Request, advisory: EvaluationContext, binding: EvaluationContext, before: StateVersion, verdict: Verdict)
    requires SameEvidence(request, advisory, binding)
    ensures SameAnswer(Decide(request, advisory, before, verdict), Decide(request, binding, before, verdict))
  {
  }

  /** For every command but resolve-block the advice is the decision, refusals included. */
  lemma PreflightIsFaithful(request: Request, current: Option<WorkItem>, advisory: EvaluationContext, binding: EvaluationContext)
    requires SameEvidence(request, advisory, binding)
    requires request.operation != ResolveBlock
    ensures SameAnswer(Evaluate(request, current, advisory), Evaluate(request, current, binding))
  {
    hide AuthorizeRequest, EvaluateTransition, EvaluateMaterialization, Decide, Gate;
    SameGate(request, current, advisory, binding);
    if Gate(request, current, binding).None? {
      if request.operation == Materialize {
        SameMaterialization(request, advisory, binding);
        SameDecide(request, advisory, binding, StateVersion(Initial, 0), EvaluateMaterialization(request, binding));
      } else {
        var item := current.value;
        SameVerdict(request, item, advisory, binding);
        SameDecide(request, advisory, binding, StateVersion(item.state, item.version), EvaluateTransition(request, item, binding));
      }
    }
  }

  /** The preview shown to preflight mirrors the submission the command names. */
  ghost predicate PreviewMirrors(request: Request, advisory: EvaluationContext, binding: EvaluationContext) {
    && request.payload.resolutionSubmission in binding.submissions
    && var submission := binding.submissions[request.payload.resolutionSubmission];
       advisory.preview == Some(ResolutionPreview(submission.kind, submission.changeSetId,
                                                  submission.plannedDependencyComplete, submission.inspectorConfirmed))
  }

  /** For resolve-block preflight does not look at the approval, and that is the whole
      difference: when the submission and its approval bind, the advice is the decision;
      when they do not, the decision is a refusal. So a decision that is allowed was
      advised as allowed with the same effect. */
  lemma PreflightCoversResolveBlock(request: Request, current: Option<WorkItem>, advisory: EvaluationContext, binding: EvaluationContext)
    requires SameEvidence(request, advisory, binding)
    requires request.operation == ResolveBlock
    requires PreviewMirrors(request, advisory, binding)
    ensures current.Some? && ResolutionBinding(request, current.value, binding).Some? ==>
              Evaluate(request, current, binding).outcome == Rejected
    ensures (current.None? || ResolutionBinding(request, current.value, binding).None?) ==>
              SameAnswer(Evaluate(request, current, advisory), Evaluate(request, current, binding))
  {
    hide AuthorizeRequest, EvaluateTransition, EvaluateMaterialization, Decide, Gate, ResolutionBinding;
    SameGate(request, current, advisory, binding);
    if Gate(request, current, binding).None? {
      var item := current.value;
      SameVerdict(request, item, advisory, binding);
      SameDecide(request, advisory, binding, StateVersion(item.state, item.version), EvaluateTransition(request, item, binding));
    }
  }
}
