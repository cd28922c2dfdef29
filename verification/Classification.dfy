/** From a classifier's answer to a decision: the proposal when it passes the validator, a deterministic
    fallback otherwise, and then the controller's gate. */
module Classification {
  import opened Basics
  import opened Text
  import opened Validator
  import A = Actions
  import C = Cluster
  import P = Protocol

  /** How the call to the classifier ended. `reason` is the failure in words. */
  datatype Answer =
    | NotConfigured(reason: string)
    | TimedOut(reason: string)
    | Failed(reason: string, proposal: Proposal)
    | Proposed(proposal: Proposal)

  datatype ClassificationOutcome = ClassificationOutcome(
    proposal: Triage, original: Option<Proposal>, validation: ValidationResult,
    fallbackUsed: bool, fallbackReason: string, fallbackReasonCode: ReasonCode)

  const RESTARTING := "safe fallback selected restart_pod: "

  const ESCALATING := "safe fallback selected manual escalation: "

  function BuildSafeFallback(input: Input, reason: string): Proposal {
    var given := TrimSpace(reason);
    var why := if given == "" then "classifier result could not be used safely" else given;
    if HasTransientSign(input.evidence) then
      Proposal(CauseWord(TransientFailure), Word(RestartPod), KindWord(Pod), input.namespace, input.podName, true,
          RESTARTING + why)
    else
      Proposal(CauseWord(UnknownCause), Word(EscalateToHuman), KindWord(Pod), input.namespace, input.podName, false,
          ESCALATING + why)
  }

  /** The fallback goes through the validator like any other proposal. */
  function FallbackOutcome(input: Input, reason: string, code: ReasonCode): ClassificationOutcome {
    var validation := ValidateProposal(BuildSafeFallback(input, reason), input);
    ClassificationOutcome(validation.output, None, validation, true, reason, code)
  }

  predicate Accepted(answer: Answer, input: Input) {
    answer.Proposed? && ValidateProposal(answer.proposal, input).valid
  }

  /** An accepted proposal is passed on as normalized; anything else is replaced by the fallback, under some
      reason, and only a refused proposal leaves a reason code. */
  ghost predicate IsOutcome(o: ClassificationOutcome, answer: Answer, input: Input) {
    && o.proposal == o.validation.output
    && o.original == (if answer.Failed? || answer.Proposed? then Some(answer.proposal) else None)
    && o.fallbackUsed == !Accepted(answer, input)
    && o.fallbackReasonCode == (if answer.Proposed? then ValidateProposal(answer.proposal, input).reasonCode
        else NoCode)
    && (if Accepted(answer, input) then o.validation == ValidateProposal(answer.proposal, input)
        else o.validation == ValidateProposal(BuildSafeFallback(input, o.fallbackReason), input))
  }

  /** `explain` words the reason of a refusal. */
  method ClassifyAndValidate(answer: Answer, input: Input, explain: ReasonCode -> string)
    returns (outcome: ClassificationOutcome)
    ensures IsOutcome(outcome, answer, input)
    ensures !answer.Proposed? ==> outcome.fallbackReason == answer.reason
  {
    if answer.NotConfigured? || answer.TimedOut? {
      return FallbackOutcome(input, answer.reason, NoCode);
    }
    if answer.Failed? {
      outcome := FallbackOutcome(input, answer.reason, NoCode);
      outcome := outcome.(original := Some(answer.proposal));
      return;
    }
    var validation := ValidateProposal(answer.proposal, input);
    ThreeShapesPass(answer.proposal, input);
    if validation.decision == FallbackMiss || !validation.valid {
      var reason := TrimSpace(explain(validation.reasonCode));
      if reason == "" {
        reason := "classifier proposal failed validation";
      }
      outcome := FallbackOutcome(input, reason, validation.reasonCode);
      outcome := outcome.(original := Some(answer.proposal));
      return;
    }
    outcome := ClassificationOutcome(validation.output, Some(answer.proposal), validation, false, "", NoCode);
  }

  // ------------------------------------------------------------------ the fallback

  /** An identifier that trimming leaves alone and that is not empty. */
  predicate GoodId(s: string) {
    s != "" && Trimmed(s)
  }

  lemma ReasoningIsKept(why: string)
    ensures TrimSpace(RESTARTING + why) != "" && TrimSpace(ESCALATING + why) != ""
  {
    assert (RESTARTING + why)[0] == RESTARTING[0] == 's' && (ESCALATING + why)[0] == ESCALATING[0] == 's';
    TrimSpaceLaws(RESTARTING + why);
    TrimSpaceLaws(ESCALATING + why);
  }

  lemma NormalFallback(input: Input, reason: string)
    ensures var p := Normalize(BuildSafeFallback(input, reason));
            && p.reasoning != "" && p.kind == Pod
            && p.namespace == TrimSpace(input.namespace) && p.name == TrimSpace(input.podName)
            && p.safeForAutomation == HasTransientSign(input.evidence)
            && p.action == (if HasTransientSign(input.evidence) then RestartPod else EscalateToHuman)
            && p.subCause == (if HasTransientSign(input.evidence) then TransientFailure else UnknownCause)
  {
    ReasoningIsKept(BuildSafeFallback(input, reason).reasoning[|if HasTransientSign(input.evidence) then RESTARTING
        else ESCALATING|..]);
    CauseWordsAreRead(if HasTransientSign(input.evidence) then TransientFailure else UnknownCause);
    KindWordsAreRead(Pod);
    ResponseWordsAreRead(RestartPod);
    ResponseWordsAreRead(EscalateToHuman);
  }

  /** The fallback is itself valid exactly when the incident's identifiers are good: it restarts the detected Pod
      on transient evidence and escalates it otherwise. */
  lemma FallbackValidIffGoodIds(input: Input, reason: string)
    ensures var v := ValidateProposal(BuildSafeFallback(input, reason), input);
            && (v.valid <==> GoodId(input.namespace) && GoodId(input.podName))
            && (v.valid ==> v.decision == if HasTransientSign(input.evidence) then Automate else Escalate)
  {
    NormalFallback(input, reason);
    ThreeShapesPass(BuildSafeFallback(input, reason), input);
    TrimSpaceLaws(input.namespace);
    TrimSpaceLaws(input.podName);
  }

  predicate GoodIds(input: Input) {
    GoodId(input.namespace) && GoodId(input.podName)
  }

  ghost predicate AlwaysValid(input: Input) {
    forall answer, o | IsOutcome(o, answer, input) :: o.validation.valid && o.validation.decision != FallbackMiss
  }

  /** Whatever the classifier proposes, and however it fails, the outcome is valid; this holds of an incident
      exactly when its namespace and Pod name are non-empty and trimmed. */
  lemma AlwaysValidIffGoodIds(input: Input)
    ensures AlwaysValid(input) <==> GoodIds(input)
  {
    var lost := FallbackOutcome(input, "", NoCode);
    assert IsOutcome(lost, NotConfigured(""), input);
    FallbackValidIffGoodIds(input, "");
    if GoodIds(input) {
      forall answer, o | IsOutcome(o, answer, input)
        ensures o.validation.valid && o.validation.decision != FallbackMiss
      {
        OutcomeIsValid(o, answer, input);
      }
    }
  }

  lemma OutcomeIsValid(o: ClassificationOutcome, answer: Answer, input: Input)
    requires IsOutcome(o, answer, input) && GoodIds(input)
    ensures PassesExactlyThreeShapes(o.validation, o.proposal, input) && o.validation.valid
  {
    if Accepted(answer, input) {
      ThreeShapesPass(answer.proposal, input);
    } else {
      FallbackValidIffGoodIds(input, o.fallbackReason);
      ThreeShapesPass(BuildSafeFallback(input, o.fallbackReason), input);
    }
  }

  // ---------------------------------------------------------------------- the gate

  /** The registered action of that name. */
  function ActionFor(r: Response, registered: set<A.Action>): Option<A.Action> {
    match r
    case RestartPod => if A.RestartPod in registered then Some(A.RestartPod) else None
    case RolloutUndo => if A.RolloutUndo in registered then Some(A.RolloutUndo) else None
    case _ => None
  }

  const BOTH_ACTIONS := {A.RestartPod, A.RolloutUndo}

  /** The controller looks at the proposal alone, not at the verdict of the validator. */
  function Gate(p: Triage, registered: set<A.Action>): P.Verdict {
    if !p.safeForAutomation then P.Escalate
    else if ActionFor(p.action, registered).None? then P.Reject
    else P.Act
  }

  /** What a proposal says it is about. */
  function Target(p: Triage): A.Object {
    if p.kind == Deployment then A.DeploymentObject(C.Ref(p.namespace, p.name))
    else A.PodObject(C.Ref(p.namespace, p.name))
  }

  predicate About(e: A.DetectionEvent, input: Input) {
    e.podName == input.podName && e.namespace == input.namespace && e.ownerDeployment == input.ownerDeployment
  }

  /** Acting means a supported restart or undo, and the object the action touches is exactly the validated
      target; escalating means a plain escalation; nothing is rejected. */
  predicate GateIsRight(p: Triage, input: Input, e: A.DetectionEvent) {
    match Gate(p, BOTH_ACTIONS)
    case Reject => false
    case Escalate => PlainEscalation(p, input)
    case Act =>
      && (SafeRestart(p, input) || SafeUndo(p, input))
      && A.Touches(ActionFor(p.action, BOTH_ACTIONS).value, e) == Target(p)
  }

  lemma GateOnValidProposal(v: ValidationResult, p: Triage, input: Input, e: A.DetectionEvent)
    requires PassesExactlyThreeShapes(v, p, input) && v.valid && About(e, input)
    ensures GateIsRight(p, input, e)
  {
    if p.safeForAutomation {
      assert p.action == RestartPod || p.action == RolloutUndo;
    }
  }

  /** With good identifiers and both actions registered, whatever the classifier answers, the gate is right. */
  lemma GateActsOnTheValidatedTarget(input: Input, e: A.DetectionEvent)
    requires GoodIds(input) && About(e, input)
    ensures forall answer, o | IsOutcome(o, answer, input) :: GateIsRight(o.proposal, input, e)
  {
    forall answer, o | IsOutcome(o, answer, input) ensures GateIsRight(o.proposal, input, e) {
      OutcomeIsValid(o, answer, input);
      GateOnValidProposal(o.validation, o.proposal, input, e);
    }
  }

  /** For identifiers that are not good the gate can act on an outcome that failed its own validation. It does so
      exactly when no proposal was accepted and the evidence is transient; the Pod it then restarts is the
      detected one, which is not the proposal's target as soon as an identifier is untrimmed. */
  lemma GateActsOnInvalidOutcomeIff(o: ClassificationOutcome, answer: Answer, input: Input, e: A.DetectionEvent)
    requires IsOutcome(o, answer, input) && About(e, input)
    ensures !o.validation.valid && Gate(o.proposal, BOTH_ACTIONS) == P.Act
            <==> !Accepted(answer, input) && HasTransientSign(input.evidence) && !GoodIds(input)
    ensures !o.validation.valid && Gate(o.proposal, BOTH_ACTIONS) == P.Act ==>
              A.Touches(ActionFor(o.proposal.action, BOTH_ACTIONS).value, e) == A.PodObject(C.Ref(input.namespace,
                  input.podName))
    ensures !o.validation.valid && Gate(o.proposal, BOTH_ACTIONS) == P.Act ==>
              (Target(o.proposal) == A.PodObject(C.Ref(input.namespace, input.podName))
               <==> Trimmed(input.namespace) && Trimmed(input.podName))
  {
    if !Accepted(answer, input) {
      NormalFallback(input, o.fallbackReason);
      FallbackValidIffGoodIds(input, o.fallbackReason);
      ThreeShapesPass(BuildSafeFallback(input, o.fallbackReason), input);
      TrimSpaceLaws(input.namespace);
      TrimSpaceLaws(input.podName);
    }
  }
}
