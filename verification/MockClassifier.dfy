/** The built-in classifier: a fixed reading of the evidence. */
module MockClassifier {
  import opened Basics
  import opened Text
  import opened Validator
  import opened Classification
  import A = Actions
  import I = Incidents
  import P = Protocol
  import Verdicts

  const REASONING := "evidence"

  function EscalationProposal(input: Input, cause: SubCause): Proposal {
    Proposal(CauseWord(cause), Word(EscalateToHuman), KindWord(Pod), input.namespace, input.podName, false, REASONING)
  }

  function UndoProposal(input: Input): Proposal {
    Proposal(CauseWord(BadDeploy), Word(RolloutUndo), KindWord(Deployment), input.namespace, input.ownerDeployment,
        true, REASONING)
  }

  function RestartProposal(input: Input): Proposal {
    Proposal(CauseWord(TransientFailure), Word(RestartPod), KindWord(Pod), input.namespace, input.podName, true,
        REASONING)
  }

  function Classify(input: Input): Proposal {
    var has := input.evidence;
    if has(OomKilled) || has(OutOfMemory) then
      EscalationProposal(input, OomAdjacent)
    else if has(ConfigMapWord) || has(MissingEnvironment) || has(MissingEnv) || has(InvalidConfiguration) then
      EscalationProposal(input, BadConfig)
    else if has(ImagePullBackOff) || has(InvalidImage) || has(FailedToPullImage) then
      if TrimSpace(input.ownerDeployment) == "" then EscalationProposal(input, BadDeploy) else UndoProposal(input)
    else if has(ConnectionRefused) || has(FailedToConnect) || has(TemporarilyUnavailable) || has(TimeoutSign) then
      RestartProposal(input)
    else if has(PanicWord) then
      EscalationProposal(input, ApplicationPanic)
    else if has(BackOffRestarting) && HasRecentDeployment(has) then
      if TrimSpace(input.ownerDeployment) == "" then EscalationProposal(input, BadDeploy) else UndoProposal(input)
    else
      EscalationProposal(input, UnknownCause)
  }

  // ------------------------------------------------------------- what comes of it

  /** Signs the mock escalates on before looking at anything else. */
  predicate NeedsAHuman(has: Evidence) {
    has(OomKilled) || has(OutOfMemory) || has(ConfigMapWord) || has(MissingEnvironment) || has(MissingEnv)
        || has(InvalidConfiguration)
  }

  predicate BadImage(has: Evidence) {
    has(ImagePullBackOff) || has(InvalidImage) || has(FailedToPullImage)
  }

  predicate PlainlyTransient(has: Evidence) {
    has(ConnectionRefused) || has(FailedToConnect) || has(TemporarilyUnavailable) || has(TimeoutSign)
  }

  /** The cases in which the mock blames the rollout. */
  predicate BlamesRollout(has: Evidence) {
    && !NeedsAHuman(has)
    && (BadImage(has) || (!PlainlyTransient(has) && !has(PanicWord) && has(BackOffRestarting)
        && HasRecentDeployment(has)))
  }

  /** What the controller does in the end, told from the evidence and the owner alone: undo a rollout that is
      blamed, recent and of an owner with a good name; restart on transient signs unless something else is
      blamed, or when the undo was refused; otherwise nothing. */
  function Choice(has: Evidence, owner: string): Option<A.Action> {
    if BlamesRollout(has) && TrimSpace(owner) != "" then
      if HasRecentDeployment(has) && Trimmed(owner) then Some(A.RolloutUndo)
      else if HasTransientSign(has) then Some(A.RestartPod)
      else None
    else if !NeedsAHuman(has) && !BlamesRollout(has) && PlainlyTransient(has) then Some(A.RestartPod)
    else None
  }

  /** The action a proposal leads to, with both actions registered. */
  function Dispatched(p: Triage): Option<A.Action> {
    if Gate(p, BOTH_ACTIONS) == P.Act then ActionFor(p.action, BOTH_ACTIONS) else None
  }

  /** The gate's verdict and what is dispatched, when the choice is `choice`. */
  predicate ComesTo(p: Triage, choice: Option<A.Action>) {
    Dispatched(p) == choice && Gate(p, BOTH_ACTIONS) == (if choice.Some? then P.Act else P.Escalate)
        && (p.safeForAutomation <==> choice.Some?)
  }

  lemma EscalationOutcome(input: Input, cause: SubCause, o: ClassificationOutcome)
    requires GoodIds(input) && !cause.OtherCause? && IsOutcome(o, Proposed(EscalationProposal(input, cause)), input)
    ensures ComesTo(o.proposal, None)
  {
    var raw := EscalationProposal(input, cause);
    NormalFields(raw, cause, EscalateToHuman, Pod);
    ThreeShapesPass(raw, input);
    TrimSpaceLaws(input.namespace);
    TrimSpaceLaws(input.podName);
  }

  lemma RestartOutcome(input: Input, o: ClassificationOutcome)
    requires GoodIds(input) && HasTransientSign(input.evidence) && IsOutcome(o, Proposed(RestartProposal(input)), input)
    ensures ComesTo(o.proposal, Some(A.RestartPod))
  {
    var raw := RestartProposal(input);
    NormalFields(raw, TransientFailure, RestartPod, Pod);
    ThreeShapesPass(raw, input);
    TrimSpaceLaws(input.namespace);
    TrimSpaceLaws(input.podName);
  }

  lemma UndoAcceptedIff(input: Input)
    requires GoodIds(input) && TrimSpace(input.ownerDeployment) != "" && HasDeploySign(input.evidence)
    ensures Accepted(Proposed(UndoProposal(input)), input) <==>
        HasRecentDeployment(input.evidence) && Trimmed(input.ownerDeployment)
    ensures var p := Normalize(UndoProposal(input)); p.safeForAutomation && p.action == RolloutUndo
  {
    var raw := UndoProposal(input);
    NormalFields(raw, BadDeploy, RolloutUndo, Deployment);
    ThreeShapesPass(raw, input);
    TrimSpaceLaws(input.namespace);
    TrimSpaceLaws(input.ownerDeployment);
  }

  /** A refused undo falls back on the transient evidence. */
  lemma UndoOutcome(input: Input, o: ClassificationOutcome)
    requires GoodIds(input) && TrimSpace(input.ownerDeployment) != "" && HasDeploySign(input.evidence)
    requires IsOutcome(o, Proposed(UndoProposal(input)), input)
    ensures ComesTo(o.proposal,
              if HasRecentDeployment(input.evidence) && Trimmed(input.ownerDeployment) then Some(A.RolloutUndo)
              else if HasTransientSign(input.evidence) then Some(A.RestartPod) else None)
  {
    UndoAcceptedIff(input);
    if Accepted(Proposed(UndoProposal(input)), input) {
      ThreeShapesPass(UndoProposal(input), input);
    } else {
      FallbackDispatched(input, o.fallbackReason);
    }
  }

  lemma FallbackDispatched(input: Input, reason: string)
    ensures ComesTo(ValidateProposal(BuildSafeFallback(input, reason), input).output,
                    if HasTransientSign(input.evidence) then Some(A.RestartPod) else None)
  {
    NormalFallback(input, reason);
    ThreeShapesPass(BuildSafeFallback(input, reason), input);
  }

  lemma NormalFields(raw: Proposal, cause: SubCause, action: Response, kind: Kind)
    requires raw.subCause == CauseWord(cause) && raw.action == Word(action) && raw.kind == KindWord(kind)
        && raw.reasoning == REASONING
    requires !cause.OtherCause? && !action.OtherResponse? && !kind.OtherKind?
    ensures var p := Normalize(raw);
            p.subCause == cause && p.action == action && p.kind == kind && p.reasoning != ""
  {
    CauseWordsAreRead(cause);
    ResponseWordsAreRead(action);
    KindWordsAreRead(kind);
    TrimSpaceLaws(REASONING);
  }

  /** With good identifiers the mock's incidents are decided by the evidence and the owner alone. */
  lemma MockDecidesByEvidence(input: Input, o: ClassificationOutcome)
    requires GoodIds(input) && IsOutcome(o, Proposed(Classify(input)), input)
    ensures ComesTo(o.proposal, Choice(input.evidence, input.ownerDeployment))
  {
    var has := input.evidence;
    if NeedsAHuman(has) {
      EscalationOutcome(input, if has(OomKilled) || has(OutOfMemory) then OomAdjacent else BadConfig, o);
    } else if BlamesRollout(has) {
      if TrimSpace(input.ownerDeployment) == "" {
        EscalationOutcome(input, BadDeploy, o);
      } else {
        UndoOutcome(input, o);
      }
    } else if PlainlyTransient(has) {
      RestartOutcome(input, o);
    } else {
      EscalationOutcome(input, if has(PanicWord) then ApplicationPanic else UnknownCause, o);
    }
  }

  /** Every attempt of an incident chooses the same action, whatever the replaced Pod is called. */
  lemma SameChoiceForEveryPod(a: Input, b: Input, o: ClassificationOutcome, o': ClassificationOutcome)
    requires GoodIds(a) && GoodIds(b) && a.evidence == b.evidence && a.ownerDeployment == b.ownerDeployment
    requires IsOutcome(o, Proposed(Classify(a)), a) && IsOutcome(o', Proposed(Classify(b)), b)
    ensures Dispatched(o.proposal) == Dispatched(o'.proposal)
        && o.proposal.safeForAutomation == o'.proposal.safeForAutomation
  {
    MockDecidesByEvidence(a, o);
    MockDecidesByEvidence(b, o');
  }

  // -------------------------------------------------------------- over whole runs

  /** A Deployment key taken apart. */
  datatype Naming = Naming(namespace: string -> string, owner: string -> string)

  ghost predicate GoodNaming(names: Naming) {
    forall key :: GoodId(names.namespace(key))
  }

  function InputFor(lower: string -> string, names: Naming, key: string, bundle: I.Bundle, pod: string): Input {
    Input(pod, names.namespace(key), names.owner(key), EvidenceOf(lower, bundle.logs, bundle.events))
  }

  /** The verdict with the mock answering in time, a refusal worded as `explain` does. */
  function MockVerdict(input: Input, explain: ReasonCode -> string): P.Verdict {
    Gate(MockOutcome(input, explain).proposal, BOTH_ACTIONS)
  }

  function MockOutcome(input: Input, explain: ReasonCode -> string): ClassificationOutcome {
    var raw := Classify(input);
    var v := ValidateProposal(raw, input);
    if v.valid then ClassificationOutcome(v.output, Some(raw), v, false, "", v.reasonCode)
    else FallbackOutcome(input, explain(v.reasonCode), v.reasonCode).(original := Some(raw))
  }

  lemma MockVerdictIsAnOutcome(input: Input, explain: ReasonCode -> string)
    ensures IsOutcome(MockOutcome(input, explain), Proposed(Classify(input)), input)
  {
  }

  lemma MockVerdictByEvidence(input: Input, explain: ReasonCode -> string)
    requires GoodIds(input)
    ensures MockVerdict(input, explain) == if Choice(input.evidence, input.ownerDeployment).Some? then P.Act
        else P.Escalate
  {
    MockVerdictIsAnOutcome(input, explain);
    MockDecidesByEvidence(input, MockOutcome(input, explain));
  }

  /** The verdict when the call to the mock timed out. */
  function TimeoutVerdict(input: Input, reason: string): P.Verdict {
    Gate(FallbackOutcome(input, reason, NoCode).proposal, BOTH_ACTIONS)
  }

  lemma TimeoutVerdictByEvidence(input: Input, reason: string)
    ensures TimeoutVerdict(input, reason) == if HasTransientSign(input.evidence) then P.Act else P.Escalate
  {
    FallbackDispatched(input, reason);
  }

  /** How a refusal and a timeout are worded. */
  datatype Wording = Wording(explain: ReasonCode -> string, timeout: string)

  /** The decision gate with the mock, whose calls may time out if `mayTimeOut`. */
  ghost function MockPolicy(lower: string -> string, names: Naming, words: Wording, mayTimeOut: bool): Verdicts.Policy {
    (key: string, bundle: I.Bundle, pod: string, v: P.Verdict) =>
      var input := InputFor(lower, names, key, bundle, pod);
      v == MockVerdict(input, words.explain) || (mayTimeOut && v == TimeoutVerdict(input, words.timeout))
  }

  /** The mock and the fallback for a timeout agree on whether to act, for all evidence. */
  ghost predicate TimeoutsAgree(lower: string -> string, names: Naming) {
    forall key, bundle: I.Bundle ::
      var has := EvidenceOf(lower, bundle.logs, bundle.events);
      Choice(has, names.owner(key)).Some? <==> HasTransientSign(has)
  }

  lemma MockPolicyByEvidence(
    lower: string -> string, names: Naming, words: Wording, mayTimeOut: bool, key: string, bundle: I.Bundle,
        pod: string, v: P.Verdict)
    requires GoodNaming(names) && GoodId(pod)
    ensures var has := EvidenceOf(lower, bundle.logs, bundle.events);
            MockPolicy(lower, names, words, mayTimeOut)(key, bundle, pod, v)
            <==> v == (if Choice(has, names.owner(key)).Some? then P.Act else P.Escalate)
                 || (mayTimeOut && v == if HasTransientSign(has) then P.Act else P.Escalate)
  {
    MockVerdictByEvidence(InputFor(lower, names, key, bundle, pod), words.explain);
    TimeoutVerdictByEvidence(InputFor(lower, names, key, bundle, pod), words.timeout);
  }

  lemma MockActsAlike(lower: string -> string, names: Naming, words: Wording, mayTimeOut: bool)
    requires GoodNaming(names)
    ensures Verdicts.ActsAlike(MockPolicy(lower, names, words, mayTimeOut), GoodId)
            <==> !mayTimeOut || TimeoutsAgree(lower, names)
  {
    var policy := MockPolicy(lower, names, words, mayTimeOut);
    if !mayTimeOut || TimeoutsAgree(lower, names) {
      forall key, bundle, p, q, v | GoodId(p) && GoodId(q) && policy(key, bundle, p, P.Act) && policy(key, bundle, q, v)
        ensures v == P.Act
      {
        MockPolicyByEvidence(lower, names, words, mayTimeOut, key, bundle, p, P.Act);
        MockPolicyByEvidence(lower, names, words, mayTimeOut, key, bundle, q, v);
      }
    } else {
      var key, bundle: I.Bundle :|
        var has := EvidenceOf(lower, bundle.logs, bundle.events);
        Choice(has, names.owner(key)).Some? != HasTransientSign(has);
      assert GoodId("p");
      MockPolicyByEvidence(lower, names, words, mayTimeOut, key, bundle, "p", P.Act);
      MockPolicyByEvidence(lower, names, words, mayTimeOut, key, bundle, "p", P.Escalate);
    }
  }

  /** With the mock an escalated incident never consumed an attempt, in any run, exactly when the mock always
      answers in time, or the fallback for a timeout would act on just the evidence the mock acts on. */
  lemma MockNeverEscalatesLateIff(lower: string -> string, names: Naming, words: Wording, mayTimeOut: bool)
    requires GoodNaming(names)
    ensures Verdicts.NeverEscalatesLate(MockPolicy(lower, names, words, mayTimeOut), GoodId)
            <==> !mayTimeOut || TimeoutsAgree(lower, names)
  {
    MockActsAlike(lower, names, words, mayTimeOut);
    Verdicts.EscalatesAtZeroIffActsAlike(MockPolicy(lower, names, words, mayTimeOut), GoodId);
  }

  /** They do not agree: an out-of-memory kill beside a timeout is escalated by the mock and restarted by the
      fallback. So with timeouts an incident can escalate after an attempt. */
  lemma TimeoutsDisagree(names: Naming)
    ensures !TimeoutsAgree(s => s, names)
  {
    var bundle := I.Bundle(Phrase(OomKilled) + " " + Phrase(TimeoutSign), []);
    BothPhrasesInside(Phrase(OomKilled), Phrase(TimeoutSign));
    DisagreementOn(s => s, names, bundle);
  }

  lemma BothPhrasesInside(a: string, b: string)
    ensures var text := (a + " " + b) + " " + Join([]);
            Contains(text, a) && Contains(text, b)
  {
    var text := (a + " " + b) + " " + Join([]);
    assert text == "" + a + (" " + b + " ") == (a + " ") + b + " ";
    ContainsInside("", a, " " + b + " ");
    ContainsInside(a + " ", b, " ");
  }

  lemma DisagreementOn(lower: string -> string, names: Naming, bundle: I.Bundle)
    requires var has := EvidenceOf(lower, bundle.logs, bundle.events); has(OomKilled) && has(TimeoutSign)
    ensures !TimeoutsAgree(lower, names)
  {
    var has := EvidenceOf(lower, bundle.logs, bundle.events);
    assert Choice(has, names.owner("")).None? && HasTransientSign(has);
  }
}
