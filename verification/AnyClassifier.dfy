/** What the decision gate may do when nothing is known of the classifier. */
module AnyClassifier {
  import opened Basics
  import opened Text
  import opened Validator
  import opened Classification
  import opened MockClassifier
  import I = Incidents
  import P = Protocol
  import Verdicts

  /** Some answer, or some failure to answer, makes the gate give verdict `v`. */
  ghost predicate MayBe(input: Input, v: P.Verdict) {
    exists answer, o :: IsOutcome(o, answer, input) && Gate(o.proposal, BOTH_ACTIONS) == v
  }

  /** Evidence that supports an action. */
  predicate Actionable(has: Evidence, owner: string) {
    HasTransientSign(has) || (HasDeploySign(has) && HasRecentDeployment(has) && GoodId(owner))
  }

  function OutcomeOn(raw: Proposal, input: Input): ClassificationOutcome {
    var v := ValidateProposal(raw, input);
    if v.valid then ClassificationOutcome(v.output, Some(raw), v, false, "", v.reasonCode)
    else FallbackOutcome(input, "", v.reasonCode).(original := Some(raw))
  }

  lemma OutcomeOnIsOne(raw: Proposal, input: Input)
    ensures IsOutcome(OutcomeOn(raw, input), Proposed(raw), input)
  {
  }

  lemma MayAlwaysEscalate(input: Input)
    requires GoodIds(input)
    ensures MayBe(input, P.Escalate)
  {
    var raw := EscalationProposal(input, UnknownCause);
    OutcomeOnIsOne(raw, input);
    EscalationOutcome(input, UnknownCause, OutcomeOn(raw, input));
  }

  lemma MayActIffActionable(input: Input)
    requires GoodIds(input)
    ensures MayBe(input, P.Act) <==> Actionable(input.evidence, input.ownerDeployment)
  {
    if HasTransientSign(input.evidence) {
      OutcomeOnIsOne(RestartProposal(input), input);
      RestartOutcome(input, OutcomeOn(RestartProposal(input), input));
    } else if Actionable(input.evidence, input.ownerDeployment) {
      OutcomeOnIsOne(UndoProposal(input), input);
      TrimSpaceLaws(input.ownerDeployment);
      UndoOutcome(input, OutcomeOn(UndoProposal(input), input));
    }
    forall answer, o | IsOutcome(o, answer, input) && Gate(o.proposal, BOTH_ACTIONS) == P.Act
      ensures Actionable(input.evidence, input.ownerDeployment)
    {
      OnlyActionableIsActedOn(o, answer, input);
    }
  }

  lemma OnlyActionableIsActedOn(o: ClassificationOutcome, answer: Answer, input: Input)
    requires IsOutcome(o, answer, input) && GoodIds(input) && Gate(o.proposal, BOTH_ACTIONS) == P.Act
    ensures Actionable(input.evidence, input.ownerDeployment)
  {
    OutcomeIsValid(o, answer, input);
    NamesAreTrimmed(o, answer, input);
  }

  lemma NamesAreTrimmed(o: ClassificationOutcome, answer: Answer, input: Input)
    requires IsOutcome(o, answer, input)
    ensures Trimmed(o.proposal.name)
  {
    if Accepted(answer, input) {
      ThreeShapesPass(answer.proposal, input);
      TrimSpaceLaws(answer.proposal.name);
    } else {
      ThreeShapesPass(BuildSafeFallback(input, o.fallbackReason), input);
      TrimSpaceLaws(input.podName);
    }
  }

  /** The decision gate behind a classifier of which nothing is known. */
  ghost function AnyPolicy(lower: string -> string, names: Naming): Verdicts.Policy {
    (key: string, bundle: I.Bundle, pod: string, v: P.Verdict) => MayBe(InputFor(lower, names, key, bundle, pod), v)
  }

  ghost predicate NothingActionable(lower: string -> string, names: Naming) {
    forall key, bundle: I.Bundle :: !Actionable(EvidenceOf(lower, bundle.logs, bundle.events), names.owner(key))
  }

  lemma AnyActsAlikeIff(lower: string -> string, names: Naming)
    requires GoodNaming(names)
    ensures Verdicts.ActsAlike(AnyPolicy(lower, names), GoodId) <==> NothingActionable(lower, names)
  {
    var policy := AnyPolicy(lower, names);
    if NothingActionable(lower, names) {
      forall key, bundle, p | GoodId(p) ensures !policy(key, bundle, p, P.Act) {
        MayActIffActionable(InputFor(lower, names, key, bundle, p));
      }
    } else {
      var key, bundle: I.Bundle :| Actionable(EvidenceOf(lower, bundle.logs, bundle.events), names.owner(key));
      assert GoodId("p");
      MayActIffActionable(InputFor(lower, names, key, bundle, "p"));
      MayAlwaysEscalate(InputFor(lower, names, key, bundle, "p"));
      assert policy(key, bundle, "p", P.Act) && policy(key, bundle, "p", P.Escalate);
    }
  }

  /** With a classifier of which nothing is known, incidents escalate only at attempt 0 exactly when no evidence
      supports an action, that is, when there are no attempts at all. */
  lemma AnyNeverEscalatesLateIff(lower: string -> string, names: Naming)
    requires GoodNaming(names)
    ensures Verdicts.NeverEscalatesLate(AnyPolicy(lower, names), GoodId) <==> NothingActionable(lower, names)
  {
    AnyActsAlikeIff(lower, names);
    Verdicts.EscalatesAtZeroIffActsAlike(AnyPolicy(lower, names), GoodId);
  }
}
