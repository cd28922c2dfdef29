/** The steps one worker of the controller takes, and what each of them does for it. */
module Workers {
  import opened Basics
  import opened Incidents
  import P = Protocol
  import Stories

  // ------------------------------------------------------------------ worker scripts

  /** `steps` led from `s` to `s'`, and none of them was out of turn. */
  ghost predicate Took(s: P.State, steps: seq<P.Step>, s': P.State)
    decreases |steps|
  {
    if steps == [] then s' == s else P.Enabled(s, steps[0]) && Took(P.Next(s, steps[0]), steps[1..], s')
  }

  lemma {:induction false} TookRuns(s: P.State, steps: seq<P.Step>, s': P.State)
    requires Took(s, steps, s')
    ensures s' == P.Run(s, steps)
    decreases |steps|
  {
    if steps != [] {
      TookRuns(P.Next(s, steps[0]), steps[1..], s');
    }
  }

  lemma {:induction false} TookMore(s: P.State, first: seq<P.Step>, mid: P.State, second: seq<P.Step>, s': P.State)
    requires Took(s, first, mid) && Took(mid, second, s')
    ensures Took(s, first + second, s')
    decreases |first|
  {
    if first == [] {
      assert first + second == second;
    } else {
      assert (first + second)[1..] == first[1..] + second;
      TookMore(P.Next(s, first[0]), first[1..], mid, second, s');
    }
  }

  lemma TookOne(s: P.State, step: P.Step)
    requires P.Enabled(s, step)
    ensures Took(s, [step], P.Next(s, step))
  {
    assert [step][1..] == [];
    assert Took(P.Next(s, step), [], P.Next(s, step));
  }

  /** So whatever controllers reach from an empty table by steps in turn, each Deployment's record is in flight
      exactly while one worker holds it, and every incident's history is well told. */
  lemma ControllersAreSafe(hasClassifier: bool, steps: seq<P.Step>, s: P.State, key: string, id: string)
    requires Took(P.Start(hasClassifier), steps, s)
    ensures key in s.table && s.table[key].inFlight <==> P.Held(s, key)
    ensures Stories.WellTold(Stories.StoryOf(s.history, id))
  {
    TookRuns(P.Start(hasClassifier), steps, s);
    P.ClaimsAreExclusive(hasClassifier, steps, key);
    Stories.EveryIncidentIsWellTold(hasClassifier, steps, id);
  }

  /** Nobody else's step moves worker `w`, or starts one under its number or its fresh id. */
  predicate Foreign(step: P.Step, w: nat, id: string) {
    step.OutsideEdit? || (step.w != w && (step.BeginAttempt? ==> step.id != id))
  }

  /** What the next call of `w` relies on: its own stage or, before it begins, its unused number and id. */
  predicate Undisturbed(s: P.State, s': P.State, w: nat, id: string) {
    && (w in s'.workers <==> w in s.workers) && (w in s.workers ==> s'.workers[w] == s.workers[w])
    && (id in s'.used <==> id in s.used)
  }

  lemma ForeignStep(s: P.State, step: P.Step, w: nat, id: string)
    requires Foreign(step, w, id)
    ensures Undisturbed(s, P.Next(s, step), w, id)
  {
    if step.BeginAttempt? {
      ForeignLook(s, step, w, id);
    }
  }

  lemma ForeignLook(s: P.State, step: P.Step, w: nat, id: string)
    requires Foreign(step, w, id) && step.BeginAttempt?
    ensures Undisturbed(s, P.Next(s, step), w, id)
  {
  }

  /** That holds whatever the others do in between; so proving the calls one by one covers every interleaving. */
  lemma {:induction false} OthersLeaveAWorkerAlone(s: P.State, steps: seq<P.Step>, w: nat, id: string)
    requires forall i | 0 <= i < |steps| :: Foreign(steps[i], w, id)
    ensures Undisturbed(s, P.Run(s, steps), w, id)
    decreases |steps|
  {
    if steps != [] {
      assert Foreign(steps[0], w, id);
      ForeignStep(s, steps[0], w, id);
      OthersLeaveAWorkerAlone(P.Next(s, steps[0]), steps[1..], w, id);
    }
  }

  /** The end of a worker without a running action. */
  predicate IsDeparture(steps: seq<P.Step>, w: nat) {
    |steps| == 2 && steps[0].EndAttempt? && steps[0].w == w && steps[1] == P.CloseIncident(w)
  }

  /** From the decision on: it acts and stays, or it does not and leaves. */
  predicate IsDecision(steps: seq<P.Step>, w: nat, acts: bool) {
    && steps != [] && steps[0].Decide? && steps[0].w == w
    && (if acts then |steps| == 1 && steps[0].verdict == P.Act
        else steps[0].verdict != P.Act && IsDeparture(steps[1..], w))
  }

  /** A whole visit of worker `w`: nothing, a skipped or an exhausted look, or a claim with what follows from it.
      A claim is given back by exactly one endAttempt unless an action is left running. */
  predicate IsVisit(steps: seq<P.Step>, w: nat, acts: bool) {
    if steps == [] then !acts
    else
      && steps[0].BeginAttempt? && steps[0].w == w
      && if |steps| == 1 then !acts
         else if |steps| == 2 then !acts && steps[1] == P.CloseIncident(w)
         else steps[1] == P.LookForEvidence(w) && IsAttempt(steps[2..], w, acts)
  }

  predicate IsAttempt(steps: seq<P.Step>, w: nat, acts: bool) {
    || (!acts && IsDeparture(steps, w))
    || IsDecision(steps, w, acts)
    || (steps != [] && steps[0].CollectEvidence? && steps[0].w == w && IsDecision(steps[1..], w, acts))
  }

  // ------------------------------------------------------------- one step at a time

  /** A LOGGED line: how an incident ended, or an attempt of it. */
  datatype ClosingLine = ClosingLine(id: string, attempt: int, result: Outcome)

  /** The lines the controller writes for closed incidents. */
  function ControllerLines(h: P.History): seq<ClosingLine> {
    match h
    case Nothing => []
    case Then(e, before) =>
      ControllerLines(before) + if e.Logged? && e.byController then [ClosingLine(e.id, e.attempt, e.result)] else []
  }

  /** The lines that attempts write for themselves. */
  function AttemptLines(h: P.History): seq<ClosingLine> {
    match h
    case Nothing => []
    case Then(e, before) =>
      AttemptLines(before) + if e.Logged? && !e.byController then [ClosingLine(e.id, e.attempt, e.result)] else []
  }

  /** The step leaves all lines as they are. */
  predicate SameLines(s: P.State, s': P.State) {
    && s'.hasClassifier == s.hasClassifier && ControllerLines(s'.history) == ControllerLines(s.history)
    && AttemptLines(s'.history) == AttemptLines(s.history)
  }

  /** The line of an attempt that ended with `result`; an error leaves none. */
  function ResultLine(id: string, attempt: int, result: Outcome): seq<ClosingLine> {
    if result == Unset then [] else [ClosingLine(id, attempt, result)]
  }

  function FrozenEvidence(t: Table, key: string): Option<Bundle> {
    if key in t then t[key].evidence else None
  }

  lemma BeginStep(s: P.State, w: nat, key: string, generation: int, now: Time, id: string) returns (s': P.State)
    requires w !in s.workers && id !in s.used
    ensures Took(s, [P.BeginAttempt(w, key, generation, now, id)], s')
    ensures SameLines(s, s')
    ensures var (r, admission) := Admit(Lookup(s.table, key), generation, now, id);
            && s'.table == s.table[key := r]
            && (admission == Skip ==> w !in s'.workers)
            && (admission == Proceed ==> At(s', w, key, r.id, P.Claimed))
            && (admission == BudgetSpent ==> At(s', w, key, r.id, P.Closing(Exhausted)))
  {
    var step := P.BeginAttempt(w, key, generation, now, id);
    TookOne(s, step);
    s' := P.Next(s, step);
  }

  lemma LookStep(s: P.State, w: nat, key: string, id: string) returns (s': P.State)
    requires At(s, w, key, id, P.Claimed)
    ensures Took(s, [P.LookForEvidence(w)], s') && SameLines(s, s') && s'.table == s.table
    ensures var frozen := FrozenEvidence(s.table, key);
            At(s', w, key, id, if !s.hasClassifier then P.Ending(Escalated)
                               else if frozen.Some? then P.Deciding(frozen.value) else P.Collecting)
  {
    var step := P.LookForEvidence(w);
    TookOne(s, step);
    s' := P.Next(s, step);
  }

  lemma CollectStep(s: P.State, w: nat, key: string, id: string, bundle: Bundle) returns (s': P.State)
    requires At(s, w, key, id, P.Collecting)
    ensures Took(s, [P.CollectEvidence(w, bundle)], s') && SameLines(s, s') && At(s', w, key, id, P.Deciding(bundle))
    ensures s'.table == if key in s.table then s.table[key := Frozen(s.table[key], bundle)] else s.table
  {
    var step := P.CollectEvidence(w, bundle);
    TookOne(s, step);
    s' := P.Next(s, step);
  }

  lemma ActStep(s: P.State, w: nat, key: string, id: string, bundle: Bundle, pod: string) returns (s': P.State)
    requires At(s, w, key, id, P.Deciding(bundle))
    ensures Took(s, [P.Decide(w, pod, P.Act)], s') && SameLines(s, s')
    ensures key in s.table ==> s'.table == s.table[key := Counted(s.table[key])]
                               && At(s', w, key, id, P.Running(s.table[key].attemptCount + 1, 0))
    ensures key !in s.table ==> s'.table == s.table && At(s', w, key, id, P.Running(0, 0))
  {
    var step := P.Decide(w, pod, P.Act);
    TookOne(s, step);
    s' := P.Next(s, step);
  }

  lemma RefuseStep(s: P.State, w: nat, key: string, id: string, bundle: Bundle, pod: string,
      verdict: P.Verdict) returns (s': P.State)
    requires At(s, w, key, id, P.Deciding(bundle)) && verdict != P.Act
    ensures Took(s, [P.Decide(w, pod, verdict)], s') && SameLines(s, s') && s'.table == s.table
    ensures At(s', w, key, id, P.Ending(if verdict == P.Escalate then Escalated else Rejected))
  {
    var step := P.Decide(w, pod, verdict);
    TookOne(s, step);
    s' := P.Next(s, step);
  }

  function WriteSteps(w: nat, n: nat): seq<P.Step> {
    seq(n, _ => P.WriteSpec(w))
  }

  /** Each spec write of a running attempt moves the Deployment's generation by one, and nothing else. */
  lemma {:induction false} SpecWrites(
    s: P.State, w: nat, key: string, id: string, attempt: nat, done: nat, n: nat) returns (s': P.State)
    requires At(s, w, key, id, P.Running(attempt, done)) && done + n <= P.MAX_WRITES
    ensures Took(s, WriteSteps(w, n), s') && SameLines(s, s') && s'.table == s.table
    ensures At(s', w, key, id, P.Running(attempt, done + n)) && s'.workers - {w} == s.workers - {w}
    ensures P.LiveGeneration(s', key) == P.LiveGeneration(s, key) + n
    decreases n
  {
    if n == 0 {
      s' := s;
      assert WriteSteps(w, n) == [];
    } else {
      var mid := P.Next(s, P.WriteSpec(w));
      TookOne(s, P.WriteSpec(w));
      s' := SpecWrites(mid, w, key, id, attempt, done + 1, n - 1);
      TookMore(s, [P.WriteSpec(w)], mid, WriteSteps(w, n - 1), s');
      assert [P.WriteSpec(w)] + WriteSteps(w, n - 1) == WriteSteps(w, n);
    }
  }

  lemma FinishStep(s: P.State, w: nat, key: string, id: string, attempt: nat, writes: nat, result: Outcome)
    returns (s': P.State)
    requires At(s, w, key, id, P.Running(attempt, writes)) && (LeavesOpen(result) || result == Recovered)
    ensures Took(s, [P.FinishRemediate(w, result)], s') && s'.table == s.table
    ensures s'.hasClassifier == s.hasClassifier && ControllerLines(s'.history) == ControllerLines(s.history)
    ensures AttemptLines(s'.history) == AttemptLines(s.history) + ResultLine(id, attempt, result)
    ensures At(s', w, key, id, P.Ending(result))
  {
    var step := P.FinishRemediate(w, result);
    TookOne(s, step);
    s' := P.Next(s, step);
  }

  lemma EndStep(s: P.State, w: nat, key: string, id: string, outcome: Outcome, now: Time) returns (s': P.State)
    requires At(s, w, key, id, P.Ending(outcome))
    ensures Took(s, [P.EndAttempt(w, now)], s') && At(s', w, key, id, P.Closing(outcome))
    ensures SameLines(s, s')
    ensures s'.table == if key in s.table then s.table[key := Released(s.table[key], outcome, now)] else s.table
  {
    var step := P.EndAttempt(w, now);
    TookOne(s, step);
    s' := P.Next(s, step);
  }

  lemma CloseStep(s: P.State, w: nat, key: string) returns (s': P.State)
    requires w in s.workers && s.workers[w].key == key && s.workers[w].stage.Closing?
    ensures Took(s, [P.CloseIncident(w)], s')
    ensures s'.hasClassifier == s.hasClassifier && s'.table == s.table && w !in s'.workers
    ensures ControllerLines(s'.history) == ControllerLines(s.history) + OwnLine(s.table, key)
    ensures AttemptLines(s'.history) == AttemptLines(s.history)
  {
    var step := P.CloseIncident(w);
    TookOne(s, step);
    s' := P.Next(s, step);
  }

  /** The line of a closed incident, unless Remediate has written it. */
  function OwnLine(t: Table, key: string): seq<ClosingLine> {
    var closure := ClosureOf(Lookup(t, key));
    if closure.None? || closure.value.1 == Recovered then []
    else [ClosingLine(closure.value.0, closure.value.2, closure.value.1)]
  }

  /** Worker `w` is at `stage` of its visit to `key` for incident `id`. */
  predicate At(s: P.State, w: nat, key: string, id: string, stage: P.Stage) {
    w in s.workers && s.workers[w] == P.Worker(key, id, stage)
  }
}
