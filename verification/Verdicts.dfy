/** When an escalated or rejected incident has consumed no attempt. */
module Verdicts {
  import opened Basics
  import opened Incidents
  import opened Protocol
  import opened Stories

  /** The verdicts the decision gate may give for a Deployment, its frozen evidence and the Pod seen crashing now.
      Whatever else the answer depends on, a timeout, a restart count or chance, more than one may be possible. */
  type Policy = (string, Bundle, string, Verdict) -> bool

  /** Every classification of the run was made by `policy`, on a Pod name the cluster can produce. */
  predicate Follows(h: History, policy: Policy, podName: string -> bool) {
    match h
    case Nothing => true
    case Then(e, before) =>
      && Follows(before, policy, podName)
      && (e.Classified? ==> podName(e.pod) && policy(e.key, e.bundle, e.pod, e.verdict))
  }

  /** Whether the gate acts is settled by the Deployment and the evidence: where it may act, for some Pod, it can
      do nothing else, for any Pod. */
  ghost predicate ActsAlike(policy: Policy, podName: string -> bool) {
    forall key, bundle, p, q, v | podName(p) && podName(q) ::
      policy(key, bundle, p, Act) && policy(key, bundle, q, v) ==> v == Act
  }

  predicate Unattempted(st: Story) {
    st.closed == Escalated || st.closed == Rejected ==> st.attempts == []
  }

  ghost predicate ActedOn(policy: Policy, podName: string -> bool, key: string, bundle: Bundle) {
    exists p :: podName(p) && policy(key, bundle, p, Act)
  }

  /** Only evidence the policy acts on has attempts behind it. */
  ghost predicate Consistent(s: State, policy: Policy, podName: string -> bool) {
    && s.hasClassifier
    && (forall k <- s.table | s.table[k].attemptCount > 0 ::
          s.table[k].evidence.Some? && ActedOn(policy, podName, k, s.table[k].evidence.value))
    && (forall w <- s.workers | GivesUp(s.workers[w]) && s.workers[w].key in s.table ::
        s.table[s.workers[w].key].attemptCount == 0)
    && (forall id :: Unattempted(StoryOf(s.history, id)))
  }

  predicate GivesUp(wk: Worker) {
    wk.stage == Ending(Escalated) || wk.stage == Ending(Rejected)
  }

  lemma NextConsistent(s: State, step: Step, policy: Policy, podName: string -> bool)
    requires Sound(s) && Told(s) && Consistent(s, policy, podName)
    requires ActsAlike(policy, podName) && Follows(Next(s, step).history, policy, podName)
    ensures Consistent(Next(s, step), policy, podName)
  {
    if Enabled(s, step) && !step.OutsideEdit? {
      if step.BeginAttempt? {
        EnterConsistent(s, step.w, step.key, step.generation, step.now, step.id, policy, podName);
      } else if HoldsNow(s, step.w) {
        HolderConsistent(s, step, step.w, policy, podName);
      } else {
        forall id ensures Unattempted(StoryOf(Next(s, step).history, id)) {
          CloserStory(s, step, id);
          assert Unattempted(StoryOf(s.history, id));
        }
      }
    }
  }

  lemma EnterConsistent(s: State, w: nat, key: string, generation: int, now: Time, id: string, policy: Policy,
      podName: string -> bool)
    requires Sound(s) && Told(s) && Consistent(s, policy, podName) && w !in s.workers && id !in s.used
    ensures Consistent(Enter(s, w, key, generation, now, id), policy, podName)
  {
    var s' := Enter(s, w, key, generation, now, id);
    EnterLocal(s, w, key, generation, now, id);
    AdmitCases(Lookup(s.table, key), generation, now, id);
    EnterStory(s, w, key, generation, now, id);
    EnterSound(s, w, key, generation, now, id);
    EnterUnattempted(s, w, key, generation, now, id);
    LocalConsistent(s, s', w, key, s'.table[key].id, policy, podName);
  }

  /** A look changes neither attempts nor evidence of a record it keeps, and ends nothing but an exhausted incident. */
  lemma EnterUnattempted(s: State, w: nat, key: string, generation: int, now: Time, id: string)
    requires w !in s.workers && id !in s.used && StoryOf(s.history, id) == BLANK
    requires key in s.table ==>
               && RecordSound(s.table[key]) && s.table[key].id in s.used
               && Unattempted(StoryOf(s.history, s.table[key].id))
    ensures var s' := Enter(s, w, key, generation, now, id);
            && key in s'.table && Unattempted(StoryOf(s'.history, s'.table[key].id))
            && s'.hasClassifier == s.hasClassifier
            && (w in s'.workers ==> !GivesUp(s'.workers[w]))
            && (s'.table[key].attemptCount == 0
                || (key in s.table && s'.table[key].attemptCount == s.table[key].attemptCount
                    && s'.table[key].evidence == s.table[key].evidence))
  {
    var current := Lookup(s.table, key);
    AdmitCases(current, generation, now, id);
    var (r, admission) := Admit(current, generation, now, id);
    match admission
    case Skip =>
    case Proceed =>
      assert StoryOf(Enter(s, w, key, generation, now, id).history, r.id) == Extend(StoryOf(s.history, r.id),
          Claim(key, r.id, now, r.attemptCount));
    case BudgetSpent =>
      assert StoryOf(Enter(s, w, key, generation, now, id).history, r.id) == Extend(StoryOf(s.history, r.id),
          Spent(key, r.id));
  }

  lemma HolderConsistent(s: State, step: Step, w: nat, policy: Policy, podName: string -> bool)
    requires Sound(s) && Told(s) && Consistent(s, policy, podName) && HoldsNow(s, w)
    requires Enabled(s, step) && !step.BeginAttempt? && !step.OutsideEdit? && step.w == w
    requires ActsAlike(policy, podName) && Follows(Next(s, step).history, policy, podName)
    ensures Consistent(Next(s, step), policy, podName)
  {
    var s', wk := Next(s, step), s.workers[w];
    assert HolderMatches(s, wk) && Unattempted(StoryOf(s.history, wk.id));
    WorkerStep(s, step, w, wk.key);
    NextSound(s, step);
    HolderVerdict(s, step, w, policy, podName);
    forall other | other != wk.id ensures StoryOf(s'.history, other) == StoryOf(s.history, other) {
      OtherStories(s, step, w, other);
    }
    LocalConsistent(s, s', w, wk.key, wk.id, policy, podName);
  }

  /** Worker `w` holds a record of `key` behind whose attempts there is evidence the policy acts on. */
  ghost predicate HolderFollows(s: State, w: nat, policy: Policy, podName: string -> bool) {
    && HoldsNow(s, w) && s.hasClassifier && HolderMatches(s, s.workers[w])
    && Agrees(StoryOf(s.history, s.workers[w].id), s.table[s.workers[w].key])
    && StillConsistent(s, w, s.workers[w].key, s.workers[w].id, policy, podName)
  }

  ghost predicate StillConsistent(s: State, w: nat, key: string, id: string, policy: Policy, podName: string -> bool) {
    && s.hasClassifier && key in s.table
    && (s.table[key].attemptCount > 0 ==>
          s.table[key].evidence.Some? && ActedOn(policy, podName, key, s.table[key].evidence.value))
    && (w in s.workers && GivesUp(s.workers[w]) ==> s.table[key].attemptCount == 0)
    && Unattempted(StoryOf(s.history, id))
  }

  lemma DecisionFollows(s: State, w: nat, pod: string, verdict: Verdict, policy: Policy, podName: string -> bool)
    requires HolderFollows(s, w, policy, podName) && s.workers[w].stage.Deciding? && ActsAlike(policy, podName)
    requires podName(pod) && policy(s.workers[w].key, s.workers[w].stage.bundle, pod, verdict)
    ensures StillConsistent(Next(s, Decide(w, pod, verdict)), w, s.workers[w].key, s.workers[w].id, policy, podName)
  {
  }

  lemma EndFollows(s: State, w: nat, now: Time, policy: Policy, podName: string -> bool)
    requires HolderFollows(s, w, policy, podName) && s.workers[w].stage.Ending?
    ensures StillConsistent(Next(s, EndAttempt(w, now)), w, s.workers[w].key, s.workers[w].id, policy, podName)
  {
    assert UpTo(0) == [];
  }

  /** A holder's step, seen from its own record. */
  lemma HolderVerdict(s: State, step: Step, w: nat, policy: Policy, podName: string -> bool)
    requires Enabled(s, step) && !step.BeginAttempt? && !step.OutsideEdit? && step.w == w
        && HolderFollows(s, w, policy, podName)
    requires ActsAlike(policy, podName) && Follows(Next(s, step).history, policy, podName)
    ensures StillConsistent(Next(s, step), w, s.workers[w].key, s.workers[w].id, policy, podName)
  {
    match step
    case Decide(_, pod, verdict) => DecisionFollows(s, w, pod, verdict, policy, podName);
    case EndAttempt(_, now) => EndFollows(s, w, now, policy, podName);
    case _ =>
  }

  lemma LocalConsistent(s: State, s': State, w: nat, key: string, id: string, policy: Policy, podName: string -> bool)
    requires ClaimsMatch(s) && ClaimsMatch(s') && Consistent(s, policy, podName) && Local(s, s', w, key)
        && s'.hasClassifier && key in s'.table
    requires s'.table[key].attemptCount > 0 ==>
               s'.table[key].evidence.Some? && ActedOn(policy, podName, key, s'.table[key].evidence.value)
    requires w in s'.workers && GivesUp(s'.workers[w]) ==> s'.table[key].attemptCount == 0
    requires forall other | other != id :: StoryOf(s'.history, other) == StoryOf(s.history, other)
    requires Unattempted(StoryOf(s'.history, id))
    requires key in s.table && s'.table[key].attemptCount != s.table[key].attemptCount ==>
        HoldsNow(s, w) || s'.table[key].attemptCount == 0
    ensures Consistent(s', policy, podName)
  {
    forall k <- s'.table | k != key && s'.table[k].attemptCount > 0
      ensures s'.table[k].evidence.Some? && ActedOn(policy, podName, k, s'.table[k].evidence.value)
    {
      assert Lookup(s'.table, k) == Lookup(s.table, k);
      assert k in s.table;
    }
    forall v <- s'.workers | v != w && GivesUp(s'.workers[v])
      ensures s'.workers[v].key in s'.table && s'.table[s'.workers[v].key].attemptCount == 0
    {
      assert v in s.workers && HolderMatches(s, s.workers[v]);
      assert Lookup(s'.table, s'.workers[v].key) == Lookup(s.table, s'.workers[v].key) || s'.workers[v].key == key;
    }
    forall other ensures Unattempted(StoryOf(s'.history, other)) {
      assert Unattempted(StoryOf(s.history, other));
    }
  }

  lemma FollowedBefore(longer: History, s: State, step: Step, policy: Policy, podName: string -> bool)
    requires longer == Next(s, step).history && Follows(longer, policy, podName)
    ensures Follows(s.history, policy, podName)
  {
    HistoryGrows(s, step);
  }

  lemma {:induction false} FollowedSoFar(s: State, steps: seq<Step>, policy: Policy, podName: string -> bool)
    requires Follows(Run(s, steps).history, policy, podName)
    ensures Follows(s.history, policy, podName)
    decreases |steps|
  {
    if steps != [] {
      FollowedSoFar(Next(s, steps[0]), steps[1..], policy, podName);
      FollowedBefore(Next(s, steps[0]).history, s, steps[0], policy, podName);
    }
  }

  lemma {:induction false} RunConsistent(s: State, steps: seq<Step>, policy: Policy, podName: string -> bool)
    requires Sound(s) && Told(s) && Consistent(s, policy, podName) && ActsAlike(policy, podName)
    requires Follows(Run(s, steps).history, policy, podName)
    ensures Consistent(Run(s, steps), policy, podName)
    decreases |steps|
  {
    if steps != [] {
      FollowedSoFar(Next(s, steps[0]), steps[1..], policy, podName);
      NextSound(s, steps[0]);
      NextTold(s, steps[0]);
      NextConsistent(s, steps[0], policy, podName);
      RunConsistent(Next(s, steps[0]), steps[1..], policy, podName);
    }
  }

  /** In every run classified by `policy`, escalated and rejected incidents consumed no attempt. */
  ghost predicate NeverEscalatesLate(policy: Policy, podName: string -> bool) {
    forall steps, id | Follows(Run(Start(true), steps).history, policy, podName) ::
      Unattempted(StoryOf(Run(Start(true), steps).history, id))
  }

  lemma MixedVerdicts(policy: Policy, podName: string -> bool, key: string, bundle: Bundle, p: string, q: string,
      verdict: Verdict)
    returns (steps: seq<Step>)
    requires podName(p) && podName(q) && policy(key, bundle, p, Act) && policy(key, bundle, q, verdict)
        && verdict != Act
    ensures var s := Run(Start(true), steps);
            && Follows(s.history, policy, podName)
            && !Unattempted(StoryOf(s.history, "i"))
  {
    var first := [BeginAttempt(0, key, 1, 0, "i"), LookForEvidence(0), CollectEvidence(0, bundle), Decide(0, p, Act)];
    var back := [FinishRemediate(0, Unset), EndAttempt(0, 0), CloseIncident(0)];
    var second := [BeginAttempt(0, key, 1, 60 * SECOND, "j"), LookForEvidence(0), Decide(0, q, verdict),
        EndAttempt(0, 60 * SECOND)];
    var s4 := FirstAttempt(key, bundle, p, first);
    var s7 := AttemptRollsBack(s4, key, back);
    var s11 := SecondLook(s7, key, bundle, q, verdict, second);
    RunSplits(Start(true), first, back);
    RunSplits(Start(true), first + back, second);
    steps := first + back + second;
    MixedHistory(s11.history, policy, podName, key, bundle, p, q, verdict);
  }

  lemma FirstAttempt(key: string, bundle: Bundle, p: string, steps: seq<Step>) returns (s: State)
    requires steps == [BeginAttempt(0, key, 1, 0, "i"), LookForEvidence(0), CollectEvidence(0, bundle),
        Decide(0, p, Act)]
    ensures s == Run(Start(true), steps)
    ensures s.table == map[key := NewRecord("i", 0).(generation := 1, inFlight := true, attemptCount := 1,
        evidence := Some(bundle))]
    ensures s.workers == map[0 := Worker(key, "i", Running(1, 0))] && s.used == {"i"} && s.hasClassifier
    ensures s.history == Then(Dispatch(key, "i", 1), Then(Classified(key, "i", bundle, p, Act),
                         Then(Collected("i", bundle), Then(Claim(key, "i", 0, 0), Nothing))))
  {
    var s1 := Next(Start(true), steps[0]);
    assert s1.workers == map[0 := Worker(key, "i", Claimed)];
    var s2 := Next(s1, steps[1]);
    assert s2.workers == map[0 := Worker(key, "i", Collecting)];
    var s3 := Next(s2, steps[2]);
    assert s3.workers == map[0 := Worker(key, "i", Deciding(bundle))];
    s := Next(s3, steps[3]);
    RunTwice(Start(true), steps[0], steps[1]);
    RunTwice(s2, steps[2], steps[3]);
    assert steps == [steps[0], steps[1]] + [steps[2], steps[3]];
    RunSplits(Start(true), [steps[0], steps[1]], [steps[2], steps[3]]);
  }

  lemma AttemptRollsBack(s: State, key: string, steps: seq<Step>) returns (end: State)
    requires key in s.table && s.workers == map[0 := Worker(key, "i", Running(1, 0))]
    requires s.table[key].terminalOutcome == Unset
    requires steps == [FinishRemediate(0, Unset), EndAttempt(0, 0), CloseIncident(0)]
    ensures end == Run(s, steps) && end.workers == map[] && end.used == s.used && end.hasClassifier == s.hasClassifier
    ensures end.table == s.table[key := s.table[key].(inFlight := false, lastAttemptAt := 0)]
    ensures end.history == Then(Ended(key, "i", Unset, 0), s.history)
  {
    var s1 := Next(s, steps[0]);
    assert s1.workers == map[0 := Worker(key, "i", Ending(Unset))];
    var s2 := Next(s1, steps[1]);
    assert s2.workers == map[0 := Worker(key, "i", Closing(Unset))];
    end := Next(s2, steps[2]);
    assert end.workers == map[];
    RunTwice(s, steps[0], steps[1]);
    assert steps == [steps[0], steps[1]] + [steps[2]];
    assert Run(s2, [steps[2]]) == Run(end, []);
    RunSplits(s, [steps[0], steps[1]], [steps[2]]);
  }

  lemma SecondLook(s: State, key: string, bundle: Bundle, q: string, verdict: Verdict,
      steps: seq<Step>) returns (end: State)
    requires s.workers == map[] && "j" !in s.used && s.hasClassifier && verdict != Act
    requires key in s.table && s.table[key] == NewRecord("i", 0).(generation := 1, attemptCount := 1, evidence :=
        Some(bundle))
    requires steps == [BeginAttempt(0, key, 1, 60 * SECOND, "j"), LookForEvidence(0), Decide(0, q, verdict),
        EndAttempt(0, 60 * SECOND)]
    ensures end == Run(s, steps)
    ensures end.history == Then(Ended(key, "i", if verdict == Escalate then Escalated else Rejected, 60 * SECOND),
                           Then(Classified(key, "i", bundle, q, verdict), Then(Claim(key, "i", 60 * SECOND, 1),
                               s.history)))
  {
    BackoffValues();
    var s1 := Next(s, steps[0]);
    assert s1.workers == map[0 := Worker(key, "i", Claimed)];
    var s2 := Next(s1, steps[1]);
    assert s2.workers == map[0 := Worker(key, "i", Deciding(bundle))];
    var s3 := Next(s2, steps[2]);
    end := Next(s3, steps[3]);
    RunTwice(s, steps[0], steps[1]);
    RunTwice(s2, steps[2], steps[3]);
    assert steps == [steps[0], steps[1]] + [steps[2], steps[3]];
    RunSplits(s, [steps[0], steps[1]], [steps[2], steps[3]]);
  }

  lemma MixedHistory(h: History, policy: Policy, podName: string -> bool, key: string, bundle: Bundle, p: string,
      q: string, verdict: Verdict)
    requires podName(p) && podName(q) && policy(key, bundle, p, Act) && policy(key, bundle, q, verdict)
        && verdict != Act
    requires h == Then(Ended(key, "i", if verdict == Escalate then Escalated else Rejected, 60 * SECOND),
                  Then(Classified(key, "i", bundle, q, verdict), Then(Claim(key, "i", 60 * SECOND, 1),
                  Then(Ended(key, "i", Unset, 0), Then(Dispatch(key, "i", 1), Then(Classified(key, "i", bundle, p, Act),
                  Then(Collected("i", bundle), Then(Claim(key, "i", 0, 0), Nothing))))))))
    ensures Follows(h, policy, podName) && !Unattempted(StoryOf(h, "i"))
  {
    var attempted := h.before.before.before.before;
    var collected := attempted.before.before;
    assert StoryOf(collected, "i").attempts == [] && Follows(collected, policy, podName) by {
      assert StoryOf(collected.before, "i").attempts == [] && Follows(collected.before, policy, podName);
    }
    assert StoryOf(attempted.before, "i").attempts == [] && Follows(attempted.before, policy, podName);
    assert StoryOf(attempted, "i").attempts == [1] && Follows(attempted, policy, podName);
    assert StoryOf(h.before.before, "i").attempts == [1] && Follows(h.before.before, policy, podName);
  }

  /** The documented promise that escalated and rejected incidents end at attempt 0 holds for a decision gate
      exactly when, on the evidence of one incident, it never may both act and not act. */
  lemma EscalatesAtZeroIffActsAlike(policy: Policy, podName: string -> bool)
    ensures NeverEscalatesLate(policy, podName) <==> ActsAlike(policy, podName)
  {
    if ActsAlike(policy, podName) {
      var s0 := Start(true);
      assert Sound(s0) && Told(s0) && Consistent(s0, policy, podName);
      forall steps, id | Follows(Run(s0, steps).history, policy, podName)
        ensures Unattempted(StoryOf(Run(s0, steps).history, id))
      {
        RunConsistent(s0, steps, policy, podName);
      }
    } else {
      var key, bundle, p, q, verdict :|
        podName(p) && podName(q) && policy(key, bundle, p, Act) && policy(key, bundle, q, verdict) && verdict != Act;
      var steps := MixedVerdicts(policy, podName, key, bundle, p, q, verdict);
    }
  }
}
