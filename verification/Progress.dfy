/** A Deployment whose attempts all fail is given up within a bounded time, and then left alone. */
module Progress {
  import opened Basics
  import opened Incidents
  import opened Protocol
  import opened Quiescence

  /** An attempt is over within `attempt` of its claim, and looks at the Deployment are at most `gap` apart. */
  datatype Pace = Pace(attempt: nat, gap: nat)

  /** When the Deployment was last looked at, and when its latest claim was made. */
  datatype Times = Times(looked: Time, claimed: Time)

  predicate InFlight(s: State, key: string) {
    key in s.table && s.table[key].inFlight
  }

  predicate Claims(s: State, step: Step, key: string) {
    LooksAt(s, step, key) && Admit(Lookup(s.table, key), step.generation, step.now, step.id).1 == Proceed
  }

  predicate Releases(s: State, step: Step, key: string) {
    Enabled(s, step) && step.EndAttempt? && s.workers[step.w].key == key
  }

  function After(s: State, step: Step, key: string, t: Times): Times {
    if Claims(s, step, key) then Times(step.now, step.now)
    else if LooksAt(s, step, key) then t.(looked := step.now)
    else t
  }

  /** A step of a run at that pace in which every attempt on `key` fails. */
  predicate KeepsPace(s: State, step: Step, key: string, p: Pace, t: Times) {
    && (LooksAt(s, step, key) ==>
          step.now <= t.looked + p.gap && (InFlight(s, key) ==> step.now <= t.claimed + p.attempt))
    && (Releases(s, step, key) ==>
          LeavesOpen(s.workers[step.w].stage.outcome) && step.now <= t.claimed + p.attempt)
  }

  ghost predicate FailsAtPace(s: State, steps: seq<Step>, key: string, p: Pace, t: Times)
    decreases |steps|
  {
    steps != [] ==>
      && KeepsPace(s, steps[0], key, p, t)
      && FailsAtPace(Next(s, steps[0]), steps[1..], key, p, After(s, steps[0], key, t))
  }

  /** The times at the end of a run. */
  function TimesAfter(s: State, steps: seq<Step>, key: string, t: Times): Times
    decreases |steps|
  {
    if steps == [] then t else TimesAfter(Next(s, steps[0]), steps[1..], key, After(s, steps[0], key, t))
  }

  /** By when an incident first claimed at `first` is looked at with n attempts behind it and no backoff left. */
  function Latest(p: Pace, first: Time, n: nat): Time {
    if n == 0 then first
    else Latest(p, first, n - 1) + p.attempt + p.gap + if n < MAX_ATTEMPTS then AttemptBackoff(n) else 0
  }

  lemma {:induction false} LatestGrows(p: Pace, first: Time, m: nat, n: nat)
    requires m <= n
    ensures Latest(p, first, m) <= Latest(p, first, n)
    decreases n
  {
    if m < n {
      LatestGrows(p, first, m, n - 1);
      BackoffValues();
    }
  }

  predicate GaveUpOn(h: History, id: string) {
    h.Then? && (GaveUpOn(h.before, id) || (h.event.Spent? && h.event.id == id))
  }

  /** Attempts that were over when a worker at this stage claimed. */
  function Completed(count: nat, stage: Stage): nat {
    if count > 0 && (stage.Running? || (stage.Ending? && (LeavesOpen(stage.outcome) || stage.outcome == Recovered)))
    then count - 1 else count
  }

  predicate HolderOnTrack(count: nat, stage: Stage, p: Pace, first: Time, t: Times) {
    t.claimed <= Latest(p, first, Completed(count, stage)) && t.looked <= t.claimed + p.attempt
  }

  predicate FreeOnTrack(r: Record, p: Pace, first: Time, t: Times) {
    && 1 <= r.attemptCount <= MAX_ATTEMPTS
    && t.looked + p.gap <= Latest(p, first, r.attemptCount)
    && (r.attemptCount < MAX_ATTEMPTS ==>
          r.lastAttemptAt + AttemptBackoff(r.attemptCount) + p.gap <= Latest(p, first, r.attemptCount))
  }

  /** The incident is open and each of its claims came by its latest time. */
  ghost predicate OnTrack(s: State, key: string, id: string, p: Pace, first: Time, t: Times) {
    && key in s.table && s.table[key].id == id && s.table[key].terminalOutcome == Unset
    && (!s.table[key].inFlight ==> FreeOnTrack(s.table[key], p, first, t))
    && (forall w <- s.workers | Holds(s.workers[w]) && s.workers[w].key == key ::
          HolderOnTrack(s.table[key].attemptCount, s.workers[w].stage, p, first, t))
  }

  /** A look at the open incident: it is kept on track, or its budget is spent. */
  lemma LookKeepsTrack(s: State, look: Step, key: string, id: string, p: Pace, first: Time, t: Times)
    requires Sound(s) && OnTrack(s, key, id, p, first, t) && LooksAt(s, look, key) && KeepsPace(s, look, key, p, t)
    ensures var s' := Next(s, look);
            if SpendsBudget(s, look, key) then GaveUpOn(s'.history, id)
            else OnTrack(s', key, id, p, first, After(s, look, key, t))
  {
    BackoffValues();
    AdmitCases(Lookup(s.table, key), look.generation, look.now, look.id);
    var s', t' := Next(s, look), After(s, look, key, t);
    var admission := Admit(Lookup(s.table, key), look.generation, look.now, look.id).1;
    forall w <- s'.workers | admission != BudgetSpent && Holds(s'.workers[w]) && s'.workers[w].key == key
      ensures HolderOnTrack(s'.table[key].attemptCount, s'.workers[w].stage, p, first, t')
    {
      assert w in s.workers ==> s'.workers[w] == s.workers[w] && HolderMatches(s, s.workers[w]);
    }
  }

  /** The holder's endAttempt opens the incident to the next claim. */
  lemma EndKeepsTrack(s: State, step: Step, key: string, id: string, p: Pace, first: Time, t: Times)
    requires Sound(s) && OnTrack(s, key, id, p, first, t) && Releases(s, step, key) && KeepsPace(s, step, key, p, t)
    ensures OnTrack(Next(s, step), key, id, p, first, t)
  {
    BackoffValues();
    var wk := s.workers[step.w];
    assert HolderMatches(s, wk) && HolderOnTrack(s.table[key].attemptCount, wk.stage, p, first, t);
    assert FreeOnTrack(Released(s.table[key], wk.stage.outcome, step.now), p, first, t);
  }

  /** Until its endAttempt the holder's work completes nothing: a dispatched attempt counts, but is not over. */
  lemma WorkCompletesNothing(s: State, step: Step, key: string)
    requires Enabled(s, step) && !step.EndAttempt? && !step.BeginAttempt? && !step.OutsideEdit?
    requires HoldsNow(s, step.w) && s.workers[step.w].key == key && HolderMatches(s, s.workers[step.w])
    ensures var (s', w) := (Next(s, step), step.w);
            && HoldsNow(s', w) && key in s'.table && s'.workers[w].id == s.workers[w].id
            && Completed(s'.table[key].attemptCount, s'.workers[w].stage)
               == Completed(s.table[key].attemptCount, s.workers[w].stage)
  {
  }

  lemma WorkKeepsTrack(s: State, step: Step, key: string, id: string, p: Pace, first: Time, t: Times)
    requires Sound(s) && OnTrack(s, key, id, p, first, t) && Enabled(s, step) && !step.EndAttempt?
    requires !step.BeginAttempt? && !step.OutsideEdit? && HoldsNow(s, step.w) && s.workers[step.w].key == key
    ensures OnTrack(Next(s, step), key, id, p, first, t)
  {
    assert HolderMatches(s, s.workers[step.w]);
    assert HolderOnTrack(s.table[key].attemptCount, s.workers[step.w].stage, p, first, t);
    WorkerStep(s, step, step.w, key);
    WorkCompletesNothing(s, step, key);
    OneHolderOnTrack(s, Next(s, step), step.w, key, id, p, first, t);
  }

  /** The holder's is the only claim to be judged. */
  lemma OneHolderOnTrack(s: State, s': State, w: nat, key: string, id: string, p: Pace, first: Time, t: Times)
    requires ClaimsMatch(s) && Local(s, s', w, key) && HoldsNow(s, w) && HoldsNow(s', w)
    requires HolderMatches(s', s'.workers[w]) && s'.workers[w].id == id
    requires HolderOnTrack(s'.table[key].attemptCount, s'.workers[w].stage, p, first, t)
    ensures OnTrack(s', key, id, p, first, t)
  {
  }

  /** `s'` has the same record of `key` as `s`, and nobody new who holds it. */
  ghost predicate SameOn(s: State, s': State, key: string) {
    && Lookup(s'.table, key) == Lookup(s.table, key)
    && (forall w <- s'.workers | Holds(s'.workers[w]) && s'.workers[w].key == key ::
          w in s.workers && s.workers[w] == s'.workers[w])
  }

  /** Steps of others. */
  lemma OthersKeepTrack(s: State, step: Step, key: string)
    requires Sound(s) && Enabled(s, step) && !LooksAt(s, step, key)
    requires step.OutsideEdit? || step.BeginAttempt? || !Holds(s.workers[step.w]) || s.workers[step.w].key != key
    ensures SameOn(s, Next(s, step), key)
  {
    if step.BeginAttempt? {
      EnterLocal(s, step.w, step.key, step.generation, step.now, step.id);
    } else if !step.OutsideEdit? {
      assert Holds(s.workers[step.w]) ==> HolderMatches(s, s.workers[step.w]);
      WorkerStep(s, step, step.w, s.workers[step.w].key);
    }
  }

  lemma StepKeepsTrack(s: State, step: Step, key: string, id: string, p: Pace, first: Time, t: Times)
    requires Sound(s) && OnTrack(s, key, id, p, first, t) && KeepsPace(s, step, key, p, t)
    ensures var s' := Next(s, step);
            if SpendsBudget(s, step, key) then GaveUpOn(s'.history, id)
            else OnTrack(s', key, id, p, first, After(s, step, key, t))
  {
    if LooksAt(s, step, key) {
      LookKeepsTrack(s, step, key, id, p, first, t);
    } else if Enabled(s, step) {
      if step.OutsideEdit? || step.BeginAttempt? || !Holds(s.workers[step.w]) || s.workers[step.w].key != key {
        OthersKeepTrack(s, step, key);
      } else if step.EndAttempt? {
        EndKeepsTrack(s, step, key, id, p, first, t);
      } else {
        WorkKeepsTrack(s, step, key, id, p, first, t);
      }
    }
  }

  lemma GivenUpForGood(s: State, step: Step, id: string)
    requires GaveUpOn(s.history, id)
    ensures GaveUpOn(Next(s, step).history, id)
  {
    HistoryGrows(s, step);
  }

  lemma {:induction false} RunKeepsTrack(
    s: State, steps: seq<Step>, key: string, id: string, p: Pace, first: Time, t: Times)
    requires Sound(s) && FailsAtPace(s, steps, key, p, t)
    requires OnTrack(s, key, id, p, first, t) || GaveUpOn(s.history, id)
    ensures Sound(Run(s, steps))
    ensures OnTrack(Run(s, steps), key, id, p, first, TimesAfter(s, steps, key, t))
        || GaveUpOn(Run(s, steps).history, id)
    decreases |steps|
  {
    if steps != [] {
      NextSound(s, steps[0]);
      if GaveUpOn(s.history, id) {
        GivenUpForGood(s, steps[0], id);
      } else {
        StepKeepsTrack(s, steps[0], key, id, p, first, t);
      }
      RunKeepsTrack(Next(s, steps[0]), steps[1..], key, id, p, first, After(s, steps[0], key, t));
    }
  }

  lemma OnTrackIsEarly(s: State, key: string, id: string, p: Pace, first: Time, t: Times)
    requires Sound(s) && OnTrack(s, key, id, p, first, t)
    ensures t.looked + p.gap <= Latest(p, first, MAX_ATTEMPTS)
  {
    if InFlight(s, key) {
      var w :| w in s.workers && Holds(s.workers[w]) && s.workers[w].key == key;
      assert HolderMatches(s, s.workers[w]);
      LatestGrows(p, first, Completed(s.table[key].attemptCount, s.workers[w].stage), MAX_ATTEMPTS - 1);
    } else {
      LatestGrows(p, first, s.table[key].attemptCount, MAX_ATTEMPTS);
    }
  }

  /** `look` makes the first claim of an incident. */
  predicate Opens(s: State, look: Step, key: string) {
    Claims(s, look, key) && Next(s, look).table[key].attemptCount == 0
  }

  lemma OpensOnTrack(s: State, look: Step, key: string, p: Pace)
    requires Sound(s) && Opens(s, look, key)
    ensures var s' := Next(s, look);
            Sound(s') && OnTrack(s', key, s'.table[key].id, p, look.now, Times(look.now, look.now))
  {
    NextSound(s, look);
    AdmitCases(Lookup(s.table, key), look.generation, look.now, look.id);
  }

  /** The last look that can find an incident open: three attempts, two gaps between looks and both backoffs after
      its first claim. */
  function LastOpenLook(p: Pace, first: Time): Time {
    first + 3 * p.attempt + 2 * p.gap + 90 * SECOND
  }

  lemma LatestInAll(p: Pace, first: Time)
    ensures Latest(p, first, MAX_ATTEMPTS) == LastOpenLook(p, first) + p.gap
  {
    BackoffValues();
    assert Latest(p, first, 1) == first + p.attempt + p.gap + 30 * SECOND;
    assert Latest(p, first, 2) == Latest(p, first, 1) + p.attempt + p.gap + 60 * SECOND;
    assert Latest(p, first, 3) == Latest(p, first, 2) + p.attempt + p.gap;
  }

  /** An incident whose attempts all fail is given up in time: a later look finds it, or makes it, exhausted. */
  lemma FailingIncidentIsGivenUp(s: State, look: Step, steps: seq<Step>, key: string, p: Pace)
    requires Sound(s) && Opens(s, look, key)
    requires FailsAtPace(Next(s, look), steps, key, p, Times(look.now, look.now))
    requires TimesAfter(Next(s, look), steps, key, Times(look.now, look.now)).looked > LastOpenLook(p, look.now)
    ensures GaveUpOn(Run(Next(s, look), steps).history, Next(s, look).table[key].id)
  {
    var s', t := Next(s, look), Times(look.now, look.now);
    var id := s'.table[key].id;
    OpensOnTrack(s, look, key, p);
    RunKeepsTrack(s', steps, key, id, p, look.now, t);
    LatestInAll(p, look.now);
    if OnTrack(Run(s', steps), key, id, p, look.now, TimesAfter(s', steps, key, t)) {
      OnTrackIsEarly(Run(s', steps), key, id, p, look.now, TimesAfter(s', steps, key, t));
    }
  }

  /** Exhausted, with the live generation stored. */
  predicate Settled(s: State, key: string) {
    GivenUp(s, key, LiveGeneration(s, key))
  }

  lemma SettledStays(s: State, step: Step, key: string)
    requires Sound(s) && Settled(s, key) && step != OutsideEdit(key)
    requires LooksAt(s, step, key) ==> step.generation == LiveGeneration(s, key)
    ensures Settled(Next(s, step), key)
  {
    FinishedStep(s, step, key, s.table[key]);
  }

  /** With fresh reads and no outside edit the incident stays on track until it is given up for good. */
  lemma {:induction false} FreshRunSettles(
    s: State, steps: seq<Step>, key: string, id: string, p: Pace, first: Time, t: Times)
    requires Sound(s) && FailsAtPace(s, steps, key, p, t) && FreshReadsOnly(s, steps, key)
    requires OnTrack(s, key, id, p, first, t) || Settled(s, key)
    ensures Sound(Run(s, steps))
    ensures OnTrack(Run(s, steps), key, id, p, first, TimesAfter(s, steps, key, t)) || Settled(Run(s, steps), key)
    decreases |steps|
  {
    if steps != [] {
      NextSound(s, steps[0]);
      if Settled(s, key) {
        SettledStays(s, steps[0], key);
      } else {
        StepKeepsTrack(s, steps[0], key, id, p, first, t);
        if SpendsBudget(s, steps[0], key) {
          BudgetSpentBy(s, steps[0], key);
        }
      }
      FreshRunSettles(Next(s, steps[0]), steps[1..], key, id, p, first, After(s, steps[0], key, t));
    }
  }

  /** A Deployment that no attempt repairs is silent from then on: with fresh reads and no outside edit nothing is
      claimed on it after the first look past the deadline. */
  lemma BrokenDeploymentFallsSilent(s: State, look: Step, steps: seq<Step>, later: seq<Step>, key: string, p: Pace)
    requires Sound(s) && Opens(s, look, key)
    requires var s', t := Next(s, look), Times(look.now, look.now);
             && FailsAtPace(s', steps, key, p, t) && FreshReadsOnly(s', steps, key)
             && TimesAfter(s', steps, key, t).looked > LastOpenLook(p, look.now)
             && FreshReadsOnly(Run(s', steps), later, key)
    ensures var s' := Run(Next(s, look), steps);
            ClaimsOn(Run(s', later).history, key) == ClaimsOn(s'.history, key)
  {
    var s0, t := Next(s, look), Times(look.now, look.now);
    var s', id := Run(s0, steps), s0.table[key].id;
    OpensOnTrack(s, look, key, p);
    FreshRunSettles(s0, steps, key, id, p, look.now, t);
    LatestInAll(p, look.now);
    if OnTrack(s', key, id, p, look.now, TimesAfter(s0, steps, key, t)) {
      OnTrackIsEarly(s', key, id, p, look.now, TimesAfter(s0, steps, key, t));
    }
    FreshLooksFind(s', later, key, s'.table[key]);
    SilentIffInForce(s', later, key, s'.table[key]);
  }

  /** So it is at minute ten, when no attempt takes longer than two minutes and looks come every minute. */
  lemma SilentAtMinuteTen(s: State, look: Step, steps: seq<Step>, later: seq<Step>, key: string, p: Pace)
    requires Sound(s) && Opens(s, look, key) && p.attempt <= 2 * MINUTE && p.gap <= MINUTE
    requires var s', t := Next(s, look), Times(look.now, look.now);
             && FailsAtPace(s', steps, key, p, t) && FreshReadsOnly(s', steps, key)
             && TimesAfter(s', steps, key, t).looked >= look.now + 10 * MINUTE
             && FreshReadsOnly(Run(s', steps), later, key)
    ensures var s' := Run(Next(s, look), steps);
            ClaimsOn(Run(s', later).history, key) == ClaimsOn(s'.history, key)
  {
    BrokenDeploymentFallsSilent(s, look, steps, later, key, p);
  }
}
