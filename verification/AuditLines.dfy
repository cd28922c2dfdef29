/** Every closed incident has exactly one terminal audit line, provided each worker's close runs before
    another attempt disturbs the record it left. */
module AuditLines {
  import opened Basics
  import opened Incidents
  import opened Protocol
  import opened Stories

  ghost predicate OwedBy(s: State, id: string) {
    exists w <- s.workers :: Owes(s.workers[w]) && s.workers[w].id == id
  }

  /** `Remediate` has logged the recovery; its goroutine has yet to call endAttempt. */
  ghost predicate RecoveryPending(s: State, id: string) {
    exists w <- s.workers :: RecoveredHolder(s.workers[w], id)
  }

  predicate RecoveredHolder(wk: Worker, id: string) {
    wk.stage == Ending(Recovered) && wk.id == id
  }

  predicate OwesFor(wk: Worker, id: string) {
    Owes(wk) && wk.id == id
  }

  function RecoveredLine(id: string, st: Story): Event {
    Logged(id, |st.attempts|, Recovered, false)
  }

  function ControllerLine(id: string, st: Story): Event {
    Logged(id, |st.attempts|, st.closed, true)
  }

  ghost predicate LinesRight(s: State, id: string) {
    var st := StoryOf(s.history, id);
    st.lines ==
      if st.closed == Unset then if RecoveryPending(s, id) then [RecoveredLine(id, st)] else []
      else if st.closed == Recovered then [RecoveredLine(id, st)]
      else if OwedBy(s, id) then [] else [ControllerLine(id, st)]
  }

  ghost predicate Accounted(s: State) {
    && (forall w <- s.workers | Owes(s.workers[w]) :: StoryOf(s.history,
        s.workers[w].id).closed == s.workers[w].stage.own)
    && (forall v <- s.workers, w <- s.workers | Owes(s.workers[v]) && Owes(s.workers[w])
        && s.workers[v].id == s.workers[w].id :: v == w)
    && (forall id :: LinesRight(s, id))
  }

  /** Pending lines of an incident depend on its own workers only. */
  lemma SameDebts(s: State, s': State, w: nat, key: string, id: string)
    requires Local(s, s', w, key)
    requires (w in s.workers && OwesFor(s.workers[w], id)) <==> (w in s'.workers && OwesFor(s'.workers[w], id))
    requires (w in s.workers && RecoveredHolder(s.workers[w], id)) <==> (w in s'.workers
        && RecoveredHolder(s'.workers[w], id))
    ensures OwedBy(s', id) <==> OwedBy(s, id)
    ensures RecoveryPending(s', id) <==> RecoveryPending(s, id)
  {
    if OwedBy(s', id) {
      var v :| v in s'.workers && Owes(s'.workers[v]) && s'.workers[v].id == id;
      assert v in s.workers;
    }
    if OwedBy(s, id) {
      var v :| v in s.workers && Owes(s.workers[v]) && s.workers[v].id == id;
      assert v in s'.workers;
    }
    if RecoveryPending(s', id) {
      var v :| v in s'.workers && RecoveredHolder(s'.workers[v], id);
      assert v in s.workers;
    }
    if RecoveryPending(s, id) {
      var v :| v in s.workers && RecoveredHolder(s.workers[v], id);
      assert v in s'.workers;
    }
  }

  /** A step about incident `id` only keeps the account if it does so for `id`. */
  lemma LocalAccounted(s: State, s': State, w: nat, key: string, id: string)
    requires Accounted(s) && Local(s, s', w, key)
    requires w in s.workers ==> s.workers[w].id == id
    requires w in s'.workers ==> s'.workers[w].id == id
    requires forall other | other != id :: StoryOf(s'.history, other) == StoryOf(s.history, other)
    requires !OwedBy(s, id)
    requires w in s'.workers && Owes(s'.workers[w]) ==> StoryOf(s'.history, id).closed == s'.workers[w].stage.own
    requires LinesRight(s', id)
    ensures Accounted(s')
  {
    forall other ensures LinesRight(s', other) {
      if other != id {
        assert LinesRight(s, other);
        SameDebts(s, s', w, key, other);
      }
    }
    forall v <- s'.workers | v != w && Owes(s'.workers[v]) ensures s'.workers[v].id != id {
      assert v in s.workers;
    }
  }

  /** An open incident has no worker that owes its line, and only its own holder can have logged a recovery. */
  lemma OpenIncident(s: State, key: string)
    requires ClaimsMatch(s) && RecordsSound(s) && Told(s) && Accounted(s)
    requires key in s.table && s.table[key].terminalOutcome == Unset
    ensures var id := s.table[key].id;
            && !OwedBy(s, id)
            && (RecoveryPending(s, id) ==> s.table[key].inFlight)
            && (forall w <- s.workers | HoldsNow(s, w) && s.workers[w].key == key :: s.workers[w].id == id
                                        && (RecoveryPending(s, id) <==> s.workers[w].stage == Ending(Recovered)))
  {
    var id := s.table[key].id;
    assert StoryOf(s.history, id).closed == Unset;
    if RecoveryPending(s, id) {
      var v :| v in s.workers && RecoveredHolder(s.workers[v], id);
      assert HolderMatches(s, s.workers[v]);
    }
    forall w <- s.workers | HoldsNow(s, w) && s.workers[w].key == key
      ensures s.workers[w].id == id && (RecoveryPending(s, id) <==> s.workers[w].stage == Ending(Recovered))
    {
      assert HolderMatches(s, s.workers[w]);
      assert s.workers[w].stage == Ending(Recovered) ==> RecoveredHolder(s.workers[w], id);
    }
  }

  lemma EnterAccounted(s: State, w: nat, key: string, generation: int, now: Time, id: string)
    requires Sound(s) && Told(s) && Accounted(s) && w !in s.workers && id !in s.used
    ensures Accounted(Enter(s, w, key, generation, now, id))
  {
    var (r, admission) := Admit(Lookup(s.table, key), generation, now, id);
    var s' := LookEnters(s, w, key, generation, now, id);
    EnteredAccounted(s, s', w, key, generation, now, id, r, admission);
  }

  /** What a look leaves, for the account. */
  lemma LookEnters(s: State, w: nat, key: string, generation: int, now: Time, id: string) returns (s': State)
    requires w !in s.workers && id !in s.used && StoryOf(s.history, id) == BLANK
    requires key in s.table ==> RecordSound(s.table[key]) && s.table[key].id in s.used && RecordTold(s, key)
    ensures s' == Enter(s, w, key, generation, now, id)
    ensures var (r, admission) := Admit(Lookup(s.table, key), generation, now, id);
            && Entered(s, s', w, key, id, r, admission) && EnteredHistory(s, s', key, r, admission, now)
            && Local(s, s', w, key) && Explained(Lookup(s.table, key), generation, now, id, r, admission)
            && forall other | other != r.id :: StoryOf(s'.history, other) == StoryOf(s.history, other)
  {
    s' := Enter(s, w, key, generation, now, id);
    EnterLocal(s, w, key, generation, now, id);
    AdmitCases(Lookup(s.table, key), generation, now, id);
    EnterStory(s, w, key, generation, now, id);
  }

  lemma EnteredAccounted(s: State, s': State, w: nat, key: string, generation: int, now: Time, id: string, r: Record,
      admission: Admission)
    requires Sound(s) && Told(s) && Accounted(s) && w !in s.workers && id !in s.used
    requires Entered(s, s', w, key, id, r, admission) && EnteredHistory(s, s', key, r, admission, now)
        && Local(s, s', w, key)
    requires Explained(Lookup(s.table, key), generation, now, id, r, admission)
    requires forall other | other != r.id :: StoryOf(s'.history, other) == StoryOf(s.history, other)
    ensures Accounted(s')
  {
    if admission == Skip {
      SameWorkersAccounted(s, s');
    } else {
      assert LinesRight(s, r.id);
      if key !in s.table || r.id != s.table[key].id {
        NobodyYet(s, id);
      } else {
        OpenIncident(s, key);
      }
      EnterLines(s, s', w, r, admission, key, now);
      LocalAccounted(s, s', w, key, r.id);
    }
  }

  lemma NobodyYet(s: State, id: string)
    requires RecordsSound(s) && id !in s.used
    ensures !OwedBy(s, id) && !RecoveryPending(s, id)
  {
  }

  lemma EnterLines(s: State, s': State, w: nat, r: Record, admission: Admission, key: string, now: Time)
    requires Local(s, s', w, key) && w !in s.workers && admission != Skip
    requires !OwedBy(s, r.id) && !RecoveryPending(s, r.id) && LinesRight(s, r.id)
        && StoryOf(s.history, r.id).closed == Unset
    requires s'.workers == s.workers[w := Worker(key, r.id, if admission == Proceed then Claimed
        else Closing(Exhausted))]
    requires s'.history == Then(if admission == Proceed then Claim(key, r.id, now, r.attemptCount)
        else Spent(key, r.id), s.history)
    ensures LinesRight(s', r.id)
  {
    if admission == Proceed {
      SameDebts(s, s', w, key, r.id);
    } else {
      assert OwesFor(s'.workers[w], r.id);
      assert OwedBy(s', r.id);
    }
  }

  /** The lines an open incident may show, given its holder's stage. */
  function HolderLines(id: string, st: Story, stage: Stage): seq<Event> {
    if stage == Ending(Recovered) then [RecoveredLine(id, st)] else []
  }

  /** Worker `w` still holds an open incident with the lines of its stage, or has just released it. */
  predicate HolderAfter(s: State, w: nat, id: string) {
    var st := StoryOf(s.history, id);
    && w in s.workers && s.workers[w].id == id
    && (HoldsNow(s, w) ==> st.closed == Unset && st.lines == HolderLines(id, st, s.workers[w].stage))
    && (!HoldsNow(s, w) ==>
          var own := s.workers[w].stage.own;
          && st.closed == (if LeavesOpen(own) then Unset else own)
          && st.lines == if own == Recovered then [RecoveredLine(id, st)] else [])
  }

  ghost predicate HolderBefore(s: State, w: nat) {
    && HoldsNow(s, w) && HolderMatches(s, s.workers[w]) && HolderAfter(s, w, s.workers[w].id)
    && Agrees(StoryOf(s.history, s.workers[w].id), s.table[s.workers[w].key])
  }

  lemma HolderEnds(s: State, w: nat, now: Time)
    requires HolderBefore(s, w) && s.workers[w].stage.Ending?
    ensures HolderAfter(Next(s, EndAttempt(w, now)), w, s.workers[w].id)
  {
  }

  lemma HolderDecides(s: State, w: nat, pod: string, verdict: Verdict)
    requires HolderBefore(s, w) && s.workers[w].stage.Deciding?
    ensures HolderAfter(Next(s, Decide(w, pod, verdict)), w, s.workers[w].id)
  {
  }

  lemma HolderRuns(s: State, step: Step, w: nat)
    requires HolderBefore(s, w) && Enabled(s, step) && (step.WriteSpec? || step.FinishRemediate?) && step.w == w
    ensures HolderAfter(Next(s, step), w, s.workers[w].id)
  {
  }

  /** A holder's step, seen from its own story. */
  lemma HolderStep(s: State, step: Step, w: nat)
    requires Enabled(s, step) && !step.BeginAttempt? && !step.OutsideEdit? && step.w == w && HolderBefore(s, w)
    ensures HolderAfter(Next(s, step), w, s.workers[w].id)
  {
    match step
    case EndAttempt(_, now) => HolderEnds(s, w, now);
    case Decide(_, pod, verdict) => HolderDecides(s, w, pod, verdict);
    case WriteSpec(_) => HolderRuns(s, step, w);
    case FinishRemediate(_, _) => HolderRuns(s, step, w);
    case _ =>
  }

  lemma HolderAccounted(s: State, step: Step, w: nat)
    requires Sound(s) && Told(s) && Accounted(s) && HoldsNow(s, w)
    requires Enabled(s, step) && !step.BeginAttempt? && !step.OutsideEdit? && step.w == w
    ensures Accounted(Next(s, step))
  {
    var s', wk := Next(s, step), s.workers[w];
    WorkerStep(s, step, w, wk.key);
    OpenIncident(s, wk.key);
    assert LinesRight(s, wk.id);
    HolderStep(s, step, w);
    forall other | other != wk.id ensures StoryOf(s'.history, other) == StoryOf(s.history, other) {
      OtherStories(s, step, w, other);
    }
    HolderConclusion(s, s', w, wk.key, wk.id);
  }

  lemma HolderConclusion(s: State, s': State, w: nat, key: string, id: string)
    requires ClaimsMatch(s) && RecordsSound(s) && Accounted(s) && Local(s, s', w, key)
    requires HoldsNow(s, w) && s.workers[w].id == id && w in s'.workers && s'.workers[w].id == id
    requires !OwedBy(s, id) && (RecoveryPending(s, id) <==> s.workers[w].stage == Ending(Recovered))
    requires forall other | other != id :: StoryOf(s'.history, other) == StoryOf(s.history, other)
    requires var st, stage := StoryOf(s'.history, id), s'.workers[w].stage;
             && (!stage.Closing? ==> st.closed == Unset && st.lines == HolderLines(id, st, stage))
             && (stage.Closing? ==> st.closed == (if LeavesOpen(stage.own) then Unset else stage.own)
                                    && st.lines == if stage.own == Recovered then [RecoveredLine(id, st)] else [])
    ensures Accounted(s')
  {
    forall v <- s.workers | RecoveredHolder(s.workers[v], id) ensures v == w {
      assert HolderMatches(s, s.workers[v]) && HolderMatches(s, s.workers[w]);
    }
    HolderDebts(s, s', w, key, id);
    LocalAccounted(s, s', w, key, id);
  }

  /** With no other worker in sight, what is pending for `id` is what `w` says. */
  lemma HolderDebts(s: State, s': State, w: nat, key: string, id: string)
    requires Local(s, s', w, key) && w in s.workers && w in s'.workers && s.workers[w].id == id
        && s'.workers[w].id == id
    requires !OwedBy(s, id) && (RecoveryPending(s, id) <==> s.workers[w].stage == Ending(Recovered))
    requires forall v <- s.workers | RecoveredHolder(s.workers[v], id) :: v == w
    ensures OwedBy(s', id) <==> Owes(s'.workers[w])
    ensures RecoveryPending(s', id) <==> s'.workers[w].stage == Ending(Recovered)
  {
    if OwedBy(s', id) {
      var v :| v in s'.workers && Owes(s'.workers[v]) && s'.workers[v].id == id;
      assert v != w ==> v in s.workers;
    }
    if s'.workers[w].stage == Ending(Recovered) {
      assert RecoveredHolder(s'.workers[w], id);
    }
    if RecoveryPending(s', id) {
      var v :| v in s'.workers && RecoveredHolder(s'.workers[v], id);
      assert v == w || RecoveredHolder(s.workers[v], id);
    }
  }

  /** The line a worker owes is written by its close. */
  lemma DebtIsPaid(s: State, step: Step, id: string)
    requires Sound(s) && Told(s) && Accounted(s) && Enabled(s, step) && step.CloseIncident?
        && OnTime(s, s.workers[step.w])
    requires Owes(s.workers[step.w]) && id == s.workers[step.w].id
    ensures LinesRight(Next(s, step), id)
  {
    var r := s.table[s.workers[step.w].key];
    assert LinesRight(s, id) && OwedBy(s, id) && !OwedBy(Next(s, step), id);
    PaidLine(StoryOf(s.history, id), r, id);
    assert Next(s, step).history == Then(Logged(id, r.attemptCount, r.terminalOutcome, true), s.history);
  }

  lemma PaidLine(st: Story, r: Record, id: string)
    requires Agrees(st, r) && r.terminalOutcome !in {Unset, Recovered, RolledBack} && st.lines == []
    ensures var line := Logged(id, r.attemptCount, r.terminalOutcome, true);
            && Extend(st, line).lines == [ControllerLine(id, Extend(st, line))]
            && Extend(st, line).closed == r.terminalOutcome
  {
  }

  lemma CloserLines(s: State, step: Step, id: string)
    requires Sound(s) && Told(s) && Accounted(s) && Enabled(s, step) && step.CloseIncident?
        && OnTime(s, s.workers[step.w])
    ensures LinesRight(Next(s, step), id)
  {
    var s', wk := Next(s, step), s.workers[step.w];
    assert LinesRight(s, id);
    if Owes(wk) && id == wk.id {
      DebtIsPaid(s, step, id);
    } else {
      SameDebts(s, s', step.w, wk.key, id);
    }
  }

  lemma CloserKeepsAccount(s: State, step: Step)
    requires Sound(s) && Told(s) && Accounted(s) && Enabled(s, step) && step.CloseIncident?
        && OnTime(s, s.workers[step.w])
    ensures Accounted(Next(s, step))
  {
    var s' := Next(s, step);
    forall id ensures LinesRight(s', id) {
      CloserLines(s, step, id);
    }
    forall v <- s'.workers | Owes(s'.workers[v]) ensures StoryOf(s'.history,
        s'.workers[v].id).closed == s'.workers[v].stage.own {
      CloserStory(s, step, s.workers[v].id);
    }
  }

  lemma NextAccounted(s: State, step: Step)
    requires Sound(s) && Told(s) && Accounted(s) && !Next(s, step).late
    ensures Accounted(Next(s, step))
  {
    if !Enabled(s, step) || step.OutsideEdit? {
      SameWorkersAccounted(s, Next(s, step));
    } else if step.BeginAttempt? {
      EnterAccounted(s, step.w, step.key, step.generation, step.now, step.id);
    } else if HoldsNow(s, step.w) {
      HolderAccounted(s, step, step.w);
    } else {
      CloserKeepsAccount(s, step);
    }
  }

  lemma {:induction false} RunAccounted(s: State, steps: seq<Step>)
    requires Sound(s) && Told(s) && Accounted(s) && !Run(s, steps).late
    ensures Accounted(Run(s, steps))
    decreases |steps|
  {
    if steps != [] {
      LateStays(Next(s, steps[0]), steps[1..]);
      NextSound(s, steps[0]);
      NextTold(s, steps[0]);
      NextAccounted(s, steps[0]);
      RunAccounted(Next(s, steps[0]), steps[1..]);
    }
  }

  lemma SameWorkersAccounted(s: State, s': State)
    requires Accounted(s) && s'.workers == s.workers && s'.history == s.history
    ensures Accounted(s')
  {
    forall id ensures LinesRight(s', id) {
      assert LinesRight(s, id);
      assert OwedBy(s', id) == OwedBy(s, id) && RecoveryPending(s', id) == RecoveryPending(s, id);
    }
  }

  lemma {:induction false} LateStays(s: State, steps: seq<Step>)
    ensures s.late ==> Run(s, steps).late
    decreases |steps|
  {
    if steps != [] {
      LateStays(Next(s, steps[0]), steps[1..]);
    }
  }

  /** In a run whose closes are all on time, an incident that has ended and whose close has run has exactly one
      terminal line: with the number of its attempts, from `Remediate` when it recovered, from the controller
      otherwise. */
  lemma ExactlyOneTerminalLine(hasClassifier: bool, steps: seq<Step>, id: string)
    requires var s := Run(Start(hasClassifier), steps);
             !s.late && StoryOf(s.history, id).closed != Unset && !OwedBy(s, id)
    ensures var st := StoryOf(Run(Start(hasClassifier), steps).history, id);
            st.lines == [Logged(id, |st.attempts|, st.closed, st.closed != Recovered)]
  {
    var s0 := Start(hasClassifier);
    var s := Run(s0, steps);
    assert Sound(s0) && Told(s0);
    StartAccounted(hasClassifier);
    RunAccounted(s0, steps);
    assert LinesRight(s, id);
  }

  lemma StartAccounted(hasClassifier: bool)
    ensures Accounted(Start(hasClassifier))
  {
    var s0 := Start(hasClassifier);
    forall id ensures LinesRight(s0, id) {
      assert !OwedBy(s0, id) && !RecoveryPending(s0, id);
    }
  }

  // ------------------------------------------------- when closes are on time

  /** The history a worker's close should leave: its incident's line if it owes one, nothing new otherwise. */
  function AsOwed(h: History, wk: Worker): History {
    if Owes(wk) then Then(ControllerLine(wk.id, StoryOf(h, wk.id)), h) else h
  }

  ghost predicate EveryCloseAsOwed(s: State, steps: seq<Step>)
    decreases |steps|
  {
    steps != [] ==>
      && (Enabled(s, steps[0]) && steps[0].CloseIncident? ==>
          Next(s, steps[0]).history == AsOwed(s.history, s.workers[steps[0].w]))
      && EveryCloseAsOwed(Next(s, steps[0]), steps[1..])
  }

  /** Being on time is exactly what lets every close write what its worker owes, and only that. */
  lemma {:induction false} OnTimeIffEveryCloseAsOwed(s: State, steps: seq<Step>)
    requires Sound(s) && Told(s) && Accounted(s) && !s.late
    ensures !Run(s, steps).late <==> EveryCloseAsOwed(s, steps)
    decreases |steps|
  {
    if steps != [] {
      var s' := Next(s, steps[0]);
      StepAsOwed(s, steps[0]);
      LateStays(s', steps[1..]);
      if !s'.late {
        NextSound(s, steps[0]);
        NextTold(s, steps[0]);
        NextAccounted(s, steps[0]);
        OnTimeIffEveryCloseAsOwed(s', steps[1..]);
      }
    }
  }

  lemma StepAsOwed(s: State, step: Step)
    requires Sound(s) && Told(s) && Accounted(s) && !s.late
    ensures !Next(s, step).late <==>
      (Enabled(s, step) && step.CloseIncident? ==> Next(s, step).history == AsOwed(s.history, s.workers[step.w]))
  {
    OnlyClosesAreLate(s, step);
    if Enabled(s, step) && step.CloseIncident? {
      CloseAsOwed(s, step.w);
    }
  }

  lemma OnlyClosesAreLate(s: State, step: Step)
    requires !s.late
    ensures Next(s, step).late <==> Enabled(s, step) && step.CloseIncident? && !OnTime(s, s.workers[step.w])
  {
  }

  lemma CloseAsOwed(s: State, w: nat)
    requires Sound(s) && Told(s) && Accounted(s) && w in s.workers && s.workers[w].stage.Closing?
    ensures OnTime(s, s.workers[w]) <==> Close(s, w).history == AsOwed(s.history, s.workers[w])
  {
    var wk := s.workers[w];
    if Owes(wk) && wk.key in s.table && s.table[wk.key].id == wk.id {
      assert Agrees(StoryOf(s.history, wk.id), s.table[wk.key]);
    }
    LogGrows(LineFor(s.table, wk.key).GetOr(Spent("", "")), s.history);
  }

  lemma {:induction false} LogGrows(e: Event, h: History)
    ensures Then(e, h) != h
    decreases h
  {
    if h.Then? {
      LogGrows(h.event, h.before);
    }
  }

  /** A close keeps every incident's lines right exactly when it is on time. */
  lemma CloseKeepsAccountIffOnTime(s: State, w: nat)
    requires Sound(s) && Told(s) && Accounted(s) && w in s.workers && s.workers[w].stage.Closing?
    ensures Accounted(Next(s, CloseIncident(w))) <==> OnTime(s, s.workers[w])
  {
    var s', wk := Next(s, CloseIncident(w)), s.workers[w];
    if OnTime(s, wk) {
      CloserKeepsAccount(s, CloseIncident(w));
    } else if Owes(wk) {
      LateDebtIsLost(s, w);
    } else {
      StrayLineMiscounts(s, w);
    }
  }

  /** A close that owes a line and no longer finds its incident leaves that incident without one. */
  lemma LateDebtIsLost(s: State, w: nat)
    requires Sound(s) && Told(s) && Accounted(s) && w in s.workers && Owes(s.workers[w]) && !OnTime(s, s.workers[w])
    ensures !Accounted(Next(s, CloseIncident(w)))
  {
    var s', wk := Next(s, CloseIncident(w)), s.workers[w];
    assert LinesRight(s, wk.id);
    assert OwesFor(wk, wk.id) && OwedBy(s, wk.id);
    CloserStory(s, CloseIncident(w), wk.id);
    assert StoryOf(s'.history, wk.id).lines == [] && !OwedBy(s', wk.id);
    assert !LinesRight(s', wk.id);
  }

  /** A close that owes nothing and finds a line to write gives some incident one too many. */
  lemma StrayLineMiscounts(s: State, w: nat)
    requires Sound(s) && Told(s) && Accounted(s) && w in s.workers && s.workers[w].stage.Closing?
    requires !Owes(s.workers[w]) && !OnTime(s, s.workers[w])
    ensures !Accounted(Next(s, CloseIncident(w)))
  {
    var s', key := Next(s, CloseIncident(w)), s.workers[w].key;
    var id := s.table[key].id;
    assert LinesRight(s, id) && Agrees(StoryOf(s.history, id), s.table[key]);
    StrayLine(s, w);
    CloserStory(s, CloseIncident(w), id);
    SameDebts(s, s', w, key, id);
    assert !LinesRight(s', id);
  }

  lemma StrayLine(s: State, w: nat)
    requires w in s.workers && s.workers[w].stage.Closing? && s.workers[w].key in s.table
    requires LineFor(s.table, s.workers[w].key).Some? && s.table[s.workers[w].key].terminalOutcome != RolledBack
    ensures var s', id := Next(s, CloseIncident(w)), s.table[s.workers[w].key].id;
            |StoryOf(s'.history, id).lines| == |StoryOf(s.history, id).lines| + 1
  {
  }

  lemma StepKeepsAccountIffOnTime(s: State, step: Step)
    requires Sound(s) && Told(s) && Accounted(s) && !s.late
    ensures Accounted(Next(s, step)) <==> !Next(s, step).late
  {
    OnlyClosesAreLate(s, step);
    if Enabled(s, step) && step.CloseIncident? {
      CloseKeepsAccountIffOnTime(s, step.w);
    } else {
      NextAccounted(s, step);
    }
  }

  /** Every incident's lines are right after each step. */
  ghost predicate AlwaysAccounted(s: State, steps: seq<Step>)
    decreases |steps|
  {
    Accounted(s) && (steps != [] ==> AlwaysAccounted(Next(s, steps[0]), steps[1..]))
  }

  /** The lines of all incidents are right all through a run exactly when its closes are all on time. */
  lemma {:induction false} LinesAlwaysRightIffOnTime(s: State, steps: seq<Step>)
    requires Sound(s) && Told(s) && Accounted(s) && !s.late
    ensures AlwaysAccounted(s, steps) <==> !Run(s, steps).late
    decreases |steps|
  {
    if steps != [] {
      var s' := Next(s, steps[0]);
      LateStays(s', steps[1..]);
      NextSound(s, steps[0]);
      NextTold(s, steps[0]);
      StepKeepsAccountIffOnTime(s, steps[0]);
      if !s'.late {
        LinesAlwaysRightIffOnTime(s', steps[1..]);
      }
    }
  }

  lemma LinesRightFromTheStart(hasClassifier: bool, steps: seq<Step>)
    ensures AlwaysAccounted(Start(hasClassifier), steps) <==> !Run(Start(hasClassifier), steps).late
  {
    StartAccounted(hasClassifier);
    assert Sound(Start(hasClassifier)) && Told(Start(hasClassifier));
    LinesAlwaysRightIffOnTime(Start(hasClassifier), steps);
  }

  /** Nobody looks at `key` while a close on it is outstanding. */
  predicate FreeOfCloses(s: State, key: string) {
    forall w <- s.workers :: !(s.workers[w].stage.Closing? && s.workers[w].key == key)
  }

  ghost predicate Prompt(s: State, steps: seq<Step>)
    decreases |steps|
  {
    steps != [] ==>
      && (Enabled(s, steps[0]) && steps[0].BeginAttempt? ==> FreeOfCloses(s, steps[0].key))
      && Prompt(Next(s, steps[0]), steps[1..])
  }

  ghost predicate ClosersAlone(s: State) {
    && (forall w <- s.workers | s.workers[w].stage.Closing? :: OnTime(s, s.workers[w]))
    && (forall v <- s.workers, w <- s.workers | s.workers[w].stage.Closing?
        && s.workers[v].key == s.workers[w].key :: v == w)
  }

  lemma NextClosersAlone(s: State, step: Step)
    requires Sound(s) && ClosersAlone(s)
    requires Enabled(s, step) && step.BeginAttempt? ==> FreeOfCloses(s, step.key)
    ensures ClosersAlone(Next(s, step)) && (Next(s, step).late ==> s.late)
  {
    if Enabled(s, step) && !step.OutsideEdit? {
      if step.BeginAttempt? {
        EnterLocal(s, step.w, step.key, step.generation, step.now, step.id);
        EnterClosersAlone(s, step.w, step.key, step.generation, step.now, step.id);
      } else {
        WorkerStep(s, step, step.w, s.workers[step.w].key);
        WorkerClosersAlone(s, step, step.w, s.workers[step.w].key);
      }
    }
  }

  lemma EnterClosersAlone(s: State, w: nat, key: string, generation: int, now: Time, id: string)
    requires Sound(s) && ClosersAlone(s) && w !in s.workers && id !in s.used && FreeOfCloses(s, key)
    requires Local(s, Enter(s, w, key, generation, now, id), w, key)
    ensures ClosersAlone(Enter(s, w, key, generation, now, id))
  {
    var s' := Enter(s, w, key, generation, now, id);
    AdmitCases(Lookup(s.table, key), generation, now, id);
    NewcomerClosersAlone(s, s', w, key);
  }

  lemma NewcomerClosersAlone(s: State, s': State, w: nat, key: string)
    requires ClaimsMatch(s) && ClosersAlone(s) && FreeOfCloses(s, key) && w !in s.workers && Local(s, s', w, key)
    requires w in s'.workers && s'.workers[w].stage.Closing? ==>
               OnTime(s', s'.workers[w]) && !(key in s.table && s.table[key].inFlight)
    ensures ClosersAlone(s')
  {
    forall v <- s'.workers | v != w && s'.workers[v].stage.Closing?
      ensures OnTime(s', s'.workers[v]) && s'.workers[v].key != key
    {
      assert v in s.workers;
      assert Lookup(s'.table, s'.workers[v].key) == Lookup(s.table, s'.workers[v].key);
    }
  }

  lemma WorkerClosersAlone(s: State, step: Step, w: nat, key: string)
    requires Sound(s) && ClosersAlone(s) && Enabled(s, step) && !step.OutsideEdit? && !step.BeginAttempt?
    requires w == step.w && key == s.workers[w].key && Local(s, Next(s, step), w, key)
    ensures ClosersAlone(Next(s, step)) && (Next(s, step).late ==> s.late)
  {
    StepOnTime(s, step, w);
    StepClosersAlone(s, Next(s, step), w, key);
  }

  /** A worker that has just released its claim is on time; one that closes was. */
  lemma StepOnTime(s: State, step: Step, w: nat)
    requires Enabled(s, step) && !step.OutsideEdit? && !step.BeginAttempt? && w == step.w
    requires HoldsNow(s, w) ==> HolderMatches(s, s.workers[w])
    requires !HoldsNow(s, w) ==> OnTime(s, s.workers[w])
    ensures var s' := Next(s, step);
            && (w in s'.workers && s'.workers[w].stage.Closing? ==> HoldsNow(s, w) && OnTime(s', s'.workers[w]))
            && (s'.late ==> s.late)
  {
  }

  lemma StepClosersAlone(s: State, s': State, w: nat, key: string)
    requires ClaimsMatch(s) && ClosersAlone(s) && w in s.workers && Local(s, s', w, key)
    requires w in s'.workers && s'.workers[w].stage.Closing? ==> HoldsNow(s, w) && OnTime(s', s'.workers[w])
    ensures ClosersAlone(s')
  {
    forall v <- s'.workers | v != w && s'.workers[v].stage.Closing?
      ensures OnTime(s', s'.workers[v]) && s'.workers[v].key != key
    {
      assert v in s.workers;
      assert Lookup(s'.table, s'.workers[v].key) == Lookup(s.table, s'.workers[v].key);
    }
    forall v <- s'.workers | v != w && HoldsNow(s, w) ensures s'.workers[v].key != key {
      assert v in s.workers;
    }
  }

  /** If no look at a key ever overtakes an outstanding close on it, every close is on time. */
  lemma {:induction false} PromptRunsAreOnTime(s: State, steps: seq<Step>)
    requires Sound(s) && ClosersAlone(s) && !s.late && Prompt(s, steps)
    ensures !Run(s, steps).late
    decreases |steps|
  {
    if steps != [] {
      NextClosersAlone(s, steps[0]);
      NextSound(s, steps[0]);
      PromptRunsAreOnTime(Next(s, steps[0]), steps[1..]);
    }
  }

  /** Without that, one incident can close without a line and another with two: the close of incident "a" is
      overtaken by a look that sees a new generation and opens incident "b". */
  lemma OvertakenCloseMiscounts() returns (steps: seq<Step>)
    ensures var s := Run(Start(false), steps);
              && s.workers == map[]
              && StoryOf(s.history, "a").closed == Escalated && StoryOf(s.history, "a").lines == []
              && StoryOf(s.history, "b").closed == Escalated && |StoryOf(s.history, "b").lines| == 2
  {
    var front := [BeginAttempt(0, "k", 1, 0, "a"), LookForEvidence(0), EndAttempt(0, 1),
        BeginAttempt(1, "k", 2, 2, "b")];
    var back := [LookForEvidence(1), EndAttempt(1, 3), CloseIncident(0), CloseIncident(1)];
    var s4 := OvertakenFront(front);
    var s8 := OvertakenBack(s4, back);
    RunSplits(Start(false), front, back);
    steps := front + back;
    MiscountedHistory(s8.history);
  }

  lemma OvertakenFront(steps: seq<Step>) returns (s: State)
    requires steps == [BeginAttempt(0, "k", 1, 0, "a"), LookForEvidence(0), EndAttempt(0, 1),
        BeginAttempt(1, "k", 2, 2, "b")]
    ensures s == Run(Start(false), steps)
    ensures s == State(map["k" := NewRecord("b", 2).(generation := 2, inFlight := true)],
                       map[0 := Worker("k", "a", Closing(Escalated)), 1 := Worker("k", "b", Claimed)],
                       {"a", "b"}, map[], false,
                       Then(Claim("k", "b", 2, 0), Then(Ended("k", "a", Escalated, 1),
                           Then(Claim("k", "a", 0, 0), Nothing))), false)
  {
    var r := NewRecord("a", 0).(generation := 1, inFlight := true);
    var h := Then(Claim("k", "a", 0, 0), Nothing);
    var s1 := Next(Start(false), steps[0]);
    assert s1 == State(map["k" := r], map[0 := Worker("k", "a", Claimed)], {"a"}, map[], false, h, false);
    var s2 := Next(s1, steps[1]);
    assert s2 == s1.(workers := map[0 := Worker("k", "a", Ending(Escalated))]);
    var s3 := Next(s2, steps[2]);
    assert s3 == s2.(table := map["k" := Released(r, Escalated, 1)], workers :=
        map[0 := Worker("k", "a", Closing(Escalated))],
                     history := Then(Ended("k", "a", Escalated, 1), h));
    s := Next(s3, steps[3]);
    RunTwice(Start(false), steps[0], steps[1]);
    RunTwice(s2, steps[2], steps[3]);
    assert steps == [steps[0], steps[1]] + [steps[2], steps[3]];
    RunSplits(Start(false), [steps[0], steps[1]], [steps[2], steps[3]]);
    assert s.used == {"a", "b"};
  }

  lemma OvertakenBack(s: State, steps: seq<Step>) returns (end: State)
    requires s.table == map["k" := NewRecord("b", 2).(generation := 2, inFlight := true)]
    requires s.workers == map[0 := Worker("k", "a", Closing(Escalated)), 1 := Worker("k", "b", Claimed)]
        && !s.hasClassifier
    requires steps == [LookForEvidence(1), EndAttempt(1, 3), CloseIncident(0), CloseIncident(1)]
    ensures end == Run(s, steps) && end.workers == map[]
    ensures var line := Logged("b", 0, Escalated, true);
            end.history == Then(line, Then(line, Then(Ended("k", "b", Escalated, 3), s.history)))
  {
    var s1 := Next(s, steps[0]);
    assert s1.workers[1] == Worker("k", "b", Ending(Escalated));
    var s2 := Next(s1, steps[1]);
    var s3 := Next(s2, steps[2]);
    assert s3.workers == map[1 := Worker("k", "b", Closing(Escalated))];
    end := Next(s3, steps[3]);
    assert end.workers == map[];
    RunTwice(s, steps[0], steps[1]);
    RunTwice(s2, steps[2], steps[3]);
    assert steps == [steps[0], steps[1]] + [steps[2], steps[3]];
    RunSplits(s, [steps[0], steps[1]], [steps[2], steps[3]]);
  }

  lemma MiscountedHistory(h: History)
    requires var line := Logged("b", 0, Escalated, true);
             h == Then(line, Then(line, Then(Ended("k", "b", Escalated, 3),
                  Then(Claim("k", "b", 2, 0), Then(Ended("k", "a", Escalated, 1),
                      Then(Claim("k", "a", 0, 0), Nothing))))))
    ensures StoryOf(h, "a").closed == Escalated && StoryOf(h, "a").lines == []
    ensures StoryOf(h, "b").closed == Escalated && |StoryOf(h, "b").lines| == 2
  {
    var older := h.before.before.before;
    assert StoryOf(older, "b").lines == [] && StoryOf(older, "a").lines == [];
    assert StoryOf(h.before.before, "b").closed == Escalated;
  }
}
