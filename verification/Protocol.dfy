/** Reconciles and remediation goroutines of many Deployments, interleaved in every possible way.

    One step is one critical section of the incident manager, or one thing a worker or an outsider does
    between two of them. `Next` is total: a step whose guard fails changes nothing, so every sequence of
    steps is a run and a property of all runs needs no side condition. */
module Protocol {
  import opened Basics
  import opened Incidents

  /** How the decision gate answered: run the action, escalate, or no registered action. */
  datatype Verdict = Act | Escalate | Reject

  datatype Stage =
    | Claimed                        // beginAttempt returned admitProceed
    | Collecting                     // incidentEvidence found no bundle
    | Deciding(bundle: Bundle)       // evidence in hand, classifier about to be called
    | Running(attempt: nat, writes: nat)   // recordAttempt done, Remediate in progress, having moved the spec so often
    | Ending(outcome: Outcome)       // about to call endAttempt
    | Closing(own: Outcome)          // about to call closeIncidentIfTerminal; `own` is what this worker stored

  datatype Worker = Worker(key: string, id: string, stage: Stage)

  /** How often one attempt can move its Deployment's spec: by its action, and by its restore. */
  const MAX_WRITES: nat := 2

  datatype Event =
    | Claim(key: string, id: string, at: Time, completed: nat)
    | Spent(key: string, id: string)
    | Collected(id: string, bundle: Bundle)
    | Classified(key: string, id: string, bundle: Bundle, pod: string, verdict: Verdict)
    | Dispatch(key: string, id: string, attempt: nat)
    | Moved(key: string, id: string)
    | Ended(key: string, id: string, outcome: Outcome, at: Time)
    | Logged(id: string, attempt: nat, result: Outcome, byController: bool)

  type History = Log<Event>

  datatype State = State(
    table: Table,
    workers: map<nat, Worker>,
    used: set<string>,               // incident ids handed out so far
    generation: map<string, int>,    // live metadata.generation; 1 when absent
    hasClassifier: bool,             // PodReconciler.Classifier != nil
    history: History,
    late: bool)                      // some closeIncidentIfTerminal found another state than its worker left

  datatype Step =
    | BeginAttempt(w: nat, key: string, generation: int, now: Time, id: string)
    | LookForEvidence(w: nat)
    | CollectEvidence(w: nat, bundle: Bundle)
    | Decide(w: nat, pod: string, verdict: Verdict)
    | WriteSpec(w: nat)                              // the action or the restore changes the Deployment spec
    | FinishRemediate(w: nat, result: Outcome)
    | EndAttempt(w: nat, now: Time)
    | CloseIncident(w: nat)
    | OutsideEdit(key: string)

  function Start(hasClassifier: bool): State {
    State(map[], map[], {}, map[], hasClassifier, Nothing, false)
  }

  function LiveGeneration(s: State, key: string): int {
    if key in s.generation then s.generation[key] else 1
  }

  predicate Holds(w: Worker) {
    !w.stage.Closing?
  }

  /** This worker's own store ended the incident and the controller owes its audit line. */
  predicate Owes(w: Worker) {
    w.stage.Closing? && !LeavesOpen(w.stage.own) && w.stage.own != Recovered
  }

  /** The line `closeIncidentIfTerminal` would write now for `key`. */
  function LineFor(t: Table, key: string): Option<Event> {
    if key !in t || t[key].terminalOutcome == Unset || t[key].terminalOutcome == Recovered then None
    else Some(Logged(t[key].id, t[key].attemptCount, t[key].terminalOutcome, true))
  }

  /** A close is on time when it finds its own incident if it owes a line, and nothing to log if it does not. */
  predicate OnTime(s: State, w: Worker) {
    if Owes(w) then w.key in s.table && s.table[w.key].id == w.id else LineFor(s.table, w.key) == None
  }

  function Enter(s: State, w: nat, key: string, generation: int, now: Time, id: string): State {
    var (r, admission) := Admit(Lookup(s.table, key), generation, now, id);
    var t := s.(table := s.table[key := r], used := s.used + {id});
    match admission
    case Skip => t
    case Proceed =>
      t.(workers := s.workers[w := Worker(key, r.id, Claimed)],
         history := Then(Claim(key, r.id, now, r.attemptCount), s.history))
    case BudgetSpent =>
      t.(workers := s.workers[w := Worker(key, r.id, Closing(Exhausted))],
         history := Then(Spent(key, r.id), s.history))
  }

  function Look(s: State, w: nat): State
    requires w in s.workers
  {
    var wk := s.workers[w];
    var evidence := if wk.key in s.table then s.table[wk.key].evidence else None;
    var stage := if !s.hasClassifier then Ending(Escalated)
                 else if evidence.Some? then Deciding(evidence.value) else Collecting;
    s.(workers := s.workers[w := wk.(stage := stage)])
  }

  function Collect(s: State, w: nat, bundle: Bundle): State
    requires w in s.workers
  {
    var wk := s.workers[w];
    s.(table := Perform(s.table, wk.key, Freeze(bundle)).0,
       workers := s.workers[w := wk.(stage := Deciding(bundle))],
       history := Then(Collected(wk.id, bundle), s.history))
  }

  function Judge(s: State, w: nat, pod: string, verdict: Verdict): State
    requires w in s.workers && s.workers[w].stage.Deciding?
  {
    var wk := s.workers[w];
    var h := Then(Classified(wk.key, wk.id, wk.stage.bundle, pod, verdict), s.history);
    if verdict == Act then
      var (t, reply) := Perform(s.table, wk.key, Count);
      s.(table := t, workers := s.workers[w := wk.(stage := Running(reply.n, 0))],
         history := Then(Dispatch(wk.key, wk.id, reply.n), h))
    else
      s.(workers := s.workers[w := wk.(stage := Ending(if verdict == Escalate then Escalated else Rejected))],
          history := h)
  }

  function Write(s: State, w: nat): State
    requires w in s.workers && s.workers[w].stage.Running?
  {
    var wk := s.workers[w];
    s.(generation := s.generation[wk.key := LiveGeneration(s, wk.key) + 1],
       workers := s.workers[w := wk.(stage := wk.stage.(writes := wk.stage.writes + 1))],
       history := Then(Moved(wk.key, wk.id), s.history))
  }

  function FinishRun(s: State, w: nat, result: Outcome): State
    requires w in s.workers && s.workers[w].stage.Running?
  {
    var wk := s.workers[w];
    s.(workers := s.workers[w := wk.(stage := Ending(result))],
       history := if result == Unset then s.history
                  else Then(Logged(wk.id, wk.stage.attempt, result, false), s.history))
  }

  function Leave(s: State, w: nat, now: Time): State
    requires w in s.workers && s.workers[w].stage.Ending?
  {
    var wk := s.workers[w];
    s.(table := Perform(s.table, wk.key, Release(wk.stage.outcome, now)).0,
       workers := s.workers[w := wk.(stage := Closing(wk.stage.outcome))],
       history := Then(Ended(wk.key, wk.id, wk.stage.outcome, now), s.history))
  }

  function Close(s: State, w: nat): State
    requires w in s.workers
  {
    var wk := s.workers[w];
    var line := LineFor(s.table, wk.key);
    s.(workers := s.workers - {w},
       history := if line.Some? then Then(line.value, s.history) else s.history,
       late := s.late || !OnTime(s, wk))
  }

  /** When a step may happen. A new worker number and a new incident id are never reused; `Remediate` moves the
      spec at most twice and reports an error, `recovered` or `rolled_back`. */
  predicate Enabled(s: State, step: Step) {
    match step
    case BeginAttempt(w, _, _, _, id) => w !in s.workers && id !in s.used
    case LookForEvidence(w) => w in s.workers && s.workers[w].stage.Claimed?
    case CollectEvidence(w, _) => w in s.workers && s.workers[w].stage.Collecting?
    case Decide(w, _, _) => w in s.workers && s.workers[w].stage.Deciding?
    case WriteSpec(w) => w in s.workers && s.workers[w].stage.Running? && s.workers[w].stage.writes < MAX_WRITES
    case FinishRemediate(w, result) =>
      w in s.workers && s.workers[w].stage.Running? && (LeavesOpen(result) || result == Recovered)
    case EndAttempt(w, _) => w in s.workers && s.workers[w].stage.Ending?
    case CloseIncident(w) => w in s.workers && s.workers[w].stage.Closing?
    case OutsideEdit(_) => true
  }

  function Next(s: State, step: Step): State {
    if !Enabled(s, step) then s else
    match step
    case BeginAttempt(w, key, generation, now, id) => Enter(s, w, key, generation, now, id)
    case LookForEvidence(w) => Look(s, w)
    case CollectEvidence(w, bundle) => Collect(s, w, bundle)
    case Decide(w, pod, verdict) => Judge(s, w, pod, verdict)
    case WriteSpec(w) => Write(s, w)
    case FinishRemediate(w, result) => FinishRun(s, w, result)
    case EndAttempt(w, now) => Leave(s, w, now)
    case CloseIncident(w) => Close(s, w)
    case OutsideEdit(key) => s.(generation := s.generation[key := LiveGeneration(s, key) + 1])
  }

  function Run(s: State, steps: seq<Step>): State
    decreases |steps|
  {
    if steps == [] then s else Run(Next(s, steps[0]), steps[1..])
  }

  predicate Extends(longer: History, h: History) {
    || longer == h
    || (longer.Then? && longer.before == h)
    || (longer.Then? && longer.before.Then? && longer.before.before == h)
  }

  /** A step adds at most two events to the history. */
  lemma HistoryGrows(s: State, step: Step)
    ensures Extends(Next(s, step).history, s.history)
  {
  }

  lemma {:induction false} RunSplits(s: State, first: seq<Step>, second: seq<Step>)
    ensures Run(s, first + second) == Run(Run(s, first), second)
    decreases |first|
  {
    if first == [] {
      assert first + second == second;
    } else {
      assert (first + second)[1..] == first[1..] + second;
      RunSplits(Next(s, first[0]), first[1..], second);
    }
  }

  lemma RunTwice(s: State, a: Step, b: Step)
    ensures Run(s, [a, b]) == Next(Next(s, a), b)
  {
    assert [a, b][1..] == [b];
    assert [b][1..] == [];
    assert Run(Next(s, a), [b]) == Run(Next(Next(s, a), b), []);
  }

  // ------------------------------------------------------------ claim exclusion

  ghost predicate ClaimsMatch(s: State) {
    && (forall w <- s.workers | Holds(s.workers[w]) :: HolderMatches(s, s.workers[w]))
    && (forall v <- s.workers, w <- s.workers | Holds(s.workers[v]) && Holds(s.workers[w])
        && s.workers[v].key == s.workers[w].key :: v == w)
    && (forall k <- s.table | s.table[k].inFlight :: Held(s, k))
  }

  ghost predicate Held(s: State, key: string) {
    exists w <- s.workers :: Holds(s.workers[w]) && s.workers[w].key == key
  }

  /** The record a holder was given is in the table, claimed and open. */
  predicate HolderMatches(s: State, wk: Worker) {
    && wk.key in s.table
    && s.table[wk.key].id == wk.id
    && s.table[wk.key].inFlight
    && s.table[wk.key].terminalOutcome == Unset
    && AttemptOf(s.table[wk.key].attemptCount, wk.stage)
    && (wk.stage.Deciding? ==> s.table[wk.key].evidence == Some(wk.stage.bundle))
    && (wk.stage.Collecting? ==> s.table[wk.key].evidence == None)
  }

  /** How a stage and the attempt counter go together. */
  predicate AttemptOf(count: nat, stage: Stage) {
    match stage
    case Running(attempt, _) => attempt == count && 1 <= count <= MAX_ATTEMPTS
    case Ending(outcome) =>
      if LeavesOpen(outcome) || outcome == Recovered then 1 <= count <= MAX_ATTEMPTS
      else outcome != Exhausted && count < MAX_ATTEMPTS
    case _ => count < MAX_ATTEMPTS
  }

  ghost predicate RecordsSound(s: State) {
    && (forall k <- s.table :: RecordSound(s.table[k]) && s.table[k].id in s.used)
    && (forall j <- s.table, k <- s.table | s.table[j].id == s.table[k].id :: j == k)
    && (forall w <- s.workers :: s.workers[w].id in s.used)
  }

  predicate RecordSound(r: Record) {
    && r.attemptCount <= MAX_ATTEMPTS
    && (r.terminalOutcome != Unset ==> !r.inFlight)
    && r.terminalOutcome != RolledBack
    && (r.terminalOutcome == Exhausted ==> r.attemptCount == MAX_ATTEMPTS)
  }

  ghost predicate Sound(s: State) {
    ClaimsMatch(s) && RecordsSound(s)
  }

  /** `s'` differs from `s` at most in the record of `key` and in worker `w`, who works on `key`. */
  ghost predicate Local(s: State, s': State, w: nat, key: string) {
    && (forall k | k != key :: Lookup(s'.table, k) == Lookup(s.table, k))
    && (forall v | v != w :: (v in s'.workers <==> v in s.workers) && (v in s.workers ==>
        s'.workers[v] == s.workers[v]))
    && (w in s.workers ==> s.workers[w].key == key)
    && (w in s'.workers ==> s'.workers[w].key == key)
    && s.used <= s'.used
  }

  predicate HoldsNow(s: State, w: nat) {
    w in s.workers && Holds(s.workers[w])
  }

  /** A step of a holder, or of a newcomer on a free key, keeps the claims matched if it does so for itself. */
  lemma LocalClaims(s: State, s': State, w: nat, key: string)
    requires ClaimsMatch(s) && Local(s, s', w, key)
    requires HoldsNow(s, w) || !(key in s.table && s.table[key].inFlight)
    requires HoldsNow(s', w) ==> HolderMatches(s', s'.workers[w])
    requires key in s'.table && s'.table[key].inFlight ==> HoldsNow(s', w)
    ensures ClaimsMatch(s')
  {
    forall v | v != w && HoldsNow(s', v) ensures HolderMatches(s', s'.workers[v]) && s'.workers[v].key != key {
      assert HolderMatches(s, s.workers[v]);
      assert Lookup(s'.table, s'.workers[v].key) == Lookup(s.table, s.workers[v].key);
    }
    forall k <- s'.table | s'.table[k].inFlight ensures Held(s', k) {
      if k != key {
        assert Lookup(s'.table, k) == Lookup(s.table, k);
        var v :| v in s.workers && Holds(s.workers[v]) && s.workers[v].key == k;
        assert v in s'.workers;
      }
    }
  }

  /** Refreshing the stored generation disturbs nobody's claim. */
  lemma RefreshClaims(s: State, s': State, key: string, generation: int)
    requires ClaimsMatch(s) && key in s.table
    requires s'.workers == s.workers && s'.table == s.table[key := s.table[key].(generation := generation)]
    ensures ClaimsMatch(s')
  {
    forall k <- s'.table | s'.table[k].inFlight ensures Held(s', k) {
      var v :| v in s.workers && Holds(s.workers[v]) && s.workers[v].key == k;
      assert v in s'.workers;
    }
  }

  lemma LocalRecords(s: State, s': State, w: nat, key: string)
    requires RecordsSound(s) && Local(s, s', w, key)
    requires key in s'.table ==>
               && RecordSound(s'.table[key]) && s'.table[key].id in s'.used
               && ((key in s.table && s'.table[key].id == s.table[key].id) || s'.table[key].id !in s.used)
    requires w in s'.workers ==> s'.workers[w].id in s'.used
    ensures RecordsSound(s')
  {
    forall k <- s'.table | k != key ensures k in s.table && s'.table[k] == s.table[k] {
      assert Lookup(s'.table, k) == Lookup(s.table, k);
    }
  }

  /** What a worker's own step does to its key and its record, seen from that worker alone. */
  ghost predicate Stepped(s: State, s': State, w: nat, key: string)
    requires w in s.workers
  {
    && Local(s, s', w, key) && s'.used == s.used
    && (HoldsNow(s', w) ==> HolderMatches(s', s'.workers[w]))
    && (HoldsNow(s, w) && key in s'.table && s'.table[key].inFlight ==> HoldsNow(s', w))
    && (!HoldsNow(s, w) ==> s'.table == s.table && !HoldsNow(s', w))
    && (key in s'.table ==> key in s.table && RecordSound(s'.table[key]) && s'.table[key].id == s.table[key].id)
    && (w in s'.workers ==> s'.workers[w].id == s.workers[w].id)
  }

  lemma WorkerStep(s: State, step: Step, w: nat, key: string)
    requires Enabled(s, step) && !step.OutsideEdit? && !step.BeginAttempt?
    requires w == step.w && key == s.workers[w].key
    requires HoldsNow(s, w) ==> HolderMatches(s, s.workers[w])
    requires key in s.table ==> RecordSound(s.table[key])
    ensures Stepped(s, Next(s, step), w, key)
  {
    match step
    case CollectEvidence(_, bundle) => CollectSteps(s, w, key, bundle);
    case Decide(_, pod, verdict) => JudgeSteps(s, w, key, pod, verdict);
    case EndAttempt(_, now) => LeaveSteps(s, w, key, now);
    case _ =>
  }

  lemma CollectSteps(s: State, w: nat, key: string, bundle: Bundle)
    requires w in s.workers && s.workers[w].key == key && s.workers[w].stage.Collecting?
        && HolderMatches(s, s.workers[w])
    requires RecordSound(s.table[key])
    ensures Stepped(s, Collect(s, w, bundle), w, key)
  {
  }

  lemma JudgeSteps(s: State, w: nat, key: string, pod: string, verdict: Verdict)
    requires w in s.workers && s.workers[w].key == key && s.workers[w].stage.Deciding? && HolderMatches(s, s.workers[w])
    requires RecordSound(s.table[key])
    ensures Stepped(s, Judge(s, w, pod, verdict), w, key)
  {
  }

  lemma LeaveSteps(s: State, w: nat, key: string, now: Time)
    requires w in s.workers && s.workers[w].key == key && s.workers[w].stage.Ending? && HolderMatches(s, s.workers[w])
    requires RecordSound(s.table[key])
    ensures Stepped(s, Leave(s, w, now), w, key)
  {
  }

  lemma NextSound(s: State, step: Step)
    requires Sound(s)
    ensures Sound(Next(s, step))
  {
    if Enabled(s, step) && !step.OutsideEdit? {
      if step.BeginAttempt? {
        EnterSound(s, step.w, step.key, step.generation, step.now, step.id);
      } else {
        WorkerStepSound(s, step);
      }
    }
  }

  lemma WorkerStepSound(s: State, step: Step)
    requires Sound(s) && Enabled(s, step) && !step.OutsideEdit? && !step.BeginAttempt?
    ensures Sound(Next(s, step))
  {
    var w, key := step.w, s.workers[step.w].key;
    WorkerStep(s, step, w, key);
    var s' := Next(s, step);
    LocalRecords(s, s', w, key);
    if HoldsNow(s, w) || !(key in s.table && s.table[key].inFlight) {
      LocalClaims(s, s', w, key);
    } else {
      CloserClaims(s, s', w);
    }
  }

  /** A worker that holds nothing may leave. */
  lemma CloserClaims(s: State, s': State, w: nat)
    requires ClaimsMatch(s) && !HoldsNow(s, w) && s'.table == s.table
    requires forall v | v != w :: (v in s'.workers <==> v in s.workers) && (v in s.workers ==>
        s'.workers[v] == s.workers[v])
    requires !HoldsNow(s', w)
    ensures ClaimsMatch(s')
  {
    forall k <- s'.table | s'.table[k].inFlight ensures Held(s', k) {
      var v :| v in s.workers && Holds(s.workers[v]) && s.workers[v].key == k;
      assert v in s'.workers;
    }
  }

  lemma EnterSound(s: State, w: nat, key: string, generation: int, now: Time, id: string)
    requires Sound(s) && w !in s.workers && id !in s.used
    ensures Sound(Enter(s, w, key, generation, now, id))
  {
    EnterLocal(s, w, key, generation, now, id);
    var s' := Enter(s, w, key, generation, now, id);
    LocalRecords(s, s', w, key);
    if Admit(Lookup(s.table, key), generation, now, id).1 == Skip {
      RefreshClaims(s, s', key, s'.table[key].generation);
    } else {
      LocalClaims(s, s', w, key);
    }
  }

  /** What a look can do to a sound record. */
  predicate Admissible(current: Option<Record>, id: string, r: Record, admission: Admission) {
    && RecordSound(r) && (r.id == id || (current.Some? && r.id == current.value.id))
    && match admission
       case Skip => current.Some? && r == current.value.(generation := r.generation)
       case Proceed => r.inFlight && r.terminalOutcome == Unset && r.attemptCount < MAX_ATTEMPTS
           && (current.Some? ==> !current.value.inFlight)
       case BudgetSpent => !r.inFlight && current.Some? && !current.value.inFlight
  }

  lemma AdmitSound(current: Option<Record>, generation: int, now: Time, id: string)
    requires current.Some? ==> RecordSound(current.value)
    ensures var (r, admission) := Admit(current, generation, now, id);
            Admissible(current, id, r, admission)
  {
  }

  /** `s'` is `s` after a look of `w` that was answered with `r` and `admission`. */
  predicate Entered(s: State, s': State, w: nat, key: string, id: string, r: Record, admission: Admission) {
    && s'.table == s.table[key := r] && s'.used == s.used + {id}
    && s'.workers == if admission == Skip then s.workers
                     else s.workers[w := Worker(key, r.id, if admission == Proceed then Claimed
                         else Closing(Exhausted))]
  }

  lemma EnteredLocal(s: State, s': State, w: nat, key: string, id: string, r: Record, admission: Admission)
    requires w !in s.workers && id !in s.used && (key in s.table ==> s.table[key].id in s.used)
    requires Entered(s, s', w, key, id, r, admission) && Admissible(Lookup(s.table, key), id, r, admission)
    ensures EnteredLocally(s, s', w, key, admission)
  {
  }

  ghost predicate EnteredLocally(s: State, s': State, w: nat, key: string, admission: Admission) {
    && Local(s, s', w, key) && key in s'.table && RecordSound(s'.table[key]) && s'.table[key].id in s'.used
    && ((key in s.table && s'.table[key].id == s.table[key].id) || s'.table[key].id !in s.used)
    && (w in s'.workers ==> s'.workers[w].id in s'.used)
    && (admission == Skip ==> s'.workers == s.workers && key in s.table
                              && s'.table == s.table[key := s.table[key].(generation := s'.table[key].generation)])
    && (admission != Skip ==> !(key in s.table && s.table[key].inFlight)
                              && (HoldsNow(s', w) ==> HolderMatches(s', s'.workers[w]))
                              && (s'.table[key].inFlight ==> HoldsNow(s', w)))
  }

  lemma EnterLocal(s: State, w: nat, key: string, generation: int, now: Time, id: string)
    requires w !in s.workers && id !in s.used
    requires key in s.table ==> RecordSound(s.table[key]) && s.table[key].id in s.used
    ensures EnteredLocally(s, Enter(s, w, key, generation, now, id), w, key,
        Admit(Lookup(s.table, key), generation, now, id).1)
  {
    var (r, admission) := Admit(Lookup(s.table, key), generation, now, id);
    AdmitSound(Lookup(s.table, key), generation, now, id);
    EnteredLocal(s, Enter(s, w, key, generation, now, id), w, key, id, r, admission);
  }

  lemma {:induction false} RunSound(s: State, steps: seq<Step>)
    requires Sound(s)
    ensures Sound(Run(s, steps))
    decreases |steps|
  {
    if steps != [] {
      NextSound(s, steps[0]);
      RunSound(Next(s, steps[0]), steps[1..]);
    }
  }

  // ------------------------------------------------------------------ theorems

  /** In every run a Deployment has at most one live claim holder, and its record is in flight exactly while
      there is one. */
  lemma ClaimsAreExclusive(hasClassifier: bool, steps: seq<Step>, key: string)
    ensures var s := Run(Start(hasClassifier), steps);
            && (key in s.table && s.table[key].inFlight <==> Held(s, key))
            && forall v, w | HoldsNow(s, v) && HoldsNow(s, w) && s.workers[v].key == key == s.workers[w].key :: v == w
  {
    RunSound(Start(hasClassifier), steps);
    var s := Run(Start(hasClassifier), steps);
    if Held(s, key) {
      var w :| w in s.workers && Holds(s.workers[w]) && s.workers[w].key == key;
      assert HolderMatches(s, s.workers[w]);
    }
  }

  /** Whatever anybody does, a claimed record is neither dropped nor replaced before its holder's own
      endAttempt, which lands on that record. */
  lemma HolderKeepsItsRecord(s: State, step: Step, w: nat)
    requires Sound(s) && HoldsNow(s, w)
    ensures var (s', wk) := (Next(s, step), s.workers[w]);
            && wk.key in s'.table && s'.table[wk.key].id == wk.id
            && w in s'.workers && s'.workers[w].key == wk.key && s'.workers[w].id == wk.id
            && (HoldsNow(s', w) <==> !(Enabled(s, step) && step.EndAttempt? && step.w == w))
            && (HoldsNow(s', w) <==> s'.table[wk.key].inFlight)
  {
    NextSound(s, step);
    var s', wk := Next(s, step), s.workers[w];
    assert HolderMatches(s, wk);
    if Enabled(s, step) && step.BeginAttempt? {
      EnterLocal(s, step.w, step.key, step.generation, step.now, step.id);
      assert HolderMatches(s', s'.workers[w]);
    } else if Enabled(s, step) && !step.OutsideEdit? {
      assert Holds(s.workers[step.w]) ==> HolderMatches(s, s.workers[step.w]);
      WorkerStep(s, step, step.w, s.workers[step.w].key);
      assert step.w != w ==> HolderMatches(s', s'.workers[w]);
    }
  }

  /** Steps a worker still has before it leaves. */
  function StepsLeft(stage: Stage): nat {
    match stage
    case Claimed => 8
    case Collecting => 7
    case Deciding(_) => 6
    case Running(_, writes) => if writes < MAX_WRITES then 3 + MAX_WRITES - writes else 3
    case Ending(_) => 2
    case Closing(_) => 1
  }

  /** A worker is never stuck, whatever it collects, decides or obtains. */
  lemma WorkersAreNeverStuck(s: State, w: nat, bundle: Bundle, pod: string, verdict: Verdict, result: Outcome,
      now: Time)
    returns (step: Step)
    requires w in s.workers && (LeavesOpen(result) || result == Recovered)
    ensures Enabled(s, step) && !step.BeginAttempt? && !step.OutsideEdit? && !step.WriteSpec? && step.w == w
  {
    match s.workers[w].stage
    case Claimed => step := LookForEvidence(w);
    case Collecting => step := CollectEvidence(w, bundle);
    case Deciding(_) => step := Decide(w, pod, verdict);
    case Running(_, _) => step := FinishRemediate(w, result);
    case Ending(_) => step := EndAttempt(w, now);
    case Closing(_) => step := CloseIncident(w);
  }

  /** Each step of a worker brings it nearer to leaving, so that every claim is released. */
  lemma WorkersMoveOn(s: State, step: Step, w: nat)
    requires Enabled(s, step) && !step.BeginAttempt? && !step.OutsideEdit? && step.w == w
    ensures w in Next(s, step).workers ==> StepsLeft(Next(s, step).workers[w].stage) < StepsLeft(s.workers[w].stage)
  {
  }
}
