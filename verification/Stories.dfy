/** What every run tells about one incident: how its attempts are numbered and spaced, how often it ends,
    which evidence its classifications saw. */
module Stories {
  import opened Basics
  import opened Incidents
  import opened Protocol

  /** Everything the history says about one incident id, oldest first in the sequences. */
  datatype Story = Story(
    claims: nat,                     // how often the incident was claimed
    releases: nat,                   // how often endAttempt was called for it
    attempts: seq<nat>,              // numbers of the dispatched attempts
    lastEnd: Option<Time>,           // when the latest attempt that left the incident open ended
    paced: bool,                     // every claim so far respected the backoff and the budget
    ends: nat,                       // how often a terminal outcome was given to it
    closed: Outcome,                 // the latest one, `Unset` while it is open
    collected: seq<Bundle>,          // evidence bundles collected for it
    seen: seq<Bundle>,               // bundles its classifications were called with
    lines: seq<Event>,               // its LOGGED lines, `rolled_back` ones left out
    moves: nat)                      // how often its attempts moved the Deployment's generation

  /** A claim made with `completed` attempts behind it comes after the backoff that number asks for. */
  predicate PacedClaim(st: Story, at: Time, completed: nat) {
    && completed == |st.attempts| < MAX_ATTEMPTS
    && (st.lastEnd.Some? <==> completed > 0)
    && (completed > 0 ==> at - st.lastEnd.value >= AttemptBackoff(completed))
  }

  function Extend(st: Story, e: Event): Story {
    match e
    case Claim(_, _, at, completed) => st.(claims := st.claims + 1, paced := st.paced && PacedClaim(st, at, completed))
    case Spent(_, _) => st.(ends := st.ends + 1, closed := Exhausted)
    case Collected(_, bundle) => st.(collected := st.collected + [bundle])
    case Classified(_, _, bundle, _, _) => st.(seen := st.seen + [bundle])
    case Dispatch(_, _, attempt) => st.(attempts := st.attempts + [attempt])
    case Moved(_, _) => st.(moves := st.moves + 1)
    case Ended(_, _, outcome, at) =>
      if LeavesOpen(outcome) then st.(releases := st.releases + 1, lastEnd := Some(at))
      else st.(releases := st.releases + 1, ends := st.ends + 1, closed := outcome)
    case Logged(_, _, result, _) => if result == RolledBack then st else st.(lines := st.lines + [e])
  }

  const BLANK := Story(0, 0, [], None, true, 0, Unset, [], [], [], 0)

  function StoryOf(h: History, id: string): Story {
    match h
    case Nothing => BLANK
    case Then(e, before) => if e.id == id then Extend(StoryOf(before, id), e) else StoryOf(before, id)
  }

  function UpTo(n: nat): seq<nat> {
    seq(n, i => i + 1)
  }

  lemma UpToGrows(n: nat)
    ensures UpTo(n + 1) == UpTo(n) + [n + 1]
  {
  }

  /** True of every incident of every run. */
  ghost predicate WellTold(st: Story) {
    && st.releases <= st.claims <= st.releases + 1
    && (st.closed != Unset ==> st.claims == st.releases)
    && st.attempts == UpTo(|st.attempts|) && |st.attempts| <= MAX_ATTEMPTS
    && st.paced
    && st.ends == (if st.closed == Unset then 0 else 1)
    && (st.closed == Exhausted ==> |st.attempts| == MAX_ATTEMPTS)
    && |st.collected| <= 1
    && (forall b <- st.seen :: st.collected == [b])
    && st.moves <= MAX_WRITES * |st.attempts|
  }

  /** A running attempt still has its writes to make. */
  predicate MovesLeft(st: Story, stage: Stage) {
    stage.Running? ==> st.moves + MAX_WRITES - stage.writes <= MAX_WRITES * |st.attempts|
  }

  /** The incident's record, while the table holds it, against its story. */
  ghost predicate Agrees(st: Story, r: Record) {
    && st.claims == st.releases + (if r.inFlight then 1 else 0)
    && st.attempts == UpTo(r.attemptCount)
    && (r.attemptCount == 0 ==> st.lastEnd == None)
    && (r.attemptCount > 0 && !r.inFlight && r.terminalOutcome == Unset ==> st.lastEnd == Some(r.lastAttemptAt))
    && st.closed == r.terminalOutcome
    && st.collected == (if r.evidence.None? then [] else [r.evidence.value])
  }

  ghost predicate Told(s: State) {
    && (forall id :: WellTold(StoryOf(s.history, id)))
    && (forall id | id !in s.used :: StoryOf(s.history, id) == BLANK)
    && (forall k <- s.table :: Agrees(StoryOf(s.history, s.table[k].id), s.table[k]))
    && (forall w <- s.workers :: MovesLeft(StoryOf(s.history, s.workers[w].id), s.workers[w].stage))
  }

  /** Worker `w` holds a sound record with a story well told. */
  ghost predicate HolderTelling(s: State, w: nat) {
    && HoldsNow(s, w) && HolderMatches(s, s.workers[w]) && RecordTold(s, s.workers[w].key)
    && MovesLeft(StoryOf(s.history, s.workers[w].id), s.workers[w].stage)
  }

  /** The story of `id` is well told and agrees with the record of `key` and with worker `w`. */
  ghost predicate StillTold(s: State, w: nat, key: string, id: string) {
    && WellTold(StoryOf(s.history, id)) && key in s.table && Agrees(StoryOf(s.history, id), s.table[key])
    && (w in s.workers ==> MovesLeft(StoryOf(s.history, id), s.workers[w].stage))
  }

  lemma CollectTells(s: State, w: nat, bundle: Bundle)
    requires HolderTelling(s, w) && s.workers[w].stage.Collecting?
    ensures StillTold(Next(s, CollectEvidence(w, bundle)), w, s.workers[w].key, s.workers[w].id)
  {
    var wk := s.workers[w];
    CollectedStory(StoryOf(s.history, wk.id), s.table[wk.key], bundle);
  }

  lemma DecideTells(s: State, w: nat, pod: string, verdict: Verdict)
    requires HolderTelling(s, w) && s.workers[w].stage.Deciding?
    ensures StillTold(Next(s, Decide(w, pod, verdict)), w, s.workers[w].key, s.workers[w].id)
  {
    var wk := s.workers[w];
    DecidedStory(StoryOf(s.history, wk.id), s.table[wk.key], wk, pod, verdict);
  }

  lemma EndTells(s: State, w: nat, now: Time)
    requires HolderTelling(s, w) && s.workers[w].stage.Ending?
    ensures StillTold(Next(s, EndAttempt(w, now)), w, s.workers[w].key, s.workers[w].id)
  {
    var wk := s.workers[w];
    EndedStory(StoryOf(s.history, wk.id), s.table[wk.key], wk, now);
  }

  /** What one step does to the story of its own incident, seen from its record alone. */
  lemma StepStory(s: State, step: Step, w: nat)
    requires Enabled(s, step) && !step.BeginAttempt? && !step.OutsideEdit? && step.w == w && HolderTelling(s, w)
    ensures StillTold(Next(s, step), w, s.workers[w].key, s.workers[w].id)
  {
    match step
    case CollectEvidence(_, bundle) => CollectTells(s, w, bundle);
    case Decide(_, pod, verdict) => DecideTells(s, w, pod, verdict);
    case EndAttempt(_, now) => EndTells(s, w, now);
    case _ =>
  }

  lemma CollectedStory(st: Story, r: Record, bundle: Bundle)
    requires WellTold(st) && Agrees(st, r) && r.evidence == None
    ensures var st' := Extend(st, Collected(r.id, bundle));
            WellTold(st') && Agrees(st', Frozen(r, bundle))
  {
  }

  lemma DecidedStory(st: Story, r: Record, wk: Worker, pod: string, verdict: Verdict)
    requires WellTold(st) && Agrees(st, r) && r.id == wk.id && r.inFlight && r.attemptCount < MAX_ATTEMPTS
    requires wk.stage.Deciding? && r.evidence == Some(wk.stage.bundle)
    ensures var judged := Extend(st, Classified(wk.key, wk.id, wk.stage.bundle, pod, verdict));
            && WellTold(judged) && Agrees(judged, r)
            && var sent := Extend(judged, Dispatch(wk.key, wk.id, r.attemptCount + 1));
               WellTold(sent) && Agrees(sent, Counted(r)) && MovesLeft(sent, Running(r.attemptCount + 1, 0))
  {
    UpToGrows(r.attemptCount);
  }

  lemma EndedStory(st: Story, r: Record, wk: Worker, now: Time)
    requires WellTold(st) && Agrees(st, r) && r.id == wk.id && r.inFlight && r.terminalOutcome == Unset
        && wk.stage.Ending?
    requires AttemptOf(r.attemptCount, wk.stage)
    ensures var st' := Extend(st, Ended(wk.key, wk.id, wk.stage.outcome, now));
            WellTold(st') && Agrees(st', Released(r, wk.stage.outcome, now))
  {
  }

  lemma OtherStories(s: State, step: Step, w: nat, id: string)
    requires Enabled(s, step) && !step.BeginAttempt? && !step.OutsideEdit? && step.w == w && HoldsNow(s, w)
    requires id != s.workers[w].id
    ensures StoryOf(Next(s, step).history, id) == StoryOf(s.history, id)
  {
  }

  /** A worker without a claim can at most add an audit line. */
  lemma CloserStory(s: State, step: Step, id: string)
    requires Enabled(s, step) && step.CloseIncident?
    ensures SameButLines(StoryOf(Next(s, step).history, id), StoryOf(s.history, id))
  {
  }

  predicate SameButLines(st': Story, st: Story) {
    st' == st.(lines := st'.lines)
  }

  /** A look that is not skipped is told in the history. */
  predicate EnteredHistory(s: State, s': State, key: string, r: Record, admission: Admission, now: Time) {
    s'.history == if admission == Skip then s.history
                  else Then(if admission == Proceed then Claim(key, r.id, now, r.attemptCount) else Spent(key, r.id),
                      s.history)
  }

  ghost predicate RecordTold(s: State, key: string)
    requires key in s.table
  {
    WellTold(StoryOf(s.history, s.table[key].id)) && Agrees(StoryOf(s.history, s.table[key].id), s.table[key])
  }

  /** The same for a look at `key`. */
  lemma EnterStory(s: State, w: nat, key: string, generation: int, now: Time, id: string)
    requires id !in s.used && StoryOf(s.history, id) == BLANK
    requires key in s.table ==> RecordSound(s.table[key]) && s.table[key].id in s.used && RecordTold(s, key)
    ensures var s' := Enter(s, w, key, generation, now, id);
            && key in s'.table && RecordTold(s', key)
            && forall other | other != s'.table[key].id :: StoryOf(s'.history, other) == StoryOf(s.history, other)
  {
    var (r, admission) := Admit(Lookup(s.table, key), generation, now, id);
    AdmitCases(Lookup(s.table, key), generation, now, id);
    AdmitSound(Lookup(s.table, key), generation, now, id);
    EnteredStory(s, Enter(s, w, key, generation, now, id), key, generation, now, id, r, admission);
  }

  lemma EnteredStory(s: State, s': State, key: string, generation: int, now: Time, id: string, r: Record,
      admission: Admission)
    requires id !in s.used && StoryOf(s.history, id) == BLANK
    requires key in s.table ==> RecordSound(s.table[key]) && s.table[key].id in s.used && RecordTold(s, key)
    requires s'.table == s.table[key := r] && EnteredHistory(s, s', key, r, admission, now)
    requires Explained(Lookup(s.table, key), generation, now, id, r, admission)
        && Admissible(Lookup(s.table, key), id, r, admission)
    ensures key in s'.table && RecordTold(s', key)
    ensures forall other | other != s'.table[key].id :: StoryOf(s'.history, other) == StoryOf(s.history, other)
  {
    if admission != Skip {
      if r.id == id {
        FirstClaimStory(key, r, now, generation);
      } else {
        NextLookStory(key, StoryOf(s.history, r.id), s.table[key], r, admission, now);
      }
    }
  }

  lemma FirstClaimStory(key: string, r: Record, now: Time, generation: int)
    requires r == NewRecord(r.id, now).(generation := generation, inFlight := true)
    ensures var st := Extend(BLANK, Claim(key, r.id, now, 0));
            WellTold(st) && Agrees(st, r)
  {
    assert UpTo(0) == [];
  }

  lemma NextLookStory(key: string, st: Story, before: Record, r: Record, admission: Admission, now: Time)
    requires WellTold(st) && Agrees(st, before) && RecordSound(before) && !before.inFlight
        && before.terminalOutcome == Unset
    requires admission != Skip
    requires admission == Proceed ==>
               && before.attemptCount < MAX_ATTEMPTS && r == before.(generation := r.generation, inFlight := true)
               && (before.attemptCount > 0 ==> now - before.lastAttemptAt >= AttemptBackoff(before.attemptCount))
    requires admission == BudgetSpent ==>
               && before.attemptCount >= MAX_ATTEMPTS
               && r == before.(generation := r.generation, terminalOutcome := Exhausted, terminalAt := r.terminalAt)
    ensures var st' := Extend(st, if admission == Proceed then Claim(key, r.id, now, r.attemptCount)
        else Spent(key, r.id));
            WellTold(st') && Agrees(st', r)
  {
  }

  lemma NextTold(s: State, step: Step)
    requires Sound(s) && Told(s)
    ensures Told(Next(s, step))
  {
    if Enabled(s, step) && !step.OutsideEdit? {
      if step.BeginAttempt? {
        EnterTold(s, step.w, step.key, step.generation, step.now, step.id);
      } else if HoldsNow(s, step.w) {
        HolderTold(s, step, step.w);
      } else {
        CloserTold(s, step);
      }
    }
  }

  lemma CloserTold(s: State, step: Step)
    requires Sound(s) && Told(s) && Enabled(s, step) && step.CloseIncident?
    ensures Told(Next(s, step))
  {
    var s' := Next(s, step);
    forall id ensures SameButLines(StoryOf(s'.history, id), StoryOf(s.history, id)) {
      CloserStory(s, step, id);
    }
    forall id | id !in s'.used ensures StoryOf(s'.history, id) == BLANK {
      assert LineFor(s.table, s.workers[step.w].key).Some? ==> LineFor(s.table, s.workers[step.w].key).value.id != id;
    }
    LinesTold(s, s');
  }

  /** Audit lines do not make a story worse told. */
  lemma LinesTold(s: State, s': State)
    requires Told(s) && s'.table == s.table
    requires forall w <- s'.workers :: w in s.workers && s'.workers[w] == s.workers[w]
    requires forall id :: SameButLines(StoryOf(s'.history, id), StoryOf(s.history, id))
    requires forall id | id !in s'.used :: StoryOf(s'.history, id) == BLANK
    ensures Told(s')
  {
    forall id ensures WellTold(StoryOf(s'.history, id)) {
      assert SameButLines(StoryOf(s'.history, id), StoryOf(s.history, id));
    }
  }

  /** A local step that tells its own incident's story well tells every story well. */
  lemma LocalTold(s: State, s': State, w: nat, key: string)
    requires Told(s) && RecordsSound(s) && RecordsSound(s') && Local(s, s', w, key) && key in s'.table
    requires WellTold(StoryOf(s'.history, s'.table[key].id)) && Agrees(StoryOf(s'.history, s'.table[key].id),
        s'.table[key])
    requires forall id | id != s'.table[key].id :: StoryOf(s'.history, id) == StoryOf(s.history, id)
    requires forall v <- s'.workers | s'.workers[v].id == s'.table[key].id ::
        MovesLeft(StoryOf(s'.history, s'.workers[v].id), s'.workers[v].stage)
    requires w in s'.workers ==> s'.workers[w].id == s'.table[key].id
    ensures Told(s')
  {
    forall k <- s'.table | k != key ensures Agrees(StoryOf(s'.history, s'.table[k].id), s'.table[k]) {
      assert Lookup(s'.table, k) == Lookup(s.table, k);
    }
  }

  lemma HolderTold(s: State, step: Step, w: nat)
    requires Sound(s) && Told(s) && HoldsNow(s, w)
    requires Enabled(s, step) && !step.BeginAttempt? && !step.OutsideEdit? && step.w == w
    ensures Told(Next(s, step))
  {
    var s', wk := Next(s, step), s.workers[w];
    StepStory(s, step, w);
    WorkerStep(s, step, w, wk.key);
    NextSound(s, step);
    forall id | id != wk.id ensures StoryOf(s'.history, id) == StoryOf(s.history, id) {
      OtherStories(s, step, w, id);
    }
    forall v <- s'.workers | s'.workers[v].id == wk.id
      ensures MovesLeft(StoryOf(s'.history, wk.id), s'.workers[v].stage)
    {
      assert s'.workers[v].stage.Running? ==> HolderMatches(s', s'.workers[v]) && v == w;
    }
    LocalTold(s, s', w, wk.key);
  }

  /** A look that finds an attempt running on its key is skipped. */
  lemma RunnersAreElsewhere(s: State, s': State, w: nat, key: string, admission: Admission, v: nat)
    requires Sound(s) && Told(s) && Sound(s') && w !in s.workers
    requires EnteredLocally(s, s', w, key, admission) && Starts(s, s', w, key, admission)
    requires v in s'.workers && s'.workers[v].id == s'.table[key].id
    ensures MovesLeft(StoryOf(s'.history, s'.workers[v].id), s'.workers[v].stage)
  {
    if s'.workers[v].stage.Running? {
      assert HolderMatches(s', s'.workers[v]) && HolderMatches(s, s.workers[v]);
      assert admission == Skip;
    }
  }

  /** The newcomer has its record's id and runs nothing yet; a skipped look tells nothing. */
  predicate Starts(s: State, s': State, w: nat, key: string, admission: Admission) {
    && key in s'.table && (admission == Skip ==> s'.history == s.history)
    && (w in s'.workers ==> s'.workers[w].id == s'.table[key].id && !s'.workers[w].stage.Running?)
  }

  lemma NewcomerStarts(s: State, w: nat, key: string, generation: int, now: Time, id: string)
    requires w !in s.workers
    ensures Starts(s, Enter(s, w, key, generation, now, id), w, key, Admit(Lookup(s.table, key), generation, now, id).1)
  {
  }

  lemma EnteredTold(s: State, s': State, w: nat, key: string, admission: Admission)
    requires Sound(s) && Told(s) && Sound(s') && w !in s.workers
    requires EnteredLocally(s, s', w, key, admission) && Starts(s, s', w, key, admission) && RecordTold(s', key)
    requires forall other | other != s'.table[key].id :: StoryOf(s'.history, other) == StoryOf(s.history, other)
    ensures Told(s')
  {
    forall v <- s'.workers | s'.workers[v].id == s'.table[key].id
      ensures MovesLeft(StoryOf(s'.history, s'.workers[v].id), s'.workers[v].stage)
    {
      RunnersAreElsewhere(s, s', w, key, admission, v);
    }
    LocalTold(s, s', w, key);
  }

  lemma EnterTold(s: State, w: nat, key: string, generation: int, now: Time, id: string)
    requires Sound(s) && Told(s) && w !in s.workers && id !in s.used
    ensures Told(Enter(s, w, key, generation, now, id))
  {
    EnterStory(s, w, key, generation, now, id);
    EnterLocal(s, w, key, generation, now, id);
    EnterSound(s, w, key, generation, now, id);
    NewcomerStarts(s, w, key, generation, now, id);
    EnteredTold(
      s, Enter(s, w, key, generation, now, id), w, key, Admit(Lookup(s.table, key), generation, now, id).1);
  }

  lemma {:induction false} RunTold(s: State, steps: seq<Step>)
    requires Sound(s) && Told(s)
    ensures Sound(Run(s, steps)) && Told(Run(s, steps))
    decreases |steps|
  {
    if steps != [] {
      NextSound(s, steps[0]);
      NextTold(s, steps[0]);
      RunTold(Next(s, steps[0]), steps[1..]);
    }
  }

  /** Every incident of every run: each claim is released once, attempts are numbered 1, 2, ... without a gap and
      there are at most three, each claim comes after the backoff from the end of the attempt before it, there is
      at most one end, an exhausted one only after exactly three attempts, one evidence bundle is seen by all its
      classifications, and its attempts move the Deployment's generation at most twice each, so at most six times. */
  lemma EveryIncidentIsWellTold(hasClassifier: bool, steps: seq<Step>, id: string)
    ensures WellTold(StoryOf(Run(Start(hasClassifier), steps).history, id))
  {
    RunTold(Start(hasClassifier), steps);
  }

  // --------------------------------------------------------------- the generation

  function MovesOn(h: History, key: string): nat {
    match h
    case Nothing => 0
    case Then(e, before) => MovesOn(before, key) + if e.Moved? && e.key == key then 1 else 0
  }

  function EditsOn(steps: seq<Step>, key: string): nat {
    if steps == [] then 0 else (if steps[0] == OutsideEdit(key) then 1 else 0) + EditsOn(steps[1..], key)
  }

  lemma GenerationStep(s: State, step: Step, key: string)
    ensures var s' := Next(s, step);
            LiveGeneration(s', key) - MovesOn(s'.history, key)
            == LiveGeneration(s, key) - MovesOn(s.history, key) + if step == OutsideEdit(key) then 1 else 0
  {
    match step
    case BeginAttempt(w, k, generation, now, id) =>
    case Decide(w, pod, verdict) =>
    case CloseIncident(w) =>
    case _ =>
  }

  /** A Deployment's generation is what outside edits and the told moves of its incidents made it. */
  lemma {:induction false} GenerationIsAccountedFor(s: State, steps: seq<Step>, key: string)
    ensures var s' := Run(s, steps);
            LiveGeneration(s', key) - LiveGeneration(s, key)
            == EditsOn(steps, key) + MovesOn(s'.history, key) - MovesOn(s.history, key)
    decreases |steps|
  {
    if steps != [] {
      GenerationStep(s, steps[0], key);
      GenerationIsAccountedFor(Next(s, steps[0]), steps[1..], key);
    }
  }
}
