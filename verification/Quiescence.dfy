/** An exhausted Deployment stays untouched, although the controller's own writes move its generation. */
module Quiescence {
  import opened Basics
  import opened Incidents
  import opened Protocol

  /** How many attempts were ever claimed on `key`. */
  function ClaimsOn(h: History, key: string): nat {
    match h
    case Nothing => 0
    case Then(e, before) => ClaimsOn(before, key) + if e.Claim? && e.key == key then 1 else 0
  }

  predicate LooksAt(s: State, step: Step, key: string) {
    Enabled(s, step) && step.BeginAttempt? && step.key == key
  }

  /** Every look at `key` in the run is told generation `g`. */
  ghost predicate AllObserve(s: State, steps: seq<Step>, key: string, g: int)
    decreases |steps|
  {
    steps != [] ==>
      && (LooksAt(s, steps[0], key) ==> steps[0].generation == g)
      && AllObserve(Next(s, steps[0]), steps[1..], key, g)
  }

  /** Every look at `key` reads the live generation in the same step, and nobody outside edits the Deployment. */
  ghost predicate FreshReadsOnly(s: State, steps: seq<Step>, key: string)
    decreases |steps|
  {
    steps != [] ==>
      && steps[0] != OutsideEdit(key)
      && (LooksAt(s, steps[0], key) ==> steps[0].generation == LiveGeneration(s, key))
      && FreshReadsOnly(Next(s, steps[0]), steps[1..], key)
  }

  /** The table holds the finished record `r`. */
  predicate Finished(s: State, key: string, r: Record) {
    key in s.table && s.table[key] == r && r.terminalOutcome != Unset
  }

  /** A look that finds `r` still in force: its generation is observed, and it is exhausted or cooling down. */
  predicate FindsInForce(r: Record, look: Step)
    requires look.BeginAttempt?
  {
    look.generation == r.generation && (r.terminalOutcome == Exhausted || look.now - r.terminalAt < COOLDOWN)
  }

  /** Every look at `key` in the run finds `r` in force. */
  ghost predicate AllFindInForce(s: State, steps: seq<Step>, key: string, r: Record)
    decreases |steps|
  {
    steps != [] ==>
      && (LooksAt(s, steps[0], key) ==> FindsInForce(r, steps[0]))
      && AllFindInForce(Next(s, steps[0]), steps[1..], key, r)
  }

  ghost predicate SomeLook(s: State, steps: seq<Step>, key: string)
    decreases |steps|
  {
    steps != [] && (LooksAt(s, steps[0], key) || SomeLook(Next(s, steps[0]), steps[1..], key))
  }

  /** Every look at `key` in the run comes before `end`. */
  ghost predicate AllLookBefore(s: State, steps: seq<Step>, key: string, end: Time)
    decreases |steps|
  {
    steps != [] ==>
      && (LooksAt(s, steps[0], key) ==> steps[0].now < end)
      && AllLookBefore(Next(s, steps[0]), steps[1..], key, end)
  }

  /** A look at another key. */
  lemma LookElsewhere(s: State, look: Step, key: string, r: Record)
    requires Finished(s, key, r) && Enabled(s, look) && look.BeginAttempt? && look.key != key
    ensures var s' := Next(s, look);
            && Finished(s', key, r) && ClaimsOn(s'.history, key) == ClaimsOn(s.history, key)
            && LiveGeneration(s', key) == LiveGeneration(s, key)
  {
  }

  lemma LookAtFinished(s: State, look: Step, key: string, r: Record)
    requires Sound(s) && Finished(s, key, r) && LooksAt(s, look, key)
    ensures var s' := Next(s, look);
            && LiveGeneration(s', key) == LiveGeneration(s, key)
            && (FindsInForce(r, look) ==>
                  Finished(s', key, r) && ClaimsOn(s'.history, key) == ClaimsOn(s.history, key))
            && (!FindsInForce(r, look) ==> ClaimsOn(s'.history, key) == ClaimsOn(s.history, key) + 1)
  {
    FinishedIncidentLook(s.table[key], look.generation, look.now, look.id);
  }

  /** One step of anybody on a key with a finished record. */
  lemma FinishedStep(s: State, step: Step, key: string, r: Record)
    requires Sound(s) && Finished(s, key, r)
    ensures var s' := Next(s, step);
            var looked := LooksAt(s, step, key);
            && (!looked || FindsInForce(r, step) ==>
                  Finished(s', key, r) && ClaimsOn(s'.history, key) == ClaimsOn(s.history, key))
            && (looked && !FindsInForce(r, step) ==> ClaimsOn(s'.history, key) == ClaimsOn(s.history, key) + 1)
            && (step != OutsideEdit(key) ==> LiveGeneration(s', key) == LiveGeneration(s, key))
  {
    if LooksAt(s, step, key) {
      LookAtFinished(s, step, key, r);
    } else if Enabled(s, step) && step.BeginAttempt? {
      LookElsewhere(s, step, key, r);
    } else if Enabled(s, step) && !step.OutsideEdit? {
      var wk := s.workers[step.w];
      assert Holds(wk) ==> HolderMatches(s, wk);
      WorkerElsewhere(s, step, wk, key, r);
    }
  }

  /** A worker who holds another key, or nothing, leaves a finished record alone. */
  lemma WorkerElsewhere(s: State, step: Step, wk: Worker, key: string, r: Record)
    requires Enabled(s, step) && !step.BeginAttempt? && !step.OutsideEdit? && wk == s.workers[step.w]
    requires Finished(s, key, r) && (Holds(wk) ==> wk.key != key)
    ensures var s' := Next(s, step);
            && Finished(s', key, r) && ClaimsOn(s'.history, key) == ClaimsOn(s.history, key)
            && LiveGeneration(s', key) == LiveGeneration(s, key)
  {
  }

  lemma {:induction false} ClaimsOnlyGrow(s: State, steps: seq<Step>, key: string)
    ensures ClaimsOn(Run(s, steps).history, key) >= ClaimsOn(s.history, key)
    decreases |steps|
  {
    if steps != [] {
      HistoryGrows(s, steps[0]);
      assert ClaimsOn(Next(s, steps[0]).history, key) >= ClaimsOn(s.history, key);
      ClaimsOnlyGrow(Next(s, steps[0]), steps[1..], key);
    }
  }

  /** In every continuation of a finished incident, no attempt is claimed exactly when every look finds its record
      in force. */
  lemma {:induction false} SilentIffInForce(s: State, steps: seq<Step>, key: string, r: Record)
    requires Sound(s) && Finished(s, key, r)
    ensures ClaimsOn(Run(s, steps).history, key) == ClaimsOn(s.history, key) <==> AllFindInForce(s, steps, key, r)
    decreases |steps|
  {
    if steps != [] {
      var s' := Next(s, steps[0]);
      FinishedStep(s, steps[0], key, r);
      if LooksAt(s, steps[0], key) && !FindsInForce(r, steps[0]) {
        ClaimsOnlyGrow(s', steps[1..], key);
      } else {
        NextSound(s, steps[0]);
        SilentIffInForce(s', steps[1..], key, r);
      }
    }
  }

  predicate GivenUp(s: State, key: string, g: int) {
    key in s.table && s.table[key].terminalOutcome == Exhausted && s.table[key].generation == g
  }

  lemma {:induction false} ExhaustedStaysInForce(s: State, steps: seq<Step>, key: string, r: Record)
    requires r.terminalOutcome == Exhausted
    ensures AllFindInForce(s, steps, key, r) <==> AllObserve(s, steps, key, r.generation)
    decreases |steps|
  {
    if steps != [] {
      ExhaustedStaysInForce(Next(s, steps[0]), steps[1..], key, r);
    }
  }

  /** In every continuation of an exhausted incident, no attempt is claimed exactly when every look is told the
      generation the record stored. */
  lemma SilentIffGenerationUnseen(s: State, steps: seq<Step>, key: string, g: int)
    requires Sound(s) && GivenUp(s, key, g)
    ensures ClaimsOn(Run(s, steps).history, key) == ClaimsOn(s.history, key) <==> AllObserve(s, steps, key, g)
  {
    SilentIffInForce(s, steps, key, s.table[key]);
    ExhaustedStaysInForce(s, steps, key, s.table[key]);
  }

  /** While nothing is claimed and nobody outside edits, fresh looks see one generation: they find an exhausted or
      cooling record in force exactly when it stored that one. */
  lemma {:induction false} FreshLooksFind(s: State, steps: seq<Step>, key: string, r: Record)
    requires Sound(s) && Finished(s, key, r) && FreshReadsOnly(s, steps, key)
    requires r.terminalOutcome == Exhausted || AllLookBefore(s, steps, key, r.terminalAt + COOLDOWN)
    ensures AllFindInForce(s, steps, key, r) <==> !SomeLook(s, steps, key) || r.generation == LiveGeneration(s, key)
    decreases |steps|
  {
    if steps != [] {
      FinishedStep(s, steps[0], key, r);
      if !LooksAt(s, steps[0], key) || FindsInForce(r, steps[0]) {
        NextSound(s, steps[0]);
        FreshLooksFind(Next(s, steps[0]), steps[1..], key, r);
      }
    }
  }

  predicate SpendsBudget(s: State, look: Step, key: string) {
    && LooksAt(s, look, key)
    && Admit(Lookup(s.table, key), look.generation, look.now, look.id).1 == BudgetSpent
  }

  /** What such a look leaves. */
  lemma BudgetSpentBy(s: State, look: Step, key: string)
    requires SpendsBudget(s, look, key)
    ensures var s' := Next(s, look);
            && GivenUp(s', key, look.generation) && LiveGeneration(s', key) == LiveGeneration(s, key)
            && ClaimsOn(s'.history, key) == ClaimsOn(s.history, key)
  {
    AdmitCases(Lookup(s.table, key), look.generation, look.now, look.id);
  }

  /** Quiescence: when the generation is read together with the look that exhausts the budget, nothing is
      claimed on that Deployment in any continuation without an outside edit, however often the attempts
      before had rewritten its spec. */
  lemma QuietUntilOutsideEdit(s: State, look: Step, steps: seq<Step>, key: string)
    requires Sound(s) && SpendsBudget(s, look, key) && look.generation == LiveGeneration(s, key)
    requires FreshReadsOnly(Next(s, look), steps, key)
    ensures ClaimsOn(Run(Next(s, look), steps).history, key) == ClaimsOn(s.history, key)
  {
    var s' := Next(s, look);
    NextSound(s, look);
    BudgetSpentBy(s, look, key);
    FreshLooksFind(s', steps, key, s'.table[key]);
    SilentIffInForce(s', steps, key, s'.table[key]);
  }

  /** Read apart from the look, the generation may be stale: the next fresh look then claims the Deployment
      again with no outside edit at all, and only then. */
  lemma StaleReadReopens(s: State, look: Step, again: Step, key: string)
    requires Sound(s) && SpendsBudget(s, look, key)
    requires LooksAt(Next(s, look), again, key) && again.generation == LiveGeneration(s, key)
    ensures ClaimsOn(Next(Next(s, look), again).history, key) > ClaimsOn(s.history, key) <==>
        look.generation != LiveGeneration(s, key)
  {
    NextSound(s, look);
    BudgetSpentBy(s, look, key);
    FinishedStep(Next(s, look), again, key, Next(s, look).table[key]);
  }

  /** An outside edit ends the silence at the next fresh look. */
  lemma OutsideEditReopens(s: State, look: Step, key: string)
    requires Sound(s) && GivenUp(s, key, LiveGeneration(s, key))
    requires var edited := Next(s, OutsideEdit(key));
             LooksAt(edited, look, key) && look.generation == LiveGeneration(edited, key)
    ensures ClaimsOn(Next(Next(s, OutsideEdit(key)), look).history, key) == ClaimsOn(s.history, key) + 1
  {
    var edited := Next(s, OutsideEdit(key));
    NextSound(s, OutsideEdit(key));
    FinishedStep(edited, look, key, s.table[key]);
  }

  // ---------------------------------------------------------------- the cooldown

  /** Worker `w` is about to end its incident. */
  predicate EndsIncident(s: State, w: nat) {
    w in s.workers && s.workers[w].stage.Ending? && !LeavesOpen(s.workers[w].stage.outcome)
  }

  /** endAttempt ends the incident but does not refresh the stored generation. */
  lemma EndedRecord(s: State, w: nat, ended: Time)
    requires Sound(s) && EndsIncident(s, w)
    ensures var s', key := Next(s, EndAttempt(w, ended)), s.workers[w].key;
            && key in s.table && key in s'.table && Finished(s', key, s'.table[key])
            && s'.table[key].terminalAt == ended && s'.table[key].generation == s.table[key].generation
            && LiveGeneration(s', key) == LiveGeneration(s, key)
  {
    assert HolderMatches(s, s.workers[w]);
  }

  /** Within the cooldown of an incident ended as recovered, escalated or rejected, fresh looks and no outside edit
      leave the Deployment alone exactly when the generation stored at that moment is the live one. What is stored
      is what the last look was told, be it the claiming one or one that was skipped since. */
  lemma CooldownHoldsIffGenerationStored(s: State, w: nat, ended: Time, steps: seq<Step>)
    requires Sound(s) && EndsIncident(s, w)
    requires var s', key := Next(s, EndAttempt(w, ended)), s.workers[w].key;
             && FreshReadsOnly(s', steps, key) && SomeLook(s', steps, key)
             && AllLookBefore(s', steps, key, ended + COOLDOWN)
    ensures var s', key := Next(s, EndAttempt(w, ended)), s.workers[w].key;
            && key in s.table
            && (ClaimsOn(Run(s', steps).history, key) == ClaimsOn(s'.history, key)
                <==> s.table[key].generation == LiveGeneration(s, key))
  {
    var s', key := Next(s, EndAttempt(w, ended)), s.workers[w].key;
    NextSound(s, EndAttempt(w, ended));
    EndedRecord(s, w, ended);
    FreshLooksFind(s', steps, key, s'.table[key]);
    SilentIffInForce(s', steps, key, s'.table[key]);
  }

  /** A look at a Deployment whose attempt is in flight is skipped, and stores the generation it was told. */
  lemma SkippedLookRefreshes(s: State, w: nat, look: Step)
    requires Sound(s) && HoldsNow(s, w) && LooksAt(s, look, s.workers[w].key)
    ensures var s', key := Next(s, look), s.workers[w].key;
            && key in s.table && s' == s.(table := s'.table, used := s'.used)
            && s'.table == s.table[key := s.table[key].(generation := look.generation)]
  {
    assert HolderMatches(s, s.workers[w]);
  }

  /** Worker `w` writes the spec, then perhaps somebody looks, then its attempt reports a recovery. */
  function WriteAndRecover(s: State, w: nat, meanwhile: Option<Step>): State {
    var written := Next(s, WriteSpec(w));
    Next(if meanwhile.Some? then Next(written, meanwhile.value) else written, FinishRemediate(w, Recovered))
  }

  predicate FreshLook(s: State, look: Step, key: string) {
    LooksAt(s, look, key) && look.generation == LiveGeneration(s, key)
  }

  lemma AfterWriteAndRecover(s: State, w: nat, meanwhile: Option<Step>)
    requires Sound(s) && w in s.workers && Enabled(s, WriteSpec(w))
    requires meanwhile.Some? ==> FreshLook(Next(s, WriteSpec(w)), meanwhile.value, s.workers[w].key)
    ensures var s', key := WriteAndRecover(s, w, meanwhile), s.workers[w].key;
            && Sound(s') && EndsIncident(s', w) && s'.workers[w].key == key && key in s.table && key in s'.table
            && LiveGeneration(s', key) == LiveGeneration(s, key) + 1
            && s'.table[key].generation == if meanwhile.Some? then LiveGeneration(s, key) + 1
                                           else s.table[key].generation
  {
    var written := Next(s, WriteSpec(w));
    assert HolderMatches(s, s.workers[w]);
    NextSound(s, WriteSpec(w));
    if meanwhile.Some? {
      SkippedLookRefreshes(written, w, meanwhile.value);
      NextSound(written, meanwhile.value);
    }
    Recovering(if meanwhile.Some? then Next(written, meanwhile.value) else written, w);
  }

  /** The report of a recovery concerns the worker alone. */
  lemma Recovering(s: State, w: nat)
    requires Sound(s) && w in s.workers && s.workers[w].stage.Running?
    ensures var s' := Next(s, FinishRemediate(w, Recovered));
            && Sound(s') && EndsIncident(s', w) && s'.workers[w].key == s.workers[w].key
            && s'.table == s.table && s'.generation == s.generation
  {
    NextSound(s, FinishRemediate(w, Recovered));
  }

  /** So an attempt that rewrites the spec and recovers, on a Deployment whose stored generation was fresh, keeps its
      cooldown exactly when a look was skipped between the write and the end. */
  lemma OwnWriteEndsCooldownIffUnseen(s: State, w: nat, meanwhile: Option<Step>, ended: Time, steps: seq<Step>)
    requires Sound(s) && w in s.workers && Enabled(s, WriteSpec(w))
    requires meanwhile.Some? ==> FreshLook(Next(s, WriteSpec(w)), meanwhile.value, s.workers[w].key)
    requires s.workers[w].key in s.table
        && s.table[s.workers[w].key].generation == LiveGeneration(s, s.workers[w].key)
    requires var s', key := Next(WriteAndRecover(s, w, meanwhile), EndAttempt(w, ended)), s.workers[w].key;
             && FreshReadsOnly(s', steps, key) && SomeLook(s', steps, key)
             && AllLookBefore(s', steps, key, ended + COOLDOWN)
    ensures var s', key := Next(WriteAndRecover(s, w, meanwhile), EndAttempt(w, ended)), s.workers[w].key;
            ClaimsOn(Run(s', steps).history, key) > ClaimsOn(s'.history, key) <==> meanwhile == None
  {
    var recovered := WriteAndRecover(s, w, meanwhile);
    AfterWriteAndRecover(s, w, meanwhile);
    CooldownHoldsIffGenerationStored(recovered, w, ended, steps);
    ClaimsOnlyGrow(Next(recovered, EndAttempt(w, ended)), steps, s.workers[w].key);
  }
}
