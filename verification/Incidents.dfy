/** The per-Deployment incident record and the critical sections that change it, as functions on
    values. `IncidentManager` proves that the mutable records behave like these functions, and
    `Protocol` lets many workers interleave them. */
module Incidents {
  import opened Basics

  const MAX_ATTEMPTS: nat := 3
  const BACKOFF_BASE: Time := 30 * SECOND
  const COOLDOWN: Time := 5 * MINUTE

  /** Attempt and incident outcomes; `Unset` is the empty string of the source. */
  datatype Outcome = Unset | Recovered | RolledBack | Exhausted | Escalated | Rejected

  datatype Bundle = Bundle(logs: string, events: seq<string>)

  datatype Record = Record(
    id: string,
    attemptCount: nat,
    firstDetectedAt: Time,
    lastAttemptAt: Time,
    terminalOutcome: Outcome,
    terminalAt: Time,
    generation: int,
    inFlight: bool,
    evidence: Option<Bundle>)

  datatype Admission = Proceed | Skip | BudgetSpent

  type Table = map<string, Record>

  function Lookup(t: Table, key: string): Option<Record> {
    if key in t then Some(t[key]) else None
  }

  function IncidentKey(namespace: string, deployment: string): string {
    namespace + "/" + deployment
  }

  /** Outcomes after which the incident stays open for another attempt. */
  predicate LeavesOpen(outcome: Outcome) {
    outcome == Unset || outcome == RolledBack
  }

  function NewRecord(id: string, now: Time): Record {
    Record(id, 0, now, 0, Unset, 0, 0, false, None)
  }

  function AttemptBackoff(completed: nat): Time
    requires completed >= 1
  {
    ShiftLeft(BACKOFF_BASE, completed - 1)
  }

  /** A finished incident the next look drops: the generation moved, or its cooldown is over. */
  predicate Retired(r: Record, generation: int, now: Time) {
    && r.terminalOutcome != Unset
    && (generation != r.generation || (r.terminalOutcome != Exhausted && now - r.terminalAt >= COOLDOWN))
  }

  /** The record a look works on: the current one, or a new one when there is none or it has retired. */
  function Current(current: Option<Record>, generation: int, now: Time, freshId: string): Record {
    if current.None? || Retired(current.value, generation, now) then NewRecord(freshId, now) else current.value
  }

  /** The decision on an open record. */
  function Take(r: Record, generation: int, now: Time): (Record, Admission) {
    var seen := r.(generation := generation);
    if seen.inFlight then
      (seen, Skip)
    else if seen.attemptCount >= MAX_ATTEMPTS then
      (seen.(terminalOutcome := Exhausted, terminalAt := now), BudgetSpent)
    else if seen.attemptCount > 0 && now - seen.lastAttemptAt < AttemptBackoff(seen.attemptCount) then
      (seen, Skip)
    else
      (seen.(inFlight := true), Proceed)
  }

  /** `beginAttempt` on one key. */
  function Admit(current: Option<Record>, generation: int, now: Time, freshId: string): (Record, Admission) {
    if current.Some? && current.value.terminalOutcome != Unset && !Retired(current.value, generation, now) then
      (current.value, Skip)
    else
      Take(Current(current, generation, now, freshId), generation, now)
  }

  /** `recordAttempt` on a present record. */
  function Counted(r: Record): Record {
    r.(attemptCount := r.attemptCount + 1)
  }

  /** `endAttempt` on a present record. */
  function Released(r: Record, outcome: Outcome, now: Time): Record {
    if LeavesOpen(outcome) then r.(inFlight := false, lastAttemptAt := now)
    else r.(inFlight := false, terminalOutcome := outcome, terminalAt := now)
  }

  /** `freezeEvidence` on a present record. */
  function Frozen(r: Record, bundle: Bundle): Record {
    r.(evidence := Some(bundle))
  }

  /** The lock-held calls a worker can make for one key. */
  datatype Op =
    | Begin(generation: int, now: Time, freshId: string)
    | Count
    | Release(outcome: Outcome, now: Time)
    | Freeze(bundle: Bundle)
    | ReadEvidence
    | ReadClosure

  datatype Reply =
    | Admitted(id: string, admission: Admission)
    | Number(n: nat)
    | Done
    | Evidence(bundle: Option<Bundle>)
    | Closure(closed: Option<(string, Outcome, nat)>)

  function Apply(current: Option<Record>, op: Op): (Option<Record>, Reply) {
    match op
    case Begin(generation, now, freshId) =>
      var (r, admission) := Admit(current, generation, now, freshId);
      (Some(r), Admitted(r.id, admission))
    case Count =>
      if current.None? then (None, Number(0))
      else (Some(Counted(current.value)), Number(current.value.attemptCount + 1))
    case Release(outcome, now) =>
      (if current.None? then None else Some(Released(current.value, outcome, now)), Done)
    case Freeze(bundle) =>
      (if current.None? then None else Some(Frozen(current.value, bundle)), Done)
    case ReadEvidence =>
      (current, Evidence(if current.None? then None else current.value.evidence))
    case ReadClosure =>
      (current, Closure(ClosureOf(current)))
  }

  function ClosureOf(current: Option<Record>): Option<(string, Outcome, nat)> {
    if current.None? || current.value.terminalOutcome == Unset then None
    else Some((current.value.id, current.value.terminalOutcome, current.value.attemptCount))
  }

  function Store(t: Table, key: string, r: Option<Record>): Table {
    if r.Some? then t[key := r.value] else t
  }

  /** One lock-held call against the whole table. */
  function Perform(t: Table, key: string, op: Op): (Table, Reply) {
    var (r, reply) := Apply(Lookup(t, key), op);
    (Store(t, key, r), reply)
  }

  // ---------------------------------------------------------------- admission

  /** The two waits the budget allows are 30 and 60 seconds. */
  lemma BackoffValues()
    ensures AttemptBackoff(1) == 30 * SECOND && AttemptBackoff(2) == 60 * SECOND
  {
    assert ShiftLeft(BACKOFF_BASE, 1) == 2 * ShiftLeft(BACKOFF_BASE, 0);
  }

  /** The five answers of a look, told by what they mean for the record. */
  predicate Explained(current: Option<Record>, generation: int, now: Time, freshId: string, r: Record,
      admission: Admission) {
    && (current.None? || r.id != current.value.id ==>
          admission == Proceed && r == NewRecord(freshId, now).(generation := generation, inFlight := true))
    && (current.Some? && r.id == current.value.id && r.id != freshId ==>
          match admission
          case Skip => r == current.value.(generation := r.generation)
          case Proceed =>
            && !current.value.inFlight && current.value.terminalOutcome == Unset
            && current.value.attemptCount < MAX_ATTEMPTS
            && (current.value.attemptCount > 0 ==>
                  now - current.value.lastAttemptAt >= AttemptBackoff(current.value.attemptCount))
            && r == current.value.(generation := generation, inFlight := true)
          case BudgetSpent =>
            && !current.value.inFlight && current.value.terminalOutcome == Unset
            && current.value.attemptCount >= MAX_ATTEMPTS
            && r == current.value.(generation := generation, terminalOutcome := Exhausted, terminalAt := now))
  }

  lemma AdmitCases(current: Option<Record>, generation: int, now: Time, freshId: string)
    requires current.Some? ==> current.value.terminalOutcome != Unset ==> !current.value.inFlight
    ensures var (r, admission) := Admit(current, generation, now, freshId);
            Explained(current, generation, now, freshId, r, admission)
  {
  }

  /** Progress: five minutes after the last release a record that is neither in flight nor exhausted is
      always answered, with a claim or with the end of the budget. */
  lemma NeverSkippedForever(r: Record, generation: int, now: Time, freshId: string)
    requires !r.inFlight && r.terminalOutcome != Exhausted
    requires r.terminalOutcome == Unset ==> now - r.lastAttemptAt >= COOLDOWN
    requires r.terminalOutcome != Unset ==> now - r.terminalAt >= COOLDOWN
    ensures Admit(Some(r), generation, now, freshId).1 != Skip
    ensures Admit(Some(r), generation, now, freshId).1 == BudgetSpent
            <==> r.terminalOutcome == Unset && r.attemptCount >= MAX_ATTEMPTS
  {
    BackoffValues();
  }

  /** A finished incident is left alone exactly while its stored generation is the one observed and it is
      exhausted or still cooling down. Any other look opens a new incident, under the fresh id, and claims it. */
  lemma FinishedIncidentLook(r: Record, generation: int, now: Time, freshId: string)
    requires r.terminalOutcome != Unset && !r.inFlight
    ensures var quiet := generation == r.generation && (r.terminalOutcome == Exhausted
        || now - r.terminalAt < COOLDOWN);
            var (r', admission) := Admit(Some(r), generation, now, freshId);
            && (quiet ==> admission == Skip && r' == r)
            && (!quiet ==> admission == Proceed && r'.id == freshId && r'.attemptCount == 0 && r'.evidence == None)
  {
  }

  /** A failed generation read is passed on as 0. It does not leave an exhausted record alone: unless 0 is
      also what the record stores, the record is dropped and the Deployment is claimed again. */
  lemma FailedReadReopensExhausted(r: Record, now: Time, freshId: string)
    requires r.terminalOutcome == Exhausted && !r.inFlight
    ensures Admit(Some(r), 0, now, freshId).1 == Proceed <==> r.generation != 0
  {
    FinishedIncidentLook(r, 0, now, freshId);
  }

  /** Distinct Deployments have distinct keys as long as namespaces hold no slash. */
  lemma {:induction false} KeysAreInjective(n1: string, d1: string, n2: string, d2: string)
    requires '/' !in n1 && '/' !in n2
    requires IncidentKey(n1, d1) == IncidentKey(n2, d2)
    ensures n1 == n2 && d1 == d2
    decreases |n1|
  {
    var a, b := IncidentKey(n1, d1), IncidentKey(n2, d2);
    if n1 == [] || n2 == [] {
      assert a[0] == b[0];
      assert d1 == a[|n1| + 1..] && d2 == b[|n2| + 1..];
    } else {
      assert a[0] == n1[0] && b[0] == n2[0];
      assert a[1..] == IncidentKey(n1[1..], d1) && b[1..] == IncidentKey(n2[1..], d2);
      KeysAreInjective(n1[1..], d1, n2[1..], d2);
      assert n1 == [n1[0]] + n1[1..] && n2 == [n2[0]] + n2[1..];
    }
  }

  // ---------------------------------------------------------- non-interference

  type Call = (string, Op)

  /** A run of lock-held calls on many keys: the final table and the reply to each call on `key`. */
  function RunCalls(t: Table, calls: seq<Call>, key: string): (Table, seq<Reply>)
    decreases |calls|
  {
    if calls == [] then (t, [])
    else
      var (t', reply) := Perform(t, calls[0].0, calls[0].1);
      var (end, replies) := RunCalls(t', calls[1..], key);
      (end, (if calls[0].0 == key then [reply] else []) + replies)
  }

  function CallsOn(calls: seq<Call>, key: string): seq<Call>
    decreases |calls|
  {
    if calls == [] then []
    else (if calls[0].0 == key then [calls[0]] else []) + CallsOn(calls[1..], key)
  }

  lemma LooksAlike(t: Table, alone: Table, key: string, op: Op)
    requires Lookup(t, key) == Lookup(alone, key)
    ensures Lookup(Perform(t, key, op).0, key) == Lookup(Perform(alone, key, op).0, key)
    ensures Perform(t, key, op).1 == Perform(alone, key, op).1
  {
  }

  lemma LooksElsewhere(t: Table, k: string, op: Op, key: string)
    requires k != key
    ensures Lookup(Perform(t, k, op).0, key) == Lookup(t, key)
  {
  }

  /** Whatever other Deployments do in between, a key's record and every reply to it are those of running
      its own calls alone, starting from any table that agrees on that key. */
  lemma {:induction false} OtherKeysDoNotInterfere(t: Table, alone: Table, calls: seq<Call>, key: string)
    requires Lookup(t, key) == Lookup(alone, key)
    ensures Lookup(RunCalls(t, calls, key).0, key) == Lookup(RunCalls(alone, CallsOn(calls, key), key).0, key)
    ensures RunCalls(t, calls, key).1 == RunCalls(alone, CallsOn(calls, key), key).1
    decreases |calls|
  {
    if calls != [] {
      var (k, op) := calls[0];
      var t' := Perform(t, k, op).0;
      if k == key {
        var own := CallsOn(calls, key);
        assert own[0] == calls[0] && own[1..] == CallsOn(calls[1..], key);
        LooksAlike(t, alone, key, op);
        OtherKeysDoNotInterfere(t', Perform(alone, key, op).0, calls[1..], key);
      } else {
        assert CallsOn(calls, key) == CallsOn(calls[1..], key);
        assert RunCalls(t, calls, key).1 == RunCalls(t', calls[1..], key).1;
        LooksElsewhere(t, k, op, key);
        OtherKeysDoNotInterfere(t', alone, calls[1..], key);
      }
    }
  }
}
