/** One remediation attempt as seen from outside: what it asks for and in which order, what it writes to the audit
    log, how it ends and why, all told from the world it meets. */
module Attempts {
  import opened Basics
  import opened Cluster
  import opened Actions
  import L = Lifecycle
  import V = Verifier
  import R = Resolver
  import S = Snapshots

  datatype OutcomeResult = Recovered | RolledBack

  datatype AuditEntry = AuditEntry(
    incidentId: string, attempt: int, timestamp: Time, pod: Ref, stage: L.Stage, action: string, result: string)

  datatype Outcome = Outcome(result: OutcomeResult, mttr: Time, auditEntries: seq<AuditEntry>)

  datatype RemediateError =
    | InvalidEvent | AuditFailed | IllegalTransition | CaptureFailed | UidsFailed | ExecuteFailed
    | VerifyFailed | RestoreFailed

  function ErrorOf<T>(r: Result<T, RemediateError>): Option<RemediateError> {
    if r.Ok? then None else Some(r.error)
  }

  /** What an attempt depends on and cannot change. */
  datatype Setting = Setting(
    others: Others, fails: nat -> bool, refuses: nat -> bool, lag: nat -> nat, cancelled: nat -> bool,
    action: Action, config: V.Config)

  /** Where the cluster, the audit log and the clock stand. */
  datatype Moment = Moment(state: State, calls: nat, appends: nat, now: Time, readings: nat)

  predicate ValidEvent(e: DetectionEvent) {
    && e.podName != "" && e.namespace != "" && e.container != "" && e.restartCount >= 0 && e.ownerDeployment != ""
    && e.timestamp.Some? && e.incidentId != "" && e.attempt >= 1
  }

  function DeploymentOf(e: DetectionEvent): Ref {
    Ref(e.namespace, e.ownerDeployment)
  }

  // ----------------------------------------------------------------- audit entries

  predicate Carries(entry: AuditEntry, e: DetectionEvent) {
    entry.incidentId == e.incidentId && entry.attempt == e.attempt && entry.pod == Ref(e.namespace, e.podName)
  }

  /** The entries of one attempt, in the order of `stages`, each with the event's identity. */
  predicate Follows(written: seq<AuditEntry>, e: DetectionEvent, stages: seq<L.Stage>) {
    |written| <= |stages| && forall i | 0 <= i < |written| :: written[i].stage == stages[i] && Carries(written[i], e)
  }

  lemma FollowsGrows(written: seq<AuditEntry>, e: DetectionEvent, stages: seq<L.Stage>, entry: AuditEntry)
    requires Follows(written, e, stages) && |written| < |stages|
    requires entry.stage == stages[|written|] && Carries(entry, e)
    ensures Follows(written + [entry], e, stages)
  {
  }

  /** Up to the start of the verification the two lifecycles agree. */
  lemma PreparationIsCommon(written: seq<AuditEntry>, e: DetectionEvent)
    requires Follows(written, e, L.RECOVERY) && |written| <= 4
    ensures Follows(written, e, L.ROLLBACK)
  {
  }

  // ------------------------------------------------------------ what is asked for

  /** The calls made by the action and by the restore, and the reads of the verification. */
  datatype Course = Course(act: seq<Event>, polls: nat, pod: Ref, gets: nat, recovered: bool, restore: seq<Event>)

  /** Before the action: the snapshot is taken. */
  function Opening(e: DetectionEvent): seq<Event> {
    [Noted(L.Detected), ReadDeployment(DeploymentOf(e)), Noted(L.Snapshotted), Noted(L.Remediating)]
  }

  /** The UIDs are captured, then the action runs. */
  function Acting(e: DetectionEvent, act: seq<Event>): seq<Event> {
    [ReadOwnedPods(DeploymentOf(e))] + act + [Noted(L.Verifying)]
  }

  function Checking(e: DetectionEvent, c: Course): seq<Event> {
    VerificationReads(DeploymentOf(e), c.polls, c.pod, c.gets)
  }

  /** A recovery is noted; otherwise the snapshot is restored. */
  function Closing(c: Course): seq<Event> {
    if c.recovered then [Noted(L.Recovered), Noted(L.Logged)]
    else [Noted(L.RollingBack)] + c.restore + [Noted(L.RolledBack), Noted(L.Logged)]
  }

  /** The lifecycle an attempt goes through. */
  function StagesOf(c: Course): seq<L.Stage> {
    if c.recovered then L.RECOVERY else L.ROLLBACK
  }

  function Script(e: DetectionEvent, c: Course): seq<Event> {
    Opening(e) + (Acting(e, c.act) + (Checking(e, c) + Closing(c)))
  }

  /** The action's own calls and a restore's own calls, each at most once. */
  predicate IsCourse(c: Course, a: Action, e: DetectionEvent) {
    IsExecution(c.act, a, e) && S.IsRestore(c.restore, DeploymentOf(e))
  }

  /** An attempt asks for the beginning of its script: all of it when it succeeds, otherwise up to and including
      what failed. */
  predicate IsTrail(made: seq<Event>, e: DetectionEvent, c: Course, error: Option<RemediateError>) {
    && made <= Script(e, c)
    && match error
       case None => |made| == |Script(e, c)|
       case Some(InvalidEvent) => made == []
       case Some(AuditFailed) => made != [] && made[|made| - 1].Noted?
       case Some(IllegalTransition) => false
       case Some(CaptureFailed) => |made| == 2
       case Some(UidsFailed) => |made| == 5
       case Some(ExecuteFailed) => |made| == 5 + |c.act|
       case Some(VerifyFailed) => |made| == 6 + |c.act| + c.polls + c.gets
       case Some(RestoreFailed) => |made| == 7 + |c.act| + c.polls + c.gets + |c.restore|
  }

  predicate IsWrite(ev: Event) {
    ev.WroteSpec? || ev.DeletedPod?
  }

  /** Where the restore begins in the script. */
  function RestoreStart(c: Course): nat {
    7 + |c.act| + c.polls + c.gets
  }

  /** Every write of an attempt is the last call of its one execution, made after the snapshot was read and the
      UIDs were captured, or the last call of its one restore, made after a verification that did not recover. */
  lemma WritesHaveTheirPlace(made: seq<Event>, a: Action, e: DetectionEvent, c: Course,
      error: Option<RemediateError>, i: nat)
    requires IsTrail(made, e, c, error) && IsCourse(c, a, e) && i < |made|
    ensures IsWrite(made[i]) ==>
              && i > 4 && made[1] == ReadDeployment(DeploymentOf(e)) && made[4] == ReadOwnedPods(DeploymentOf(e))
              && (i == 4 + |c.act|
                  || (!c.recovered && error != Some(VerifyFailed) && i == RestoreStart(c) + |c.restore| - 1))
  {
    var script, rest := Script(e, c), Acting(e, c.act) + (Checking(e, c) + Closing(c));
    assert made[i] == script[i];
    assert script[1] == Opening(e)[1] && script[4] == rest[0];
    if i < 4 {
      assert script[i] == Opening(e)[i];
    } else if i < 6 + |c.act| {
      assert script[i] == rest[i - 4] == Acting(e, c.act)[i - 4];
      ActingWrites(a, e, c, i - 4);
    } else {
      assert script[i] == rest[i - 4] == (Checking(e, c) + Closing(c))[i - 6 - |c.act|];
      TailWrites(e, c, i - 6 - |c.act|);
    }
  }

  lemma ActingWrites(a: Action, e: DetectionEvent, c: Course, j: nat)
    requires IsExecution(c.act, a, e) && j < |Acting(e, c.act)|
    ensures IsWrite(Acting(e, c.act)[j]) ==> 1 <= j == |c.act|
  {
    assert 1 <= j <= |c.act| ==> Acting(e, c.act)[j] == c.act[j - 1];
  }

  lemma TailWrites(e: DetectionEvent, c: Course, j: nat)
    requires S.IsRestore(c.restore, DeploymentOf(e)) && j < |Checking(e, c) + Closing(c)|
    ensures IsWrite((Checking(e, c) + Closing(c))[j]) ==> !c.recovered && j == c.polls + c.gets + |c.restore|
  {
    var n := c.polls + c.gets;
    assert (Checking(e, c) + Closing(c))[j] == if j < n then Checking(e, c)[j] else Closing(c)[j - n];
  }

  // ------------------------------------------------------------ how it ends and why

  datatype Verdict = Undecided | Healthy | Unhealthy

  /** What decides how an attempt ends. */
  datatype Facts = Facts(captures: bool, knowsPods: bool, acts: bool, verdict: Verdict, restores: bool)

  function OpeningError(captures: bool, refuses: nat -> bool, k: nat): Option<RemediateError> {
    if refuses(k) then Some(AuditFailed)
    else if !captures then Some(CaptureFailed)
    else if refuses(k + 1) || refuses(k + 2) then Some(AuditFailed)
    else None
  }

  function ActingError(knowsPods: bool, acts: bool, refuses: nat -> bool, k: nat): Option<RemediateError> {
    if !knowsPods then Some(UidsFailed)
    else if !acts then Some(ExecuteFailed)
    else if refuses(k) then Some(AuditFailed)
    else None
  }

  function ClosingError(verdict: Verdict, restores: bool, refuses: nat -> bool, k: nat): Option<RemediateError> {
    match verdict
    case Undecided => Some(VerifyFailed)
    case Healthy => if refuses(k) || refuses(k + 1) then Some(AuditFailed) else None
    case Unhealthy => RollbackError(restores, refuses, k)
  }

  function RollbackError(restores: bool, refuses: nat -> bool, k: nat): Option<RemediateError> {
    if refuses(k) then Some(AuditFailed)
    else if !restores then Some(RestoreFailed)
    else if refuses(k + 1) || refuses(k + 2) then Some(AuditFailed)
    else None
  }

  /** The error before the verification begins. */
  function PreparationError(captures: bool, knowsPods: bool, acts: bool, refuses: nat -> bool,
      k: nat): Option<RemediateError> {
    if OpeningError(captures, refuses, k).Some? then OpeningError(captures, refuses, k)
    else ActingError(knowsPods, acts, refuses, k + 3)
  }

  /** The error of an attempt whose first audit append is number k, for each combination of facts. */
  function Ending(e: DetectionEvent, f: Facts, refuses: nat -> bool, k: nat): Option<RemediateError> {
    var early := PreparationError(f.captures, f.knowsPods, f.acts, refuses, k);
    if !ValidEvent(e) then Some(InvalidEvent)
    else if early.Some? then early
    else ClosingError(f.verdict, f.restores, refuses, k + 4)
  }

  // ------------------------------------------------------ how many entries are written

  /** Two states in a row, the second only when the first was written. */
  function PassedEntries(refuses: nat -> bool, k: nat): nat {
    if refuses(k) then 0 else if refuses(k + 1) then 1 else 2
  }

  function OpeningEntries(captures: bool, refuses: nat -> bool, k: nat): nat {
    if refuses(k) then 0 else if !captures then 1 else 1 + PassedEntries(refuses, k + 1)
  }

  function ActingEntries(knowsPods: bool, acts: bool, refuses: nat -> bool, k: nat): nat {
    if ActingError(knowsPods, acts, refuses, k).None? then 1 else 0
  }

  function ClosingEntries(verdict: Verdict, restores: bool, refuses: nat -> bool, k: nat): nat {
    match verdict
    case Undecided => 0
    case Healthy => PassedEntries(refuses, k)
    case Unhealthy => if refuses(k) then 0 else 1 + RestoredEntries(restores, refuses, k + 1)
  }

  function RestoredEntries(restores: bool, refuses: nat -> bool, k: nat): nat {
    if restores then PassedEntries(refuses, k) else 0
  }

  function PreparedEntries(f: Facts, refuses: nat -> bool, k: nat): nat {
    OpeningEntries(f.captures, refuses, k)
    + if OpeningError(f.captures, refuses, k).Some? then 0 else ActingEntries(f.knowsPods, f.acts, refuses, k + 3)
  }

  function EntriesAfter(e: DetectionEvent, f: Facts, refuses: nat -> bool, k: nat): nat {
    if !ValidEvent(e) then 0
    else
      PreparedEntries(f, refuses, k)
      + if PreparationError(f.captures, f.knowsPods, f.acts, refuses, k).Some? then 0
        else ClosingEntries(f.verdict, f.restores, refuses, k + 4)
  }

  /** How many appends are asked for. */
  function Notes(made: seq<Event>): nat {
    if made == [] then 0 else (if made[0].Noted? then 1 else 0) + Notes(made[1..])
  }

  lemma {:induction false} NotesAdd(a: seq<Event>, b: seq<Event>)
    ensures Notes(a + b) == Notes(a) + Notes(b)
  {
    if a == [] {
      assert a + b == b;
    } else {
      assert (a + b)[1..] == a[1..] + b;
      NotesAdd(a[1..], b);
    }
  }

  lemma OneMore(log: seq<Event>, ev: Event)
    ensures Notes(log + [ev]) == Notes(log) + if ev.Noted? then 1 else 0
  {
    NotesAdd(log, [ev]);
  }

  lemma {:induction false} CallsAreNoNotes(made: seq<Event>)
    requires forall i | 0 <= i < |made| :: !made[i].Noted?
    ensures Notes(made) == 0
  {
    if made != [] {
      CallsAreNoNotes(made[1..]);
    }
  }

  /** One append was refused, or none. */
  function Refused(error: Option<RemediateError>): nat {
    if error == Some(AuditFailed) then 1 else 0
  }

  lemma PassedNotes(log: seq<Event>, first: L.Stage, second: L.Stage, refuses: nat -> bool, k: nat)
    ensures Notes(Passed(log, first, second, refuses, k))
        == Notes(log) + PassedEntries(refuses, k) + if refuses(k) || refuses(k + 1) then 1 else 0
  {
    OneMore(log, Noted(first));
    OneMore(log + [Noted(first)], Noted(second));
  }

  lemma OpeningNotes(log: seq<Event>, e: DetectionEvent, captures: bool, refuses: nat -> bool, k: nat)
    ensures Notes(Opened(log, e, captures, refuses, k))
        == Notes(log) + OpeningEntries(captures, refuses, k) + Refused(OpeningError(captures, refuses, k))
  {
    var received := log + [Noted(L.Detected)];
    OneMore(log, Noted(L.Detected));
    OneMore(received, ReadDeployment(DeploymentOf(e)));
    PassedNotes(received + [ReadDeployment(DeploymentOf(e))], L.Snapshotted, L.Remediating, refuses, k + 1);
  }

  lemma ActingNotes(log: seq<Event>, a: Action, e: DetectionEvent, knowsPods: bool, acts: bool, act: seq<Event>,
      refuses: nat -> bool, k: nat)
    requires IsExecution(act, a, e)
    ensures Notes(Acted(log, e, knowsPods, acts, act))
        == Notes(log) + ActingEntries(knowsPods, acts, refuses, k) + Refused(ActingError(knowsPods, acts, refuses, k))
  {
    var asked := log + [ReadOwnedPods(DeploymentOf(e))];
    OneMore(log, ReadOwnedPods(DeploymentOf(e)));
    NotesAdd(asked, act);
    CallsAreNoNotes(act);
    OneMore(asked + act, Noted(L.Verifying));
  }

  lemma ClosingNotes(log: seq<Event>, ref: Ref, verdict: Verdict, restores: bool, restore: seq<Event>,
      refuses: nat -> bool, k: nat)
    requires S.IsRestore(restore, ref)
    ensures Notes(Closed(log, verdict, restores, restore, refuses, k))
        == Notes(log) + ClosingEntries(verdict, restores, refuses, k)
           + Refused(ClosingError(verdict, restores, refuses, k))
  {
    var began := log + [Noted(L.RollingBack)];
    PassedNotes(log, L.Recovered, L.Logged, refuses, k);
    OneMore(log, Noted(L.RollingBack));
    NotesAdd(began, restore);
    CallsAreNoNotes(restore);
    PassedNotes(began + restore, L.RolledBack, L.Logged, refuses, k + 1);
  }

  /** The log keeps an entry for every append the attempt asks for, but for the one it refuses. */
  lemma EntriesAreTheNotes(log: seq<Event>, a: Action, e: DetectionEvent, f: Facts, c: Course, refuses: nat -> bool,
      k: nat)
    requires IsCourse(c, a, e)
    ensures Notes(JournalAfter(log, e, f, c, refuses, k))
        == Notes(log) + EntriesAfter(e, f, refuses, k) + Refused(Ending(e, f, refuses, k))
  {
    if ValidEvent(e) {
      var begun := Opened(log, e, f.captures, refuses, k);
      var prepared := Prepared(log, e, f, c.act, refuses, k);
      OpeningNotes(log, e, f.captures, refuses, k);
      ActingNotes(begun, a, e, f.knowsPods, f.acts, c.act, refuses, k + 3);
      NotesAdd(prepared, Checking(e, c));
      CallsAreNoNotes(Checking(e, c));
      ClosingNotes(prepared + Checking(e, c), DeploymentOf(e), f.verdict, f.restores, c.restore, refuses, k + 4);
    }
  }

  /** The log holds the whole lifecycle exactly when the attempt ends without an error. */
  lemma WholeLogIffNoError(e: DetectionEvent, f: Facts, c: Course, refuses: nat -> bool, k: nat)
    requires c.recovered <==> f.verdict == Healthy
    ensures EntriesAfter(e, f, refuses, k) <= |StagesOf(c)|
    ensures EntriesAfter(e, f, refuses, k) == |StagesOf(c)| <==> Ending(e, f, refuses, k) == None
  {
  }

  // ---------------------------------------------------- the journal, part by part

  function Opened(log: seq<Event>, e: DetectionEvent, captures: bool, refuses: nat -> bool, k: nat): seq<Event> {
    var received := log + [Noted(L.Detected)];
    var asked := received + [ReadDeployment(DeploymentOf(e))];
    if refuses(k) then received
    else if !captures then asked
    else Passed(asked, L.Snapshotted, L.Remediating, refuses, k + 1)
  }

  /** Two states in a row, the second only when the first was written. */
  function Passed(log: seq<Event>, first: L.Stage, second: L.Stage, refuses: nat -> bool, k: nat): seq<Event> {
    if refuses(k) then log + [Noted(first)] else log + [Noted(first)] + [Noted(second)]
  }

  function Acted(log: seq<Event>, e: DetectionEvent, knowsPods: bool, acts: bool, act: seq<Event>): seq<Event> {
    var asked := log + [ReadOwnedPods(DeploymentOf(e))];
    if !knowsPods then asked else Ran(asked, acts, act)
  }

  function Ran(log: seq<Event>, acts: bool, act: seq<Event>): seq<Event> {
    if acts then log + act + [Noted(L.Verifying)] else log + act
  }

  function Prepared(
    log: seq<Event>, e: DetectionEvent, f: Facts, act: seq<Event>, refuses: nat -> bool, k: nat): seq<Event> {
    var begun := Opened(log, e, f.captures, refuses, k);
    if OpeningError(f.captures, refuses, k).Some? then begun else Acted(begun, e, f.knowsPods, f.acts, act)
  }

  function Closed(
    log: seq<Event>, verdict: Verdict, restores: bool, restore: seq<Event>, refuses: nat -> bool, k: nat): seq<Event> {
    match verdict
    case Undecided => log
    case Healthy => Passed(log, L.Recovered, L.Logged, refuses, k)
    case Unhealthy =>
      var began := log + [Noted(L.RollingBack)];
      if refuses(k) then began else Restored(began, restores, restore, refuses, k + 1)
  }

  function Restored(log: seq<Event>, restores: bool, restore: seq<Event>, refuses: nat -> bool, k: nat): seq<Event> {
    if restores then Passed(log + restore, L.RolledBack, L.Logged, refuses, k) else log + restore
  }

  function Concluded(
    log: seq<Event>, e: DetectionEvent, f: Facts, c: Course, refuses: nat -> bool, k: nat): seq<Event> {
    Closed(log + Checking(e, c), f.verdict, f.restores, c.restore, refuses, k)
  }

  /** The journal after an attempt. */
  function JournalAfter(
    log: seq<Event>, e: DetectionEvent, f: Facts, c: Course, refuses: nat -> bool, k: nat): seq<Event> {
    var prepared := Prepared(log, e, f, c.act, refuses, k);
    if !ValidEvent(e) then log
    else if PreparationError(f.captures, f.knowsPods, f.acts, refuses, k).Some? then prepared
    else Concluded(prepared, e, f, c, refuses, k + 4)
  }

  /** What an attempt adds to the journal in its world is its trail. */
  lemma AttemptTrail(env: Setting, m: Moment, e: DetectionEvent, p: Proof, log: seq<Event>, c: Course)
    returns (made: seq<Event>)
    requires (c.recovered <==> VerdictOf(env, p) == Healthy) && IsCourse(c, env.action, e)
    ensures JournalIn(env, m, e, p, log, c) == log + made && IsTrail(made, e, c, EndingIn(env, m, e, p))
    ensures IsLogged(EntriesIn(env, m, e, p), made, c, EndingIn(env, m, e, p))
  {
    var f := FactsOf(env, m, e, p);
    made := JournalIsTrail(log, e, f, c, env.refuses, m.appends);
    NotesAdd(log, made);
    EntriesAreTheNotes(log, env.action, e, f, c, env.refuses, m.appends);
    WholeLogIffNoError(e, f, c, env.refuses, m.appends);
  }

  /** n entries are what the log keeps of an attempt: one for each append asked for, but for the refused one; all of
      the lifecycle when the attempt ends without an error, and only then. */
  predicate IsLogged(n: nat, made: seq<Event>, c: Course, error: Option<RemediateError>) {
    n + Refused(error) == Notes(made) && (error == None <==> n == |StagesOf(c)|)
  }

  /** What an attempt adds to the journal is its trail. */
  lemma JournalIsTrail(log: seq<Event>, e: DetectionEvent, f: Facts, c: Course, refuses: nat -> bool, k: nat)
    returns (made: seq<Event>)
    requires c.recovered <==> f.verdict == Healthy
    ensures JournalAfter(log, e, f, c, refuses, k) == log + made
    ensures IsTrail(made, e, c, Ending(e, f, refuses, k))
  {
    if !ValidEvent(e) {
      made := [];
    } else if OpeningError(f.captures, refuses, k).Some? {
      made := OpeningTrail(log, e, f, c, refuses, k);
    } else if ActingError(f.knowsPods, f.acts, refuses, k + 3).Some? {
      made := ActingTrail(log, e, f, c, refuses, k);
    } else {
      made := ClosingTrail(log, e, f, c, refuses, k);
    }
  }

  lemma OpeningTrail(log: seq<Event>, e: DetectionEvent, f: Facts, c: Course, refuses: nat -> bool, k: nat)
    returns (made: seq<Event>)
    requires ValidEvent(e) && OpeningError(f.captures, refuses, k).Some?
    ensures JournalAfter(log, e, f, c, refuses, k) == log + made && IsTrail(made, e, c, Ending(e, f, refuses, k))
  {
    var n := if refuses(k) then 1 else if !f.captures then 2 else if refuses(k + 1) then 3 else 4;
    made := Opening(e)[..n];
    assert made <= Opening(e) <= Script(e, c);
  }

  lemma ActingTrail(log: seq<Event>, e: DetectionEvent, f: Facts, c: Course, refuses: nat -> bool, k: nat)
    returns (made: seq<Event>)
    requires ValidEvent(e) && OpeningError(f.captures, refuses, k).None?
    requires ActingError(f.knowsPods, f.acts, refuses, k + 3).Some?
    ensures JournalAfter(log, e, f, c, refuses, k) == log + made && IsTrail(made, e, c, Ending(e, f, refuses, k))
  {
    var acting := Acting(e, c.act);
    var n := if !f.knowsPods then 1 else if !f.acts then 1 + |c.act| else |acting|;
    made := Opening(e) + acting[..n];
    assert acting[..n] <= acting <= acting + (Checking(e, c) + Closing(c));
    assert Opened(log, e, f.captures, refuses, k) == log + Opening(e);
    assert Acted(log + Opening(e), e, f.knowsPods, f.acts, c.act) == log + Opening(e) + acting[..n];
  }

  lemma ClosingTrail(log: seq<Event>, e: DetectionEvent, f: Facts, c: Course, refuses: nat -> bool, k: nat)
    returns (made: seq<Event>)
    requires ValidEvent(e) && PreparationError(f.captures, f.knowsPods, f.acts, refuses, k).None?
    requires c.recovered <==> f.verdict == Healthy
    ensures JournalAfter(log, e, f, c, refuses, k) == log + made && IsTrail(made, e, c, Ending(e, f, refuses, k))
  {
    var n := ClosingLength(f, c, refuses, k + 4);
    made := UpToClosing(e, c, n);
    ClosedAsScripted(log + Opening(e) + Acting(e, c.act) + Checking(e, c), f, c, refuses, k + 4);
    PreparedAsScripted(log, e, f, c, refuses, k, n);
    PartOfScript(e, c, n);
  }

  /** The script up to the n-th part of its end. */
  function UpToClosing(e: DetectionEvent, c: Course, n: nat): seq<Event>
    requires n <= |Closing(c)|
  {
    Opening(e) + (Acting(e, c.act) + (Checking(e, c) + Closing(c)[..n]))
  }

  lemma PartOfScript(e: DetectionEvent, c: Course, n: nat)
    requires n <= |Closing(c)|
    ensures var made := UpToClosing(e, c, n);
            && made <= Script(e, c) && |made| == RestoreStart(c) - 1 + n
            && (n > 0 ==> made[|made| - 1] == Closing(c)[n - 1])
            && (n == |Closing(c)| ==> made == Script(e, c))
  {
    assert Checking(e, c) + Closing(c)[..n] <= Checking(e, c) + Closing(c);
    assert Acting(e, c.act) + (Checking(e, c) + Closing(c)[..n]) <= Acting(e, c.act) + (Checking(e, c) + Closing(c));
  }

  lemma PreparedAsScripted(log: seq<Event>, e: DetectionEvent, f: Facts, c: Course, refuses: nat -> bool, k: nat,
      n: nat)
    requires PreparationError(f.captures, f.knowsPods, f.acts, refuses, k).None? && n <= |Closing(c)|
    ensures Prepared(log, e, f, c.act, refuses, k) == log + Opening(e) + Acting(e, c.act)
    ensures log + Opening(e) + Acting(e, c.act) + Checking(e, c) + Closing(c)[..n] == log + UpToClosing(e, c, n)
  {
    assert Opened(log, e, f.captures, refuses, k) == log + Opening(e);
  }

  /** How much of the last part is asked for. */
  function ClosingLength(f: Facts, c: Course, refuses: nat -> bool, k: nat): nat {
    match f.verdict
    case Undecided => 0
    case Healthy => if refuses(k) then 1 else 2
    case Unhealthy =>
      if refuses(k) then 1
      else if !f.restores then 1 + |c.restore|
      else if refuses(k + 1) then 2 + |c.restore|
      else 3 + |c.restore|
  }

  lemma ClosedAsScripted(log: seq<Event>, f: Facts, c: Course, refuses: nat -> bool, k: nat)
    requires c.recovered <==> f.verdict == Healthy
    ensures var n := ClosingLength(f, c, refuses, k);
            && n <= |Closing(c)| && Closed(log, f.verdict, f.restores, c.restore, refuses, k) == log + Closing(c)[..n]
            && (n > 0 && ClosingError(f.verdict, f.restores, refuses, k) == Some(AuditFailed) ==>
                Closing(c)[n - 1].Noted?)
  {
    var n := ClosingLength(f, c, refuses, k);
    if f.verdict == Unhealthy {
      var rest := c.restore + [Noted(L.RolledBack), Noted(L.Logged)];
      assert Closing(c) == [Noted(L.RollingBack)] + rest;
      assert Closing(c)[..n] == [Noted(L.RollingBack)] + rest[..n - 1];
    }
  }

  // ---------------------------------------------------------------- verification

  /** The clock lags from reading n on. */
  function From(lag: nat -> nat, n: nat): nat -> nat {
    (i: nat) => lag(n + i)
  }

  /** The time after n more clock readings, the first of them number r. */
  function Later(lag: nat -> nat, r: nat, n: nat, now: Time): Time {
    if n == 0 then now else Later(lag, r, n - 1, now) + lag(r + n - 1)
  }

  lemma {:induction false} LaterIsLater(lag: nat -> nat, r: nat, n: nat, now: Time)
    ensures Later(lag, r, n, now) >= now
  {
    if n > 0 {
      LaterIsLater(lag, r, n - 1, now);
    }
  }

  lemma {:induction false} LaterComposes(lag: nat -> nat, r: nat, n: nat, k: nat, now: Time)
    ensures Later(lag, r + n, k, Later(lag, r, n, now)) == Later(lag, r, n + k, now)
  {
    if k > 0 {
      LaterComposes(lag, r, n, k - 1, now);
    }
  }

  /** How a verification began: the state the UIDs were captured in, the state the action left, as which call and
      when it started, and what it is to find. */
  datatype Start = Start(before: State, after: State, calls: nat, start: Time, lag: nat -> nat, target: V.Target)

  /** A verification, and how often it read. */
  datatype Proof = Proof(begin: Start, polls: nat, gets: nat)

  /** The cluster as Verify meets it: read-only calls, from where the action left it. */
  function World(env: Setting, p: Proof): V.World
    requires p.begin.target.preActionUids.Some?
  {
    V.World(
      p.begin.start, p.begin.lag,
      (i: nat) => if env.fails(p.begin.calls + i) then V.Broken
          else R.Resolved(Drift(env.others, p.begin.after, p.begin.calls, i + 1), p.begin.target),
      (m: nat, ref: Ref) =>
        if env.fails(p.begin.calls + m) then None else FindPod(Drift(env.others, p.begin.after, p.begin.calls,
            m + 1).pods, ref),
      env.cancelled)
  }

  /** What the verification decides in that world. */
  ghost function VerdictOf(env: Setting, p: Proof): Verdict {
    if p.begin.target.preActionUids.None? || !V.ValidCall(env.config, p.begin.target)
        || V.Fails(World(env, p), env.config, p.begin.target) then
      Undecided
    else if V.Recovers(World(env, p), env.config, p.begin.target) then Healthy
    else Unhealthy
  }

  function Captured(env: Setting, m: Moment): State {
    env.others(m.calls, m.state)
  }

  /** The state in which the UIDs are captured. */
  function Before(env: Setting, m: Moment): State {
    env.others(m.calls + 1, Captured(env, m))
  }

  predicate Captures(env: Setting, m: Moment, e: DetectionEvent) {
    !env.fails(m.calls) && DeploymentOf(e) in Captured(env, m).deployments
  }

  /** The UIDs can be captured by call k, made in state `st`. */
  predicate KnowsPodsAt(env: Setting, st: State, k: nat, e: DetectionEvent) {
    !env.fails(k) && R.CapturedUids(env.others(k, st), DeploymentOf(e)).Some?
  }

  /** Nothing is in the way of the action after that call. */
  predicate CanActAt(env: Setting, st: State, k: nat, e: DetectionEvent) {
    Obstacle(env.others, env.fails, env.others(k, st), k + 1, env.action, e) == None
  }

  predicate KnowsPods(env: Setting, m: Moment, e: DetectionEvent) {
    KnowsPodsAt(env, Captured(env, m), m.calls + 1, e)
  }

  predicate CanAct(env: Setting, m: Moment, e: DetectionEvent) {
    CanActAt(env, Captured(env, m), m.calls + 1, e)
  }

  function SnapshotIn(st: State, ref: Ref): S.Snapshot
    requires ref in st.deployments
  {
    S.Snapshot(ref, st.deployments[ref].revision, st.deployments[ref].spec)
  }

  /** The state and the number of the next call once the verification has made its reads. */
  function Verified(env: Setting, p: Proof): (State, nat) {
    (Drift(env.others, p.begin.after, p.begin.calls, p.polls + p.gets), p.begin.calls + p.polls + p.gets)
  }

  lemma ReadsEndThere(env: Setting, p: Proof, others: Others, st: State, k: nat, n: nat)
    requires p.begin.after == st && p.begin.calls == k && n == p.polls + p.gets && env.others == others
    ensures Verified(env, p).0 == Drift(others, st, k, n) && Verified(env, p).1 == k + n
  {
  }

  /** Nothing is in the way of the restore that follows the verification. */
  predicate RestoresAfter(env: Setting, p: Proof, snapshot: S.Snapshot) {
    var (st, k) := Verified(env, p);
    S.RestoreObstacle(env.others, env.fails, st, k, snapshot) == None
  }

  predicate CanRestore(env: Setting, m: Moment, e: DetectionEvent, p: Proof) {
    Captures(env, m, e) && RestoresAfter(env, p, SnapshotIn(Captured(env, m), DeploymentOf(e)))
  }

  ghost function FactsOf(env: Setting, m: Moment, e: DetectionEvent, p: Proof): Facts {
    Facts(Captures(env, m, e), KnowsPods(env, m, e), CanAct(env, m, e), VerdictOf(env, p), CanRestore(env, m, e, p))
  }

  /** `b` describes a verification prepared from moment `m` on, when the snapshot has been taken: the UIDs were
      captured, the action had its effect, and one more entry was written. */
  ghost predicate BeganAfter(env: Setting, m: Moment, e: DetectionEvent, b: Start) {
    && b.before == env.others(m.calls, m.state)
    && b.target == V.Target(Ref(e.namespace, e.podName), DeploymentOf(e), e.container, e.restartCount,
                            R.CapturedUids(b.before, DeploymentOf(e)))
    && b.target.preActionUids.Some?
    && m.calls + 1 <= b.calls && Effected(env.others, b.before, m.calls + 1, env.action, e, b.after, b.calls)
    && b.start == Later(env.lag, m.readings, 1, m.now) && b.lag == From(env.lag, m.readings + 1)
  }

  /** A verification that begins at `m'`, where the action that followed the capture of the UIDs has left the
      cluster. */
  lemma BeginsAfter(
    env: Setting, m: Moment, e: DetectionEvent, before: State, m': Moment,
    others: Others, a: Action, lag: nat -> nat, k: nat, st': State, k': nat)
    requires others == env.others && a == env.action && lag == env.lag && k == m.calls && st' == m'.state
        && k' == m'.calls
    requires before == Disturbed(others, k, m.state) && R.CapturedUids(before, DeploymentOf(e)).Some?
    requires k + 1 <= k' && Effected(others, before, k + 1, a, e, st', k')
    requires m'.now == Later(lag, m.readings, 1, m.now) && m'.readings == m.readings + 1
    ensures BeganAfter(env, m, e, StartAt(env, before, m', TargetOf(e, before)))
  {
  }

  function TargetOf(e: DetectionEvent, before: State): V.Target {
    V.Target(Ref(e.namespace, e.podName), DeploymentOf(e), e.container, e.restartCount,
        R.CapturedUids(before, DeploymentOf(e)))
  }

  function StartAt(env: Setting, before: State, m: Moment, t: V.Target): Start {
    Start(before, m.state, m.calls, m.now, From(env.lag, m.readings), t)
  }

  /** The moment the snapshot has been taken, in an attempt that began at `m`. */
  function Remediating(env: Setting, m: Moment): Moment {
    Moment(Captured(env, m), m.calls + 1, m.appends + 3, Later(env.lag, m.readings, 3, m.now), m.readings + 3)
  }

  /** `b` is where the attempt on `e` that began at moment `m` came to verify. */
  ghost predicate Began(env: Setting, m: Moment, e: DetectionEvent, b: Start) {
    BeganAfter(env, Remediating(env, m), e, b)
  }

  /** How often it read the clock. */
  function ReadingsOf(env: Setting, p: Proof): nat
    requires p.begin.target.preActionUids.Some?
  {
    V.ClockReadings(World(env, p), p.begin.target, p.polls, p.gets)
  }

  /** The reads it made are those the verification needs. */
  ghost predicate Watched(env: Setting, p: Proof) {
    && p.begin.target.preActionUids.Some?
    && if V.ValidCall(env.config, p.begin.target) then V.Ends(World(env, p), env.config, p.begin.target, p.polls,
        p.gets)
       else p.polls == p.gets == 0
  }

  function EarlyError(refuses: nat -> bool, k: nat, f: Facts): Option<RemediateError> {
    PreparationError(f.captures, f.knowsPods, f.acts, refuses, k)
  }

  /** How an attempt on `e` that begins at `m` ends, `p` being the verification it comes to. */
  ghost function EndingIn(env: Setting, m: Moment, e: DetectionEvent, p: Proof): Option<RemediateError> {
    Ending(e, FactsOf(env, m, e, p), env.refuses, m.appends)
  }

  /** How many entries it writes. */
  ghost function EntriesIn(env: Setting, m: Moment, e: DetectionEvent, p: Proof): nat {
    EntriesAfter(e, FactsOf(env, m, e, p), env.refuses, m.appends)
  }

  /** The facts that do not depend on a verification. */
  function EarlyFacts(env: Setting, m: Moment, e: DetectionEvent): Facts {
    Facts(Captures(env, m, e), KnowsPods(env, m, e), CanAct(env, m, e), Undecided, false)
  }

  /** The journal of an attempt that begins at `m`. */
  ghost function JournalIn(env: Setting, m: Moment, e: DetectionEvent, p: Proof, log: seq<Event>,
      c: Course): seq<Event> {
    JournalAfter(log, e, FactsOf(env, m, e, p), c, env.refuses, m.appends)
  }

  /** Once the snapshot is taken, what follows decides how the preparation ends. */
  lemma SnapshotTaken(
    log: seq<Event>, e: DetectionEvent, f: Facts, act: seq<Event>, refuses: nat -> bool, k: nat, begun: seq<Event>,
        j: nat)
    requires OpeningError(f.captures, refuses, k).None? && j == k + 3
    requires begun == Opened(log, e, f.captures, refuses, k)
    ensures EarlyError(refuses, k, f) == ActingError(f.knowsPods, f.acts, refuses, j)
    ensures Prepared(log, e, f, act, refuses, k) == Acted(begun, e, f.knowsPods, f.acts, act)
    ensures PreparedEntries(f, refuses, k) == 3 + ActingEntries(f.knowsPods, f.acts, refuses, j)
  {
  }

  lemma EarlyErrorDecides(
    env: Setting, m: Moment, e: DetectionEvent, f: Facts, p: Proof, log: seq<Event>, c: Course, refuses: nat -> bool,
        k: nat)
    requires ValidEvent(e) && f == EarlyFacts(env, m, e) && refuses == env.refuses && k == m.appends
    requires EarlyError(refuses, k, f).Some?
    ensures EndingIn(env, m, e, p) == EarlyError(refuses, k, f)
    ensures JournalIn(env, m, e, p, log, c) == Prepared(log, e, f, c.act, refuses, k)
    ensures EntriesIn(env, m, e, p) == PreparedEntries(f, refuses, k)
  {
  }

  /** After the snapshot the same facts decide. */
  lemma FactsAfterSnapshot(env: Setting, m: Moment, e: DetectionEvent, f: Facts, m': Moment)
    requires f == EarlyFacts(env, m, e) && m' == Remediating(env, m)
    ensures f.knowsPods == KnowsPodsAt(env, m'.state, m'.calls, e) && f.acts == CanActAt(env, m'.state, m'.calls, e)
  {
  }

  lemma BeginsFromTheStart(env: Setting, m: Moment, e: DetectionEvent, m': Moment, b: Start)
    requires m' == Remediating(env, m) && BeganAfter(env, m', e, b)
    ensures Began(env, m, e, b)
  {
  }

  /** The course and the proof of an attempt that does not come to a verification. */
  function Unverified(act: seq<Event>, ref: Ref): Course {
    Course(act, 0, ref, 0, false, Unrestored(ref))
  }

  function NoProof(m: Moment): Proof {
    Proof(Start(m.state, m.state, 0, 0, (_: nat) => 0, V.Target(V.NO_POD, V.NO_POD, "", 0, None)), 0, 0)
  }

  /** No call of an action, and none of a restore. */
  function Unacted(a: Action, e: DetectionEvent): (act: seq<Event>)
    ensures IsExecution(act, a, e)
  {
    []
  }

  function Unrestored(ref: Ref): (restore: seq<Event>)
    ensures S.IsRestore(restore, ref)
  {
    []
  }

  /** Once the verification has begun, in an attempt whose journal is `prepared` by then and whose next append is
      number k, it and what follows decide how the attempt ends. */
  lemma VerificationDecides(
    env: Setting, m: Moment, e: DetectionEvent, f: Facts, p: Proof, snapshot: S.Snapshot, log: seq<Event>, c: Course,
    prepared: seq<Event>, refuses: nat -> bool, k: nat)
    requires f == EarlyFacts(env, m, e) && EarlyError(refuses, m.appends, f) == None && ValidEvent(e)
    requires DeploymentOf(e) in Captured(env, m).deployments && snapshot == SnapshotIn(Captured(env, m),
        DeploymentOf(e))
    requires Began(env, m, e, p.begin) && refuses == env.refuses && k == m.appends + 4
    requires prepared == Prepared(log, e, f, c.act, refuses, m.appends)
    ensures EndingIn(env, m, e, p) == ClosingError(VerdictOf(env, p), RestoresAfter(env, p, snapshot), refuses, k)
    ensures JournalIn(env, m, e, p, log, c)
            == Closed(prepared + Checking(e, c), VerdictOf(env, p), RestoresAfter(env, p, snapshot), c.restore,
                refuses, k)
    ensures EntriesIn(env, m, e, p)
            == 4 + ClosingEntries(VerdictOf(env, p), RestoresAfter(env, p, snapshot), refuses, k)
    ensures p.begin.start >= m.now
  {
    LaterIsLater(env.lag, m.readings, 3, m.now);
    LaterIsLater(env.lag, m.readings + 3, 1, Later(env.lag, m.readings, 3, m.now));
  }

  /** A verification whose resolver always answers and whose waits are never cancelled decides. */
  lemma UncutVerificationsDecide(env: Setting, p: Proof)
    requires p.begin.target.preActionUids.Some?
    requires forall i :: !env.fails(i) && !env.cancelled(i)
    requires forall i: nat :: R.Readable(Drift(env.others, p.begin.after, p.begin.calls, i), p.begin.target.deployment)
    ensures !V.Fails(World(env, p), env.config, p.begin.target)
  {
    var w := World(env, p);
    forall i: nat ensures !w.resolve(i).Broken? {
      assert w.resolve(i) == R.Resolved(Drift(env.others, p.begin.after, p.begin.calls, i + 1), p.begin.target);
      R.ResolvedIsNewestEligible(Drift(env.others, p.begin.after, p.begin.calls, i + 1), p.begin.target);
    }
  }

  /** With every append accepted, nothing in the way of snapshot, UIDs and action, nor of a restore where one is
      needed, and a verification that is not cut short, an attempt succeeds: with a recovery exactly when the
      verification recovers. */
  lemma UnhinderedAttemptsSucceed(env: Setting, m: Moment, e: DetectionEvent, p: Proof)
    requires ValidEvent(e) && Captures(env, m, e) && KnowsPods(env, m, e) && CanAct(env, m, e)
    requires VerdictOf(env, p) == Unhealthy ==> CanRestore(env, m, e, p)
    requires p.begin.target.preActionUids.Some? && V.ValidCall(env.config, p.begin.target)
    requires forall i :: !env.refuses(i) && !env.fails(i) && !env.cancelled(i)
    requires forall i: nat :: R.Readable(Drift(env.others, p.begin.after, p.begin.calls, i), p.begin.target.deployment)
    ensures EndingIn(env, m, e, p) == None
    ensures VerdictOf(env, p) == if V.Recovers(World(env, p), env.config, p.begin.target) then Healthy else Unhealthy
  {
    UncutVerificationsDecide(env, p);
    NothingRefused(e, FactsOf(env, m, e, p), env.refuses, m.appends);
  }

  lemma NothingRefused(e: DetectionEvent, f: Facts, refuses: nat -> bool, k: nat)
    requires ValidEvent(e) && f.captures && f.knowsPods && f.acts && f.verdict != Undecided
    requires f.verdict == Unhealthy ==> f.restores
    requires forall i :: !refuses(i)
    ensures Ending(e, f, refuses, k) == None
  {
  }

  /** A spec that is back where it was in `captured`. */
  predicate SpecIsBack(captured: State, now: State, ref: Ref) {
    && ref in captured.deployments && ref in now.deployments
    && now.deployments[ref].spec == captured.deployments[ref].spec
  }

  // ------------------------------------------------------------ what it leaves of the cluster

  /** Where the action, run as call k in state `before`, left the cluster: with its effect if it ended well, and
      otherwise to others. */
  ghost predicate LeftByAction(
    others: Others, a: Action, e: DetectionEvent, before: State, k: nat, acted: bool, st': State, k': nat) {
    && k <= k'
    && if acted then Effected(others, before, k, a, e, st', k') else OnlyOthersActed(others, before, k, st', k')
  }

  /** Where an attempt that began at `m` and came to no verification left the cluster. */
  ghost predicate LeftEarly(env: Setting, m: Moment, e: DetectionEvent, acted: bool, st': State, k': nat) {
    if acted then LeftByAction(env.others, env.action, e, Before(env, m), m.calls + 2, true, st', k')
    else OnlyOthersActed(env.others, m.state, m.calls, st', k')
  }

  /** Where what followed a verification that ended in `st` before call k left the cluster, with n entries written:
      as it was, unless the restore was tried. */
  ghost predicate LeftByClosing(
    others: Others, st: State, k: nat, snapshot: S.Snapshot, error: Option<RemediateError>, n: nat, recovered: bool,
    st': State, k': nat) {
    if error == Some(RestoreFailed) then OnlyOthersActed(others, st, k, st', k')
    else if n == 4 || recovered then st' == st && k' == k
    else S.Reinstated(others, st, k, snapshot, st', k') && S.HasSpec(st', snapshot)
  }

  /** What an attempt leaves of the cluster, however it ends. Up to the action only others acted on it; the action
      had its effect on it; through the verification, and a recovery, only others acted; a failed restore left it to
      others; a restore put the captured spec back. */
  ghost predicate Leaves(
    env: Setting, m: Moment, e: DetectionEvent, p: Proof, error: Option<RemediateError>, n: nat, recovered: bool,
    st': State, k': nat) {
    if n < 4 then LeftEarly(env, m, e, n == 3 && error == Some(AuditFailed), st', k')
    else
      && DeploymentOf(e) in Captured(env, m).deployments
      && LeftByClosing(env.others, Verified(env, p).0, Verified(env, p).1,
                       SnapshotIn(Captured(env, m), DeploymentOf(e)), error, n, recovered, st', k')
  }

  /** An outcome as it is reported, with the entries of its whole lifecycle. */
  predicate IsReported(o: Outcome, written: seq<AuditEntry>, e: DetectionEvent, c: Course) {
    var stages := StagesOf(c);
    && Follows(written, e, stages) && |written| == |stages| && o.auditEntries == written
    && o.result == (if c.recovered then Recovered else RolledBack)
    && written[|stages| - 1].result == (if c.recovered then "recovered" else "rolled_back")
    && e.timestamp.Some? && o.mttr == written[|stages| - 2].timestamp - e.timestamp.value
  }

  // ------------------------------------------------------------ what a recovery rests on

  ghost predicate Proves(p: Proof, env: Setting) {
    && p.begin.target.preActionUids.Some? && p.begin.target.preActionUids == R.CapturedUids(p.begin.before,
        p.begin.target.deployment)
    && p.polls > 0 && Confirms(World(env, p), env.config, p.begin.target, p.polls - 1, p.gets)
  }

  /** Poll `poll` was the first ready one and check `checks` the one that ended the window. */
  predicate Confirms(w: V.World, cfg: V.Config, t: V.Target, poll: nat, checks: nat) {
    V.FirstReadyAt(w, cfg, t, poll) && V.StableFor(w, cfg, t, poll, checks)
  }

  /** The state in which the recovered Pod was selected. */
  function SelectedIn(p: Proof, others: Others): State {
    Drift(others, p.begin.after, p.begin.calls, p.polls)
  }

  /** What the j-th check of the window read for `pod`. */
  function SeenAt(p: Proof, others: Others, pod: Pod, j: nat): Option<Pod> {
    FindPod(Drift(others, p.begin.after, p.begin.calls, p.polls + j).pods, V.RefOf(pod))
  }

  /** Still the same Pod, Ready, and not restarted since `pod` was read. */
  predicate StillHealthy(seen: Option<Pod>, pod: Pod, container: string) {
    && seen.Some? && seen.value.uid == pod.uid && V.RefOf(seen.value) == V.RefOf(pod) && PodReady(seen.value.conditions)
    && RestartCount(seen.value.statuses, container).Some? && RestartCount(pod.statuses, container).Some?
    && RestartCount(seen.value.statuses, container).value <= RestartCount(pod.statuses, container).value
  }

  lemma ReadsOfTheWindow(p: Proof, env: Setting, pod: Pod, j: nat)
    requires p.begin.target.preActionUids.Some? && p.polls > 0
    ensures World(env, p).get(p.polls - 1 + j, V.RefOf(pod)) in {None, SeenAt(p, env.others, pod, j)}
  {
  }

  lemma CheckWasHealthy(p: Proof, env: Setting, j: nat)
    requires Proves(p, env) && 1 <= j <= p.gets
    ensures R.Resolved(SelectedIn(p, env.others), p.begin.target).Found?
    ensures var pod := R.Resolved(SelectedIn(p, env.others), p.begin.target).pod;
            StillHealthy(SeenAt(p, env.others, pod, j), pod, p.begin.target.container)
  {
    var w, poll := World(env, p), p.polls - 1;
    assert w.resolve(poll) == R.Resolved(SelectedIn(p, env.others), p.begin.target);
    V.SteadyThroughout(w, env.config, p.begin.target, poll, p.gets, j);
    ReadsOfTheWindow(p, env, w.resolve(poll).pod, j);
    assert V.Observed(w, poll, j) == w.get(poll + j, V.RefOf(w.resolve(poll).pod));
  }

  /** The Pod behind a recovery: when it was selected it was a live, Ready Pod of the Deployment running the
      container, not the original and not among the Pods the Deployment had before the action; at every check
      of the window it was the same Pod, Ready, and not restarted. */
  lemma RecoveredPodIsGenuine(p: Proof, env: Setting)
    requires Proves(p, env)
    ensures var (st, ref) := (SelectedIn(p, env.others), p.begin.target.deployment);
            && R.Readable(st, ref) && R.Resolved(st, p.begin.target).Found?
            && var pod := R.Resolved(st, p.begin.target).pod;
               && R.OwnedPod(st, ref, pod) && !pod.terminating && p.begin.target.container in pod.containers
               && PodReady(pod.conditions) && pod.name != p.begin.target.originalPod.name
               && (pod.uid != "" && R.Readable(p.begin.before, ref) ==> forall q | R.OwnedPod(p.begin.before, ref,
                   q) :: q.uid != pod.uid)
               && (forall j | 1 <= j <= p.gets :: StillHealthy(SeenAt(p, env.others, pod, j), pod,
                   p.begin.target.container))
  {
    var w := World(env, p);
    var st := SelectedIn(p, env.others);
    assert w.resolve(p.polls - 1) == R.Resolved(st, p.begin.target);
    assert V.ReadyAt(w, p.begin.target, p.polls - 1);
    R.ResolvedIsNewestEligible(st, p.begin.target);
    forall j | 1 <= j <= p.gets
      ensures StillHealthy(SeenAt(p, env.others, R.Resolved(st, p.begin.target).pod, j),
          R.Resolved(st, p.begin.target).pod, p.begin.target.container)
    {
      CheckWasHealthy(p, env, j);
    }
  }
}
