/** One remediation attempt: snapshot, act, verify, and restore when the verification fails. */
module Service {
  import opened Basics
  import opened Cluster
  import opened Actions
  import opened Attempts
  import L = Lifecycle
  import V = Verifier
  import R = Resolver
  import S = Snapshots

  /** Append-only; a refused append writes nothing. */
  class AuditLog {
    const refuses: nat -> bool
    const journal: Journal
    var appends: nat
    var entries: seq<AuditEntry>

    constructor (refuses: nat -> bool, journal: Journal)
      ensures this.refuses == refuses && this.journal == journal && entries == [] && appends == 0
    {
      this.refuses, this.journal, appends, entries := refuses, journal, 0, [];
    }

    method Append(e: AuditEntry) returns (ok: bool)
      modifies this, journal
      ensures ok == !Happens(refuses, old(appends)) && appends == old(appends) + 1
      ensures entries == if ok then old(entries) + [e] else old(entries)
      ensures journal.events == old(journal.events) + [Noted(e.stage)]
    {
      ok := !Happens(refuses, appends);
      appends := appends + 1;
      if ok {
        entries := entries + [e];
      }
      journal.events := journal.events + [Noted(e.stage)];
    }
  }

  /** A monotone clock: the k-th reading finds it `lag(k)` further on. */
  class Clock {
    const lag: nat -> nat
    var now: Time
    var readings: nat

    constructor (lag: nat -> nat, now: Time)
      ensures this.lag == lag && this.now == now && readings == 0
    {
      this.lag, this.now, readings := lag, now, 0;
    }

    method Now() returns (t: Time)
      modifies this
      ensures now == t == Later(lag, old(readings), 1, old(now)) && readings == old(readings) + 1
    {
      now := Later(lag, readings, 1, now);
      readings := readings + 1;
      t := now;
    }
  }

  class RemediationService {
    const k8s: ApiServer
    const clock: Clock
    const audit: AuditLog
    const action: Action
    const config: V.Config
    const cancelled: nat -> bool

    constructor (k8s: ApiServer, clock: Clock, audit: AuditLog, action: Action, config: V.Config,
        cancelled: nat -> bool)
      requires audit.journal == k8s.journal
      ensures this.k8s == k8s && this.clock == clock && this.audit == audit
      ensures this.action == action && this.config == config && this.cancelled == cancelled
    {
      this.k8s, this.clock, this.audit, this.action, this.config, this.cancelled := k8s, clock, audit, action,
          config, cancelled;
    }

    function Env(): Setting {
      Setting(k8s.others, k8s.fails, audit.refuses, clock.lag, cancelled, action, config)
    }

    function Here(): Moment
      reads k8s, clock, audit
    {
      Moment(k8s.state, k8s.calls, audit.appends, clock.now, clock.readings)
    }

    /** Asks the clock and the log once each. */
    method Record(
      e: DetectionEvent, stage: L.Stage, result: string, entries: seq<AuditEntry>, ghost stages: seq<L.Stage>,
          ghost base: seq<AuditEntry>)
      returns (ok: bool, entry: AuditEntry, entries': seq<AuditEntry>)
      requires Follows(entries, e, stages) && |entries| < |stages| && stages[|entries|] == stage
      requires audit.entries == base + entries
      modifies clock, audit, audit.journal
      ensures ok == !Happens(audit.refuses, old(audit.appends)) && audit.appends == old(audit.appends) + 1
      ensures clock.readings == old(clock.readings) + 1 && clock.now == Later(clock.lag, old(clock.readings), 1,
          old(clock.now))
      ensures entry == AuditEntry(e.incidentId, e.attempt, clock.now, Ref(e.namespace, e.podName), stage,
          ActionName(action), result)
      ensures entries' == if ok then entries + [entry] else entries
      ensures Follows(entries', e, stages) && audit.entries == base + entries'
      ensures audit.journal.events == old(audit.journal.events) + [Noted(stage)]
    {
      var t := clock.Now();
      entry := AuditEntry(e.incidentId, e.attempt, t, Ref(e.namespace, e.podName), stage, ActionName(action), result);
      ok := audit.Append(entry);
      entries' := if ok then entries + [entry] else entries;
      FollowsGrows(entries, e, stages, entry);
    }

    /** Steps the machine, then records the new state; an illegal step is an error and records nothing. */
    method Transition(
      machine: L.StateMachine, e: DetectionEvent, next: L.Stage, result: string,
      entries: seq<AuditEntry>, ghost stages: seq<L.Stage>, ghost base: seq<AuditEntry>)
      returns (error: Option<RemediateError>, entry: AuditEntry, entries': seq<AuditEntry>)
      requires Follows(entries, e, stages) && |entries| < |stages| && stages[|entries|] == next
      requires audit.entries == base + entries
      modifies machine, clock, audit, audit.journal
      ensures var allowed := next in L.AllowedTransitions(old(machine.current));
              && error == (if !allowed then Some(IllegalTransition)
                           else if Happens(audit.refuses, old(audit.appends)) then Some(AuditFailed) else None)
              && machine.current == (if allowed then next else old(machine.current))
              && (allowed ==>
                    && audit.appends == old(audit.appends) + 1 && clock.readings == old(clock.readings) + 1
                    && clock.now == Later(clock.lag, old(clock.readings), 1, old(clock.now))
                    && audit.journal.events == old(audit.journal.events) + [Noted(next)])
              && (!allowed ==>
                    && audit.appends == old(audit.appends) && clock.readings == old(clock.readings)
                    && clock.now == old(clock.now) && audit.journal.events == old(audit.journal.events))
      ensures Carries(entry, e) && entry.stage == next && entry.result == result && entry.timestamp == clock.now
      ensures entries' == if error.None? then entries + [entry] else entries
      ensures Follows(entries', e, stages) && audit.entries == base + entries'
    {
      var accepted := machine.Transition(next);
      if !accepted {
        entry := AuditEntry(e.incidentId, e.attempt, clock.now, Ref(e.namespace, e.podName), next,
            ActionName(action), result);
        return Some(IllegalTransition), entry, entries;
      }
      var ok;
      ok, entry, entries' := Record(e, next, result, entries, stages, base);
      error := if ok then None else Some(AuditFailed);
    }

    /** A transition the lifecycle allows: only the log can refuse it. */
    method Enter(
      machine: L.StateMachine, e: DetectionEvent, next: L.Stage, result: string,
      entries: seq<AuditEntry>, ghost stages: seq<L.Stage>, ghost base: seq<AuditEntry>)
      returns (refused: bool, entry: AuditEntry, entries': seq<AuditEntry>)
      requires Follows(entries, e, stages) && |entries| < |stages| && stages[|entries|] == next
      requires audit.entries == base + entries && next in L.AllowedTransitions(machine.current)
      modifies machine, clock, audit, audit.journal
      ensures refused <==> Happens(audit.refuses, old(audit.appends))
      ensures machine.current == next && audit.appends == old(audit.appends) + 1
          && clock.readings == old(clock.readings) + 1
      ensures clock.now == Later(clock.lag, old(clock.readings), 1, old(clock.now))
      ensures audit.journal.events == old(audit.journal.events) + [Noted(next)]
      ensures entry.result == result && entry.timestamp == clock.now
      ensures refused ==> entries' == entries
      ensures !refused ==> |entries'| == |entries| + 1 && entries <= entries' && entries'[|entries|] == entry
      ensures Follows(entries', e, stages) && audit.entries == base + entries'
    {
      var error;
      error, entry, entries' := Transition(machine, e, next, result, entries, stages, base);
      refused := error.Some?;
    }

    /** Two states in a row; the first entry is returned. */
    method TwoTransitions(
      machine: L.StateMachine, e: DetectionEvent, first: L.Stage, firstResult: string, second: L.Stage,
          secondResult: string,
      entries: seq<AuditEntry>, ghost stages: seq<L.Stage>, ghost base: seq<AuditEntry>)
      returns (error: Option<RemediateError>, entry: AuditEntry, entries': seq<AuditEntry>)
      requires Follows(entries, e, stages) && |entries| + 1 < |stages| && audit.entries == base + entries
      requires stages[|entries|] == first && stages[|entries| + 1] == second
      requires first in L.AllowedTransitions(machine.current) && second in L.AllowedTransitions(first)
      modifies machine, clock, audit, audit.journal
      ensures error == if Happens(audit.refuses, old(audit.appends)) || Happens(audit.refuses,
          old(audit.appends) + 1) then Some(AuditFailed) else None
      ensures audit.journal.events == Passed(old(audit.journal.events), first, second, audit.refuses,
          old(audit.appends))
      ensures Follows(entries', e, stages) && audit.entries == base + entries'
      ensures |entries'| == |entries| + PassedEntries(audit.refuses, old(audit.appends))
      ensures error.None? ==>
                && machine.current == second && entry == entries'[|entries|] && entry.result == firstResult
                && entries'[|entries| + 1].result == secondResult
                && audit.appends == old(audit.appends) + 2 && clock.readings == old(clock.readings) + 2
                && clock.now == Later(clock.lag, old(clock.readings), 2, old(clock.now))
                && entry.timestamp == Later(clock.lag, old(clock.readings), 1, old(clock.now))
    {
      var refused, later;
      refused, entry, entries' := Enter(machine, e, first, firstResult, entries, stages, base);
      if !refused {
        refused, later, entries' := Enter(machine, e, second, secondResult, entries', stages, base);
      }
      error := if refused then Some(AuditFailed) else None;
    }

    /** The first entry, and the snapshot. */
    method Open(e: DetectionEvent, ghost captures: bool)
      returns (r: Result<S.Snapshot, RemediateError>, entries: seq<AuditEntry>)
      requires audit.journal == k8s.journal && captures == Captures(Env(), Here(), e)
      modifies k8s, clock, audit, audit.journal
      ensures ErrorOf(r) == if Happens(audit.refuses, old(audit.appends)) then Some(AuditFailed)
                            else if !captures then Some(CaptureFailed) else None
      ensures var received := old(audit.journal.events) + [Noted(L.Detected)];
              audit.journal.events == if r == Err(AuditFailed) then received
                  else received + [ReadDeployment(DeploymentOf(e))]
      ensures Follows(entries, e, L.RECOVERY) && audit.entries == old(audit.entries) + entries
      ensures |entries| == if r == Err(AuditFailed) then 0 else 1
      ensures clock.readings == old(clock.readings) + 1 && clock.now == Later(clock.lag, old(clock.readings), 1,
          old(clock.now))
      ensures audit.appends == old(audit.appends) + 1
      ensures r != Err(AuditFailed) ==>
          k8s.state == Disturbed(k8s.others, old(k8s.calls), old(k8s.state)) && k8s.calls == old(k8s.calls) + 1
      ensures r == Err(AuditFailed) ==> k8s.state == old(k8s.state) && k8s.calls == old(k8s.calls)
      ensures r.Ok? ==> DeploymentOf(e) in k8s.state.deployments && r.value == SnapshotIn(k8s.state, DeploymentOf(e))
    {
      var ok, entry;
      assert audit.entries == audit.entries + [];
      ok, entry, entries := Record(e, L.Detected, "received", [], L.RECOVERY, audit.entries);
      if !ok {
        return Err(AuditFailed), entries;
      }
      var taken := S.Capture(k8s, DeploymentOf(e));
      r := if taken.Err? then Err(CaptureFailed) else Ok(taken.value);
    }

    /** Takes the snapshot; the attempt is then remediating. */
    method TakeSnapshot(machine: L.StateMachine, e: DetectionEvent, ghost captures: bool)
      returns (r: Result<S.Snapshot, RemediateError>, entries: seq<AuditEntry>)
      requires audit.journal == k8s.journal && machine.current == L.Detected && captures == Captures(Env(), Here(), e)
      modifies machine, k8s, clock, audit, audit.journal
      ensures ErrorOf(r) == OpeningError(captures, audit.refuses, old(audit.appends))
      ensures audit.journal.events == Opened(old(audit.journal.events), e, captures, audit.refuses, old(audit.appends))
      ensures Follows(entries, e, L.RECOVERY) && audit.entries == old(audit.entries) + entries
      ensures |entries| == OpeningEntries(captures, audit.refuses, old(audit.appends))
      ensures if r.Ok? then |entries| == 3 && machine.current == L.Remediating else |entries| < 3
      ensures r.Ok? ==> Here() == Remediating(Env(), old(Here())) && audit.appends == old(audit.appends) + 3
      ensures r.Ok? ==> DeploymentOf(e) in k8s.state.deployments && r.value == SnapshotIn(k8s.state, DeploymentOf(e))
      ensures OnlyOthersActed(k8s.others, old(k8s.state), old(k8s.calls), k8s.state, k8s.calls)
    {
      OneCallOnly(k8s.others, k8s.state, k8s.calls);
      r, entries := Open(e, captures);
      if r.Ok? {
        var error, entry;
        error, entry, entries := TwoTransitions(
          machine, e, L.Snapshotted, "captured", L.Remediating, "started", entries, L.RECOVERY, old(audit.entries));
        LaterComposes(clock.lag, old(clock.readings), 1, 2, old(clock.now));
        if error.Some? {
          r := Err(error.value);
        }
      }
    }

    /** Captures the Pod identities, then runs the action. */
    method Act(
      machine: L.StateMachine, e: DetectionEvent, entries: seq<AuditEntry>,
      ghost base: seq<AuditEntry>, ghost knows: bool, ghost acts: bool)
      returns (r: Result<V.Target, RemediateError>, entries': seq<AuditEntry>,
               ghost act: seq<Event>, ghost before: State, ghost b: Start)
      requires audit.journal == k8s.journal && machine.current == L.Remediating
      requires |entries| == 3 && Follows(entries, e, L.RECOVERY) && audit.entries == base + entries
      requires knows == KnowsPodsAt(Env(), Here().state, Here().calls, e) && acts == CanActAt(Env(), Here().state,
          Here().calls, e)
      modifies machine, k8s, clock, audit, audit.journal
      ensures ErrorOf(r) == ActingError(knows, acts, audit.refuses, old(audit.appends))
      ensures audit.journal.events == Acted(old(audit.journal.events), e, knows, acts, act)
          && IsExecution(act, action, e)
      ensures Follows(entries', e, L.RECOVERY) && audit.entries == base + entries'
      ensures |entries'| == 3 + ActingEntries(knows, acts, audit.refuses, old(audit.appends))
      ensures r.Ok? ==> machine.current == L.Verifying && audit.appends == old(audit.appends) + 1
      ensures r.Ok? ==> BeganAfter(Env(), old(Here()), e, b) && b == StartNow(before, r.value)
      ensures before == Disturbed(k8s.others, old(k8s.calls), old(k8s.state))
      ensures r.Err? ==> LeftByAction(k8s.others, action, e, before, old(k8s.calls) + 1, r.error == AuditFailed,
          k8s.state, k8s.calls)
    {
      var uids;
      uids, before := CaptureUids(e);
      if uids.None? {
        OneCallOnly(k8s.others, k8s.state, k8s.calls);
        r, entries', act := Err(UidsFailed), entries, Unacted(action, e);
      } else {
        var error;
        error, entries', act := Run(machine, e, entries, base, acts);
        r := if error.Some? then Err(error.value)
             else Ok(V.Target(Ref(e.namespace, e.podName), DeploymentOf(e), e.container, e.restartCount, uids));
      }
      b := StartAt(Env(), before, Here(), TargetOf(e, before));
      if r.Ok? {
        BeginsAfter(Env(), old(Here()), e, before, Here(),
                    k8s.others, action, clock.lag, old(k8s.calls), k8s.state, k8s.calls);
      }
    }

    method CaptureUids(e: DetectionEvent) returns (uids: Option<set<string>>, ghost before: State)
      modifies k8s, k8s.journal
      ensures before == k8s.state == Disturbed(k8s.others, old(k8s.calls), old(k8s.state))
          && k8s.calls == old(k8s.calls) + 1
      ensures k8s.journal.events == old(k8s.journal.events) + [ReadOwnedPods(DeploymentOf(e))]
      ensures uids.Some? <==> KnowsPodsAt(Env(), old(k8s.state), old(k8s.calls), e)
      ensures uids.Some? ==> uids == R.CapturedUids(before, DeploymentOf(e))
    {
      var reached := k8s.GetOwnedPods(DeploymentOf(e));
      before := k8s.state;
      uids := None;
      if reached {
        uids := R.CapturePreActionPodUids(k8s.state, DeploymentOf(e));
      }
    }

    /** The action, and the start of the verification when it worked. */
    method Run(
      machine: L.StateMachine, e: DetectionEvent, entries: seq<AuditEntry>, ghost base: seq<AuditEntry>,
          ghost acts: bool)
      returns (error: Option<RemediateError>, entries': seq<AuditEntry>, ghost act: seq<Event>)
      requires audit.journal == k8s.journal && machine.current == L.Remediating
      requires |entries| == 3 && Follows(entries, e, L.RECOVERY) && audit.entries == base + entries
      requires acts == (Obstacle(k8s.others, k8s.fails, k8s.state, k8s.calls, action, e) == None)
      modifies machine, k8s, clock, audit, audit.journal
      ensures error == ActingError(true, acts, audit.refuses, old(audit.appends))
      ensures audit.journal.events == Ran(old(audit.journal.events), acts, act) && IsExecution(act, action, e)
      ensures Follows(entries', e, L.RECOVERY) && audit.entries == base + entries'
      ensures |entries'| == 3 + ActingEntries(true, acts, audit.refuses, old(audit.appends))
      ensures error.None? ==>
                && machine.current == L.Verifying && audit.appends == old(audit.appends) + 1
                && clock.readings == old(clock.readings) + 1 && clock.now == Later(clock.lag, old(clock.readings), 1,
                    old(clock.now))
      ensures LeftByAction(k8s.others, action, e, old(k8s.state), old(k8s.calls), acts, k8s.state, k8s.calls)
    {
      var failed;
      failed, act := Execute(k8s, action, e);
      if failed.Some? {
        error, entries' := Some(ExecuteFailed), entries;
      } else {
        var refused, entry;
        refused, entry, entries' := Enter(machine, e, L.Verifying, "started", entries, L.RECOVERY, base);
        error := if refused then Some(AuditFailed) else None;
      }
    }

    /** Verify, run against the cluster as it is from now on; a recovery comes with its proof. */
    method VerifyNow(t: V.Target, ghost b: Start)
      returns (r: Result<V.Verification, V.Error>, ghost proof: Proof, ghost pod: Ref)
      requires audit.journal == k8s.journal && b == StartNow(b.before, t)
      requires t.preActionUids.Some? && t.preActionUids == R.CapturedUids(b.before, t.deployment)
      modifies k8s, k8s.journal, clock
      ensures proof.begin == b && Watched(Env(), proof)
      ensures VerdictOf(Env(), proof) == if r.Err? then Undecided else if r.value.recovered then Healthy else Unhealthy
      ensures k8s.state == Verified(Env(), proof).0 && k8s.calls == Verified(Env(), proof).1
      ensures k8s.journal.events == old(k8s.journal.events) + VerificationReads(t.deployment, proof.polls, pod,
          proof.gets)
      ensures clock.readings == old(clock.readings) + ReadingsOf(Env(), proof)
      ensures r.Ok? && r.value.recovered ==> Proves(proof, Env()) && clock.now >= old(clock.now) + config.window
    {
      var finished, polls, gets, readings, found;
      r, finished, polls, gets, readings, found, proof := VerifyFromHere(t, b);
      ReadsEndThere(Env(), proof, k8s.others, k8s.state, k8s.calls, polls + gets);
      k8s.Observe(t.deployment, polls, found, gets);
      pod := found;
      clock.now, clock.readings := finished, clock.readings + readings;
    }

    /** What Verify finds when it starts now: nothing has been read yet. */
    method VerifyFromHere(t: V.Target, ghost b: Start)
      returns (r: Result<V.Verification, V.Error>, finished: Time, polls: nat, gets: nat, readings: nat, pod: Ref,
               ghost proof: Proof)
      requires t.preActionUids.Some? && t.preActionUids == R.CapturedUids(b.before, t.deployment)
          && b == StartNow(b.before, t)
      ensures proof == Proof(b, polls, gets) && readings == ReadingsOf(Env(), proof)
      ensures Watched(Env(), proof)
      ensures VerdictOf(Env(), proof) == if r.Err? then Undecided else if r.value.recovered then Healthy else Unhealthy
      ensures r.Ok? && r.value.recovered ==> Proves(proof, Env()) && finished >= clock.now + config.window
    {
      var w := World(Env(), Proof(StartNow(k8s.state, t), 0, 0));
      r, finished, polls, gets, readings := V.Verify(w, config, t);
      proof := Proof(b, polls, gets);
      assert World(Env(), proof) == w;
      pod := if polls > 0 && w.resolve(polls - 1).Found? then V.RefOf(w.resolve(polls - 1).pod) else V.NO_POD;
    }

    /** A verification of `t` that starts now. */
    function StartNow(before: State, t: V.Target): Start
      reads k8s, clock, audit
    {
      StartAt(Env(), before, Here(), t)
    }

    method ReportRecovery(
      machine: L.StateMachine, e: DetectionEvent, entries: seq<AuditEntry>, ghost base: seq<AuditEntry>,
          ghost c: Course)
      returns (r: Result<Outcome, RemediateError>, entries': seq<AuditEntry>)
      requires ValidEvent(e) && machine.current == L.Verifying && c.recovered
      requires |entries| == 4 && Follows(entries, e, L.RECOVERY) && audit.entries == base + entries
      modifies machine, clock, audit, audit.journal
      ensures ErrorOf(r) == ClosingError(Healthy, true, audit.refuses, old(audit.appends))
      ensures audit.journal.events == Passed(old(audit.journal.events), L.Recovered, L.Logged, audit.refuses,
          old(audit.appends))
      ensures Follows(entries', e, L.RECOVERY) && audit.entries == base + entries'
      ensures |entries'| == 4 + PassedEntries(audit.refuses, old(audit.appends))
      ensures r.Ok? ==> IsReported(r.value, entries', e, c) && r.value.mttr >= old(clock.now) - e.timestamp.value
    {
      var error, terminal;
      error, terminal, entries' := TwoTransitions(machine, e, L.Recovered, "recovered", L.Logged, "recovered",
          entries, L.RECOVERY, base);
      r := if error.Some? then Err(error.value)
           else Ok(Outcome(Recovered, terminal.timestamp - e.timestamp.value, entries'));
    }

    /** Nothing is in the way of a restore that starts now. */
    predicate NothingBars(snapshot: S.Snapshot)
      reads k8s
    {
      S.RestoreObstacle(k8s.others, k8s.fails, k8s.state, k8s.calls, snapshot) == None
    }

    /** Restores the snapshot, once. */
    method RollBack(
      machine: L.StateMachine, e: DetectionEvent, snapshot: S.Snapshot, entries: seq<AuditEntry>,
      ghost base: seq<AuditEntry>, ghost c: Course, ghost restores: bool)
      returns (r: Result<Outcome, RemediateError>, entries': seq<AuditEntry>, ghost restore: seq<Event>)
      requires audit.journal == k8s.journal && snapshot.ref == DeploymentOf(e) && restores == NothingBars(snapshot)
      requires ValidEvent(e) && machine.current == L.Verifying && !c.recovered
      requires |entries| == 4 && Follows(entries, e, L.ROLLBACK) && audit.entries == base + entries
      modifies machine, k8s, clock, audit, audit.journal
      ensures ErrorOf(r) == RollbackError(restores, audit.refuses, old(audit.appends))
      ensures audit.journal.events == Closed(old(audit.journal.events), Unhealthy, restores, restore, audit.refuses,
          old(audit.appends))
      ensures S.IsRestore(restore, DeploymentOf(e))
      ensures Follows(entries', e, L.ROLLBACK) && audit.entries == base + entries'
      ensures |entries'| == 4 + ClosingEntries(Unhealthy, restores, audit.refuses, old(audit.appends))
      ensures LeftByClosing(k8s.others, old(k8s.state), old(k8s.calls), snapshot, ErrorOf(r), |entries'|, false,
          k8s.state, k8s.calls)
      ensures r.Ok? ==> IsReported(r.value, entries', e, c)
    {
      var refused, entry;
      refused, entry, entries' := Enter(machine, e, L.RollingBack, "verification failed", entries, L.ROLLBACK, base);
      if refused {
        r, restore := Err(AuditFailed), Unrestored(DeploymentOf(e));
      } else {
        r, entries', restore := RestoreAndReport(machine, e, snapshot, entries', base, c, restores);
      }
    }

    method RestoreAndReport(
      machine: L.StateMachine, e: DetectionEvent, snapshot: S.Snapshot, entries: seq<AuditEntry>,
      ghost base: seq<AuditEntry>, ghost c: Course, ghost restores: bool)
      returns (r: Result<Outcome, RemediateError>, entries': seq<AuditEntry>, ghost restore: seq<Event>)
      requires audit.journal == k8s.journal && snapshot.ref == DeploymentOf(e) && restores == NothingBars(snapshot)
      requires ValidEvent(e) && machine.current == L.RollingBack && !c.recovered
      requires |entries| == 5 && Follows(entries, e, L.ROLLBACK) && audit.entries == base + entries
      modifies machine, k8s, clock, audit, audit.journal
      ensures ErrorOf(r) == if !restores then Some(RestoreFailed)
                            else if Happens(audit.refuses, old(audit.appends))
                                || Happens(audit.refuses, old(audit.appends) + 1) then Some(AuditFailed)
                            else None
      ensures audit.journal.events == Restored(old(audit.journal.events), restores, restore, audit.refuses,
          old(audit.appends))
      ensures S.IsRestore(restore, DeploymentOf(e))
      ensures Follows(entries', e, L.ROLLBACK) && audit.entries == base + entries'
      ensures |entries'| == 5 + RestoredEntries(restores, audit.refuses, old(audit.appends))
      ensures LeftByClosing(k8s.others, old(k8s.state), old(k8s.calls), snapshot, ErrorOf(r), |entries'|, false,
          k8s.state, k8s.calls)
      ensures r.Ok? ==> IsReported(r.value, entries', e, c)
    {
      var unrestored;
      unrestored, restore := S.Restore(k8s, snapshot);
      if unrestored.Some? {
        r, entries' := Err(RestoreFailed), entries;
      } else {
        var error, terminal;
        error, terminal, entries' := TwoTransitions(
          machine, e, L.RolledBack, "restored", L.Logged, "rolled_back", entries, L.ROLLBACK, base);
        r := if error.Some? then Err(error.value)
             else Ok(Outcome(RolledBack, terminal.timestamp - e.timestamp.value, entries'));
      }
    }

    /** Reports a recovery, or rolls back. */
    method Settle(
      machine: L.StateMachine, e: DetectionEvent, snapshot: S.Snapshot, recovered: bool, entries: seq<AuditEntry>,
      ghost base: seq<AuditEntry>, ghost c: Course, ghost restores: bool)
      returns (r: Result<Outcome, RemediateError>, entries': seq<AuditEntry>, ghost restore: seq<Event>)
      requires audit.journal == k8s.journal && snapshot.ref == DeploymentOf(e) && restores == NothingBars(snapshot)
      requires ValidEvent(e) && machine.current == L.Verifying && c.recovered == recovered
      requires |entries| == 4 && Follows(entries, e, L.RECOVERY) && audit.entries == base + entries
      modifies machine, k8s, clock, audit, audit.journal
      ensures var verdict := if recovered then Healthy else Unhealthy;
              && ErrorOf(r) == ClosingError(verdict, restores, audit.refuses, old(audit.appends))
              && audit.journal.events
                 == Closed(old(audit.journal.events), verdict, restores, restore, audit.refuses, old(audit.appends))
      ensures S.IsRestore(restore, DeploymentOf(e))
      ensures Follows(entries', e, StagesOf(c)) && audit.entries == base + entries'
      ensures |entries'| == 4 + ClosingEntries(if recovered then Healthy else Unhealthy, restores, audit.refuses,
                                               old(audit.appends))
      ensures LeftByClosing(k8s.others, old(k8s.state), old(k8s.calls), snapshot, ErrorOf(r), |entries'|, recovered,
          k8s.state, k8s.calls)
      ensures r.Ok? ==> IsReported(r.value, entries', e, c)
      ensures r.Ok? && recovered ==> r.value.mttr >= old(clock.now) - e.timestamp.value
    {
      if recovered {
        r, entries' := ReportRecovery(machine, e, entries, base, c);
        restore := [];
      } else {
        PreparationIsCommon(entries, e);
        r, entries', restore := RollBack(machine, e, snapshot, entries, base, c, restores);
      }
    }

    /** The verification and what follows from it. */
    method Conclude(
      machine: L.StateMachine, e: DetectionEvent, snapshot: S.Snapshot, target: V.Target, entries: seq<AuditEntry>,
      ghost base: seq<AuditEntry>, ghost b: Start, ghost act: seq<Event>)
      returns (r: Result<Outcome, RemediateError>, entries': seq<AuditEntry>, ghost c: Course, ghost proof: Proof)
      requires audit.journal == k8s.journal && snapshot.ref == DeploymentOf(e) == target.deployment
      requires ValidEvent(e) && machine.current == L.Verifying
      requires |entries| == 4 && Follows(entries, e, L.RECOVERY) && audit.entries == base + entries
      requires target.preActionUids.Some? && target.preActionUids == R.CapturedUids(b.before, target.deployment)
      requires b == StartNow(b.before, target)
      modifies machine, k8s, clock, audit, audit.journal
      ensures proof.begin == b && Watched(Env(), proof)
      ensures ErrorOf(r) == ClosingError(VerdictOf(Env(), proof), RestoresAfter(Env(), proof, snapshot),
          audit.refuses, old(audit.appends))
      ensures Courses(c, act, proof) && S.IsRestore(c.restore, DeploymentOf(e))
      ensures audit.journal.events == Closed(old(audit.journal.events) + Checking(e, c), VerdictOf(Env(), proof),
                                             RestoresAfter(Env(), proof, snapshot), c.restore, audit.refuses,
                                                 old(audit.appends))
      ensures Follows(entries', e, StagesOf(c)) && audit.entries == base + entries'
      ensures |entries'| == 4 + ClosingEntries(VerdictOf(Env(), proof), RestoresAfter(Env(), proof, snapshot),
          audit.refuses, old(audit.appends))
      ensures LeftByClosing(k8s.others, Verified(Env(), proof).0, Verified(Env(), proof).1, snapshot, ErrorOf(r),
          |entries'|, c.recovered, k8s.state, k8s.calls)
      ensures r.Ok? ==> IsReported(r.value, entries', e, c)
      ensures r.Ok? && c.recovered ==>
          Proves(proof, Env()) && r.value.mttr >= old(clock.now) + config.window - e.timestamp.value
      ensures r.Err? ==> r.error in {AuditFailed, VerifyFailed, RestoreFailed}
    {
      ghost var pod;
      var verification;
      verification, proof, pod := VerifyNow(target, b);
      var recovered := verification.Ok? && verification.value.recovered;
      c := Course(act, proof.polls, pod, proof.gets, recovered, Unrestored(DeploymentOf(e)));
      if verification.Err? {
        PreparationIsCommon(entries, e);
        r, entries' := Err(VerifyFailed), entries;
      } else {
        ghost var restore;
        r, entries', restore := Settle(machine, e, snapshot, recovered, entries, base, c, NothingBars(snapshot));
        c := c.(restore := restore);
      }
    }

    /** The course has the reads and the verdict of the verification. */
    ghost predicate Courses(c: Course, act: seq<Event>, p: Proof) {
      c.act == act && c.polls == p.polls && c.gets == p.gets && (c.recovered <==> VerdictOf(Env(), p) == Healthy)
    }

    /** The rest of the preparation of an attempt whose journal was `log` and whose first append was number k. */
    method Proceed(
      machine: L.StateMachine, e: DetectionEvent, entries: seq<AuditEntry>,
      ghost base: seq<AuditEntry>, ghost f: Facts, ghost log: seq<Event>, ghost k: nat)
      returns (r: Result<V.Target, RemediateError>, entries': seq<AuditEntry>, ghost act: seq<Event>,
          ghost before: State, ghost b: Start)
      requires audit.journal == k8s.journal && machine.current == L.Remediating
      requires |entries| == 3 && Follows(entries, e, L.RECOVERY) && audit.entries == base + entries
      requires f.knowsPods == KnowsPodsAt(Env(), Here().state, Here().calls, e)
      requires f.acts == CanActAt(Env(), Here().state, Here().calls, e)
      requires OpeningError(f.captures, audit.refuses, k).None? && audit.appends == k + 3
      requires audit.journal.events == Opened(log, e, f.captures, audit.refuses, k)
      modifies machine, k8s, clock, audit, audit.journal
      ensures ErrorOf(r) == EarlyError(audit.refuses, k, f)
      ensures audit.journal.events == Prepared(log, e, f, act, audit.refuses, k) && IsExecution(act, action, e)
      ensures Follows(entries', e, L.RECOVERY) && audit.entries == base + entries'
      ensures |entries'| == PreparedEntries(f, audit.refuses, k) && |entries'| == (if r.Ok? then 4 else 3)
      ensures r.Ok? ==> machine.current == L.Verifying && audit.appends == k + 4
      ensures r.Ok? ==> BeganAfter(Env(), old(Here()), e, b) && b == StartNow(before, r.value)
      ensures r.Err? ==> r.error in {AuditFailed, UidsFailed, ExecuteFailed}
      ensures before == Disturbed(k8s.others, old(k8s.calls), old(k8s.state))
      ensures r.Err? ==> LeftByAction(k8s.others, action, e, before, old(k8s.calls) + 1, r.error == AuditFailed,
          k8s.state, k8s.calls)
    {
      ghost var begun, j := audit.journal.events, audit.appends;
      r, entries', act, before, b := Act(machine, e, entries, base, f.knowsPods, f.acts);
      SnapshotTaken(log, e, f, act, audit.refuses, k, begun, j);
    }

    /** Everything up to the start of the verification. */
    method Prepare(machine: L.StateMachine, e: DetectionEvent, ghost f: Facts)
      returns (r: Result<(S.Snapshot, V.Target), RemediateError>, entries: seq<AuditEntry>, ghost act: seq<Event>,
          ghost b: Start)
      requires audit.journal == k8s.journal && machine.current == L.Detected && f == EarlyFacts(Env(), Here(), e)
      modifies machine, k8s, clock, audit, audit.journal
      ensures ErrorOf(r) == EarlyError(audit.refuses, old(audit.appends), f)
      ensures audit.journal.events == Prepared(old(audit.journal.events), e, f, act, audit.refuses, old(audit.appends))
      ensures IsExecution(act, action, e)
      ensures Follows(entries, e, L.RECOVERY) && audit.entries == old(audit.entries) + entries
      ensures |entries| == PreparedEntries(f, audit.refuses, old(audit.appends))
      ensures if r.Ok? then |entries| == 4 && machine.current == L.Verifying else |entries| < 4
      ensures r.Ok? ==>
                && audit.appends == old(audit.appends) + 4 && DeploymentOf(e) in old(Captured(Env(),
                    Here())).deployments
                && r.value.0 == SnapshotIn(old(Captured(Env(), Here())), DeploymentOf(e))
                && Began(Env(), old(Here()), e, b) && b == StartNow(b.before, r.value.1)
      ensures r.Err? ==> r.error in {AuditFailed, CaptureFailed, UidsFailed, ExecuteFailed}
      ensures r.Err? ==>
          LeftEarly(Env(), old(Here()), e, |entries| == 3 && r.error == AuditFailed, k8s.state, k8s.calls)
    {
      var snapshot;
      snapshot, entries := TakeSnapshot(machine, e, f.captures);
      if snapshot.Err? {
        r, act, b := Err(snapshot.error), Unacted(action, e), NoProof(Here()).begin;
      } else {
        var target;
        ghost var st, k, before := k8s.state, k8s.calls, k8s.state;
        ghost var m := Here();
        FactsAfterSnapshot(Env(), old(Here()), e, f, m);
        target, entries, act, before, b := Proceed(
          machine, e, entries, old(audit.entries), f, old(audit.journal.events), old(audit.appends));
        if target.Err? && target.error != AuditFailed {
          OneCallBetween(k8s.others, old(k8s.state), old(k8s.calls), st, k, before, k8s.state, k8s.calls);
        }
        if target.Ok? {
          BeginsFromTheStart(Env(), old(Here()), e, m, b);
        }
        r := if target.Err? then Err(target.error) else Ok((snapshot.value, target.value));
      }
    }

    /** One attempt on a valid event. */
    method Attempt(e: DetectionEvent)
      returns (r: Result<Outcome, RemediateError>, entries: seq<AuditEntry>, ghost c: Course, ghost proof: Proof)
      requires audit.journal == k8s.journal && ValidEvent(e)
      modifies k8s, clock, audit, audit.journal
      ensures ErrorOf(r) == EndingIn(Env(), old(Here()), e, proof)
      ensures audit.journal.events == JournalIn(Env(), old(Here()), e, proof, old(audit.journal.events), c)
      ensures IsCourse(c, action, e) && (c.recovered <==> VerdictOf(Env(), proof) == Healthy)
      ensures Follows(entries, e, StagesOf(c)) && audit.entries == old(audit.entries) + entries
      ensures |entries| == EntriesIn(Env(), old(Here()), e, proof)
      ensures |entries| >= 4 ==> IsVerified(old(Here()), e, c, proof)
      ensures r.Ok? ==> |entries| >= 4 && IsReported(r.value, entries, e, c)
      ensures r.Ok? && c.recovered ==>
          Proves(proof, Env()) && r.value.mttr >= old(clock.now) + config.window - e.timestamp.value
      ensures Leaves(Env(), old(Here()), e, proof, ErrorOf(r), |entries|, c.recovered, k8s.state, k8s.calls)
    {
      ghost var m, f, log, k := Here(), EarlyFacts(Env(), Here(), e), audit.journal.events, audit.appends;
      var machine := new L.StateMachine();
      var prepared;
      ghost var act, b;
      prepared, entries, act, b := Prepare(machine, e, f);
      if prepared.Err? {
        PreparationIsCommon(entries, e);
        proof := NoProof(m);
        c := Unverified(act, DeploymentOf(e));
        r := Err(prepared.error);
        EarlyErrorDecides(Env(), m, e, f, proof, log, c, audit.refuses, k);
      } else {
        ghost var begun := audit.journal.events;
        k := audit.appends;
        r, entries, c, proof := Conclude(
          machine, e, prepared.value.0, prepared.value.1, entries, old(audit.entries), b, act);
        VerificationDecides(Env(), m, e, f, proof, prepared.value.0, log, c, begun, audit.refuses, k);
      }
    }

    /** The verification of an attempt that began at `m`, and the course it decided. */
    ghost predicate IsVerified(m: Moment, e: DetectionEvent, c: Course, p: Proof) {
      Began(Env(), m, e, p.begin) && Watched(Env(), p) && Courses(c, c.act, p)
    }

    /** One attempt. How it ends is decided by the facts it meets, each error by its own cause. What it asks for is
        the beginning of one script: a snapshot, the UIDs, one execution, the reads of the verification, and then
        either a recovery noted or one restore. The log keeps an entry for every append asked for but the one it
        refuses, and all of a lifecycle exactly when there is no error. A recovery is proved by a Pod that `Proves`
        describes; a rollback leaves the spec live that was live when the snapshot was taken. */
    method Remediate(e: DetectionEvent)
      returns (r: Result<Outcome, RemediateError>, entries: seq<AuditEntry>, ghost made: seq<Event>, ghost c: Course,
          ghost proof: Proof)
      requires audit.journal == k8s.journal
      modifies k8s, clock, audit, audit.journal
      ensures ErrorOf(r) == EndingIn(Env(), old(Here()), e, proof)
      ensures audit.journal.events == old(audit.journal.events) + made
      ensures IsTrail(made, e, c, ErrorOf(r)) && IsCourse(c, action, e)
      ensures Follows(entries, e, StagesOf(c)) && audit.entries == old(audit.entries) + entries
      ensures IsLogged(|entries|, made, c, ErrorOf(r))
      ensures |entries| >= 4 ==> IsVerified(old(Here()), e, c, proof)
      ensures r.Ok? ==> |entries| >= 4 && IsReported(r.value, entries, e, c)
      ensures r.Ok? && r.value.result == RolledBack ==> SpecIsBack(old(Captured(Env(), Here())), k8s.state,
          DeploymentOf(e))
      ensures r.Ok? && r.value.result == Recovered ==>
                Proves(proof, Env()) && (e.timestamp.value <= old(clock.now) ==> r.value.mttr >= config.window)
      ensures Leaves(Env(), old(Here()), e, proof, ErrorOf(r), |entries|, c.recovered, k8s.state, k8s.calls)
    {
      if !ValidEvent(e) {
        proof := NoProof(Here());
        c := Unverified(Unacted(action, e), DeploymentOf(e));
        r, entries, made := Err(InvalidEvent), [], [];
        OneCallOnly(k8s.others, k8s.state, k8s.calls);
      } else {
        r, entries, c, proof := Attempt(e);
        made := AttemptTrail(Env(), old(Here()), e, proof, old(audit.journal.events), c);
      }
    }
  }
}
