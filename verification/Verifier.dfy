/** The two-phase timed verification: wait for a ready replacement, then watch it for the whole window. */
module Verifier {
  import opened Basics
  import opened Cluster

  datatype Target = Target(originalPod: Ref, deployment: Ref, container: string, restartCount: int,
      preActionUids: Option<set<string>>)

  datatype Answer = Found(pod: Pod) | NotFound | Broken

  /** What a run of Verify meets. `resolve(i)` is the answer to the i-th call of the resolver, `get(i, ref)` the
      answer to a read of `ref` made as the i-th call to the cluster. Time stands still except that a wait takes
      at least its delay and the k-th clock reading finds the clock `lag(k)` further on. `cancelled(k)` tells
      whether the context ends during the k-th wait. */
  datatype World = World(
    start: Time,
    lag: nat -> nat,
    resolve: nat -> Answer,
    get: (nat, Ref) -> Option<Pod>,
    cancelled: nat -> bool)

  datatype Config = Config(readinessTimeout: Time, window: Time, pollInterval: Time)

  datatype Reason = NotReadyInTime | StatusGone | IdentityChanged | LostReady | RestartsGrew | PodGone | StayedReady

  datatype Verification = Verification(recovered: bool, reason: Reason, restartCount: int, podRef: Ref)

  datatype Error = BadConfig | ResolveFailed | Cancelled

  const NO_POD := Ref("", "")

  predicate ValidIdentity(t: Target) {
    && t.originalPod.name != "" && t.originalPod.namespace != ""
    && t.deployment.name != "" && t.deployment.namespace != ""
    && t.container != "" && t.restartCount >= 0
  }

  predicate ValidCall(cfg: Config, t: Target) {
    && ValidIdentity(t) && t.preActionUids.Some?
    && cfg.readinessTimeout > 0 && cfg.window > 0 && cfg.pollInterval > 0
  }

  function RefOf(p: Pod): Ref {
    Ref(p.namespace, p.name)
  }

  // ------------------------------------------------------------------- timing

  function FirstReading(w: World): Time {
    w.start + w.lag(0)
  }

  function ReadinessDeadline(w: World, cfg: Config): Time {
    FirstReading(w) + cfg.readinessTimeout
  }

  /** When the i-th poll for a ready Pod starts. */
  function PollTime(w: World, cfg: Config, i: nat): Time {
    if i == 0 then FirstReading(w)
    else
      var now := PollTime(w, cfg, i - 1) + w.lag(i);
      now + Min(cfg.pollInterval, ReadinessDeadline(w, cfg) - now)
  }

  /** The clock reading that follows the i-th poll. */
  function PollReading(w: World, cfg: Config, i: nat): Time {
    PollTime(w, cfg, i) + w.lag(i + 1)
  }

  function WindowEnd(w: World, cfg: Config, i: nat): Time {
    PollReading(w, cfg, i) + cfg.window
  }

  /** When the j-th check of the Pod found at poll i starts. */
  function CheckTime(w: World, cfg: Config, i: nat, j: nat): Time {
    if j == 0 then PollReading(w, cfg, i)
    else
      var now := CheckTime(w, cfg, i, j - 1) + w.lag(i + j + 1);
      now + Min(cfg.pollInterval, WindowEnd(w, cfg, i) - now)
  }

  function CheckReading(w: World, cfg: Config, i: nat, j: nat): Time {
    CheckTime(w, cfg, i, j) + w.lag(i + j + 2)
  }

  // ------------------------------------------------------------ specification

  predicate ReadyAt(w: World, t: Target, i: nat) {
    var a := w.resolve(i);
    a.Found? && PodReady(a.pod.conditions) && RestartCount(a.pod.statuses, t.container).Some?
  }

  predicate KeepsPolling(w: World, cfg: Config, t: Target, i: nat) {
    !w.resolve(i).Broken? && !ReadyAt(w, t, i) && PollReading(w, cfg, i) < ReadinessDeadline(w, cfg) && !w.cancelled(i)
  }

  predicate PolledBefore(w: World, cfg: Config, t: Target, i: nat) {
    forall k | 0 <= k < i :: KeepsPolling(w, cfg, t, k)
  }

  /** Poll i is the first ready one, and the deadline had not passed before. */
  predicate FirstReadyAt(w: World, cfg: Config, t: Target, i: nat) {
    PolledBefore(w, cfg, t, i) && ReadyAt(w, t, i)
  }

  /** What check j sees of the Pod found at poll i. */
  function Observed(w: World, i: nat, j: nat): Option<Pod>
    requires w.resolve(i).Found?
  {
    if j == 0 then Some(w.resolve(i).pod) else w.get(i + j, RefOf(w.resolve(i).pod))
  }

  /** Same Pod, still Ready, container still reported, no restart since it was found ready. */
  predicate SteadyAt(w: World, t: Target, i: nat, j: nat)
    requires ReadyAt(w, t, i)
  {
    var found := w.resolve(i).pod;
    var seen := Observed(w, i, j);
    && seen.Some? && seen.value.uid == found.uid && RefOf(seen.value) == RefOf(found)
    && PodReady(seen.value.conditions)
    && RestartCount(seen.value.statuses, t.container).Some?
    && RestartCount(seen.value.statuses, t.container).value <= RestartCount(found.statuses, t.container).value
  }

  predicate KeepsWatching(w: World, cfg: Config, t: Target, i: nat, j: nat)
    requires ReadyAt(w, t, i)
  {
    SteadyAt(w, t, i, j) && CheckReading(w, cfg, i, j) < WindowEnd(w, cfg, i) && !w.cancelled(i + j + 1)
  }

  predicate WatchedBefore(w: World, cfg: Config, t: Target, i: nat, n: nat)
    requires ReadyAt(w, t, i)
  {
    forall j | 0 <= j < n :: KeepsWatching(w, cfg, t, i, j)
  }

  /** Steady at every check up to the first one at or past the end of the window, which is check n. */
  predicate StableFor(w: World, cfg: Config, t: Target, i: nat, n: nat)
    requires ReadyAt(w, t, i)
  {
    WatchedBefore(w, cfg, t, i, n) && SteadyAt(w, t, i, n) && CheckReading(w, cfg, i, n) >= WindowEnd(w, cfg, i)
  }

  lemma SteadyThroughout(w: World, cfg: Config, t: Target, i: nat, n: nat, j: nat)
    requires ReadyAt(w, t, i) && StableFor(w, cfg, t, i, n) && j <= n
    ensures SteadyAt(w, t, i, j)
  {
    assert j < n ==> KeepsWatching(w, cfg, t, i, j);
  }

  /** How many polls and later reads a run makes: polling up to the first poll that does not keep polling, then,
      if that one was ready, reading up to the first check that does not keep watching. */
  predicate Ends(w: World, cfg: Config, t: Target, polls: nat, gets: nat) {
    && polls > 0 && PolledBefore(w, cfg, t, polls - 1) && !KeepsPolling(w, cfg, t, polls - 1)
    && if ReadyAt(w, t, polls - 1) then
         WatchedBefore(w, cfg, t, polls - 1, gets) && !KeepsWatching(w, cfg, t, polls - 1, gets)
       else gets == 0
  }

  ghost predicate Recovers(w: World, cfg: Config, t: Target) {
    exists i: nat, n: nat :: FirstReadyAt(w, cfg, t, i) && StableFor(w, cfg, t, i, n)
  }

  /** The resolver fails, or the context ends while waiting. */
  ghost predicate Fails(w: World, cfg: Config, t: Target) {
    || (exists i: nat :: PolledBefore(w, cfg, t, i) && FailsPolling(w, cfg, t, i))
    || (exists i: nat, n: nat :: FirstReadyAt(w, cfg, t, i) && FailsWatching(w, cfg, t, i, n))
  }

  predicate FailsPolling(w: World, cfg: Config, t: Target, i: nat) {
    w.resolve(i).Broken? || (!ReadyAt(w, t, i) && PollReading(w, cfg, i) < ReadinessDeadline(w, cfg) && w.cancelled(i))
  }

  predicate FailsWatching(w: World, cfg: Config, t: Target, i: nat, n: nat)
    requires ReadyAt(w, t, i)
  {
    && WatchedBefore(w, cfg, t, i, n)
    && SteadyAt(w, t, i, n) && CheckReading(w, cfg, i, n) < WindowEnd(w, cfg, i) && w.cancelled(i + n + 1)
  }

  function CeilDiv(a: int, b: int): int
    requires b > 0
  {
    (a + b - 1) / b
  }

  // ------------------------------------------------------------ implementation

  method Verify(w: World, cfg: Config, t: Target)
    returns (r: Result<Verification, Error>, finished: Time, polls: nat, gets: nat, readings: nat)
    ensures r.Ok? && r.value.recovered <==> ValidCall(cfg, t) && Recovers(w, cfg, t)
    ensures r.Err? <==> !ValidCall(cfg, t) || Fails(w, cfg, t)
    ensures r.Ok? && r.value.recovered ==>
              && polls > 0 && FirstReadyAt(w, cfg, t, polls - 1) && StableFor(w, cfg, t, polls - 1, gets)
              && r.value.podRef == RefOf(w.resolve(polls - 1).pod)
              && finished == CheckReading(w, cfg, polls - 1, gets) >= w.start + cfg.window
    ensures if ValidCall(cfg, t) then Ends(w, cfg, t, polls, gets) else polls == gets == 0
    ensures readings == ClockReadings(w, t, polls, gets)
    ensures ValidCall(cfg, t) ==> polls <= CeilDiv(cfg.readinessTimeout, cfg.pollInterval) + 1
    ensures ValidCall(cfg, t) ==> gets <= CeilDiv(cfg.window, cfg.pollInterval)
    ensures finished >= w.start
  {
    polls, gets, readings, finished := 0, 0, 0, w.start;
    if !ValidCall(cfg, t) {
      return Err(BadConfig), finished, polls, gets, readings;
    }
    var ready;
    ready, finished, polls, readings := AwaitReady(w, cfg, t);
    if ready.Err? {
      PollingDecides(w, cfg, t, polls - 1);
      return Err(ready.error), finished, polls, gets, readings;
    }
    if ready.value.None? {
      PollingDecides(w, cfg, t, polls - 1);
      return Ok(Verification(false, NotReadyInTime, 0, NO_POD)), finished, polls, gets, readings;
    }
    var stablePod := ready.value.value;
    r, finished, gets, readings := Watch(
      w, cfg, t, polls - 1, stablePod, RestartCount(stablePod.statuses, t.container).value);
    WatchingDecides(w, cfg, t, polls - 1, gets);
  }

  /** The first phase: poll until a ready replacement appears or the readiness deadline has passed. */
  method AwaitReady(w: World, cfg: Config, t: Target)
    returns (r: Result<Option<Pod>, Error>, finished: Time, polls: nat, readings: nat)
    requires ValidCall(cfg, t)
    ensures polls > 0 && PolledBefore(w, cfg, t, polls - 1) && !KeepsPolling(w, cfg, t, polls - 1)
    ensures r.Ok? && r.value.Some? <==> ReadyAt(w, t, polls - 1)
    ensures r.Ok? && r.value.Some? ==>
        r.value.value == w.resolve(polls - 1).pod && finished == PollTime(w, cfg, polls - 1)
    ensures r.Err? <==> FailsPolling(w, cfg, t, polls - 1)
    ensures readings == PollReadings(w, t, polls)
    ensures polls <= CeilDiv(cfg.readinessTimeout, cfg.pollInterval) + 1
    ensures finished >= w.start
  {
    polls, readings, finished := 0, 1, FirstReading(w);
    var readinessDeadline := finished + cfg.readinessTimeout;
    while true
      invariant w.start <= finished == PollTime(w, cfg, polls) <= readinessDeadline
      invariant PolledBefore(w, cfg, t, polls)
      invariant polls > 0 ==> PollReading(w, cfg, polls - 1) < readinessDeadline
      invariant readings == polls + 1
      decreases readinessDeadline - finished
    {
      PollsAreBounded(w, cfg, polls);
      var answer := w.resolve(polls);
      polls := polls + 1;
      if answer.Broken? {
        return Err(ResolveFailed), finished, polls, readings;
      }
      if answer.Found? && PodReady(answer.pod.conditions) && RestartCount(answer.pod.statuses, t.container).Some? {
        return Ok(Some(answer.pod)), finished, polls, readings;
      }
      var now := finished + w.lag(readings);
      readings := readings + 1;
      if now >= readinessDeadline {
        return Ok(None), now, polls, readings;
      }
      if w.cancelled(polls - 1) {
        return Err(Cancelled), now, polls, readings;
      }
      finished := now + Min(cfg.pollInterval, readinessDeadline - now);
    }
  }

  /** The second phase: the same Pod must stay steady until a check at or past the end of the window. */
  method Watch(w: World, cfg: Config, t: Target, i: nat, stablePod: Pod, baseline: int)
    returns (r: Result<Verification, Error>, finished: Time, gets: nat, readings: nat)
    requires ValidCall(cfg, t) && ReadyAt(w, t, i) && stablePod == w.resolve(i).pod
    requires RestartCount(stablePod.statuses, t.container) == Some(baseline)
    ensures r.Ok? && r.value.recovered ==>
              && StableFor(w, cfg, t, i, gets) && finished == CheckReading(w, cfg, i, gets)
              && r.value.podRef == RefOf(stablePod)
    ensures r.Ok? && !r.value.recovered ==> WatchBreaks(w, cfg, t, i, gets)
    ensures r.Err? ==> FailsWatching(w, cfg, t, i, gets)
    ensures readings == WatchReadings(w, t, i, gets)
    ensures gets <= CeilDiv(cfg.window, cfg.pollInterval)
    ensures finished >= PollTime(w, cfg, i)
  {
    gets, readings := 0, i + 2;
    finished := PollReading(w, cfg, i);
    ChecksAreBounded(w, cfg, i, 0);
    var deadline := finished + cfg.window;
    var current := Some(stablePod);
    while true
      invariant finished == CheckTime(w, cfg, i, gets) <= deadline && finished >= PollTime(w, cfg, i)
      invariant WatchedBefore(w, cfg, t, i, gets)
      invariant current == Observed(w, i, gets)
      invariant gets <= CeilDiv(cfg.window, cfg.pollInterval) && readings == i + gets + 2
      decreases deadline - finished
    {
      if current.None? {
        return Ok(Verification(false, PodGone, 0, RefOf(stablePod))), finished, gets, readings;
      }
      var pod := current.value;
      var restarts := RestartCount(pod.statuses, t.container);
      if restarts.None? {
        return Ok(Verification(false, StatusGone, 0, RefOf(pod))), finished, gets, readings;
      }
      if pod.uid != stablePod.uid || RefOf(pod) != RefOf(stablePod) {
        return Ok(Verification(false, IdentityChanged, restarts.value, RefOf(pod))), finished, gets, readings;
      }
      if !PodReady(pod.conditions) {
        return Ok(Verification(false, LostReady, restarts.value, RefOf(pod))), finished, gets, readings;
      }
      if restarts.value > baseline {
        return Ok(Verification(false, RestartsGrew, restarts.value, RefOf(pod))), finished, gets, readings;
      }
      var now := finished + w.lag(readings);
      readings := readings + 1;
      if now >= deadline {
        return Ok(Verification(true, StayedReady, restarts.value, RefOf(stablePod))), now, gets, readings;
      }
      if w.cancelled(i + gets + 1) {
        return Err(Cancelled), now, gets, readings;
      }
      assert KeepsWatching(w, cfg, t, i, gets);
      finished := now + Min(cfg.pollInterval, deadline - now);
      gets := gets + 1;
      ChecksAreBounded(w, cfg, i, gets);
      current := w.get(i + gets, RefOf(stablePod));
    }
  }

  /** How often the clock has been read when poll number `polls` ends the first phase: before the polling, and after
      every poll that neither failed nor found the Pod ready. */
  function PollReadings(w: World, t: Target, polls: nat): nat
    requires polls > 0
  {
    if w.resolve(polls - 1).Broken? || ReadyAt(w, t, polls - 1) then polls else polls + 1
  }

  /** The same when check `gets` of the Pod found at poll i ends the second phase: once more before the watch, and
      after every steady check. */
  function WatchReadings(w: World, t: Target, i: nat, gets: nat): nat
    requires ReadyAt(w, t, i)
  {
    i + gets + if SteadyAt(w, t, i, gets) then 3 else 2
  }

  /** How often a run of that many polls and reads has read the clock. */
  function ClockReadings(w: World, t: Target, polls: nat, gets: nat): nat {
    if polls == 0 then 0
    else if ReadyAt(w, t, polls - 1) then WatchReadings(w, t, polls - 1, gets)
    else PollReadings(w, t, polls)
  }

  /** Check n is the first that is not steady. */
  predicate WatchBreaks(w: World, cfg: Config, t: Target, i: nat, n: nat)
    requires ReadyAt(w, t, i)
  {
    WatchedBefore(w, cfg, t, i, n) && !SteadyAt(w, t, i, n)
  }

  // ------------------------------------------------------- one outcome per world

  /** Two polls cannot both be the first ready one, and no earlier poll ends the phase otherwise. */
  lemma FirstReadyIsUnique(w: World, cfg: Config, t: Target, i: nat, k: nat)
    requires FirstReadyAt(w, cfg, t, i) && PolledBefore(w, cfg, t, k) && !KeepsPolling(w, cfg, t, k)
    ensures i == k
  {
    assert KeepsPolling(w, cfg, t, i) || k <= i;
  }

  lemma WatchEndIsUnique(w: World, cfg: Config, t: Target, i: nat, n: nat, k: nat)
    requires ReadyAt(w, t, i)
    requires WatchedBefore(w, cfg, t, i, n) && !KeepsWatching(w, cfg, t, i, n)
    requires WatchedBefore(w, cfg, t, i, k) && !KeepsWatching(w, cfg, t, i, k)
    ensures n == k
  {
  }

  /** The poll that ends the first phase without a ready Pod decides the outcome. */
  lemma PollingDecides(w: World, cfg: Config, t: Target, k: nat)
    requires PolledBefore(w, cfg, t, k) && !KeepsPolling(w, cfg, t, k) && !ReadyAt(w, t, k)
    ensures !Recovers(w, cfg, t)
    ensures Fails(w, cfg, t) <==> FailsPolling(w, cfg, t, k)
  {
    forall i: nat | FirstReadyAt(w, cfg, t, i) ensures false {
      FirstReadyIsUnique(w, cfg, t, i, k);
    }
    forall i: nat | PolledBefore(w, cfg, t, i) && FailsPolling(w, cfg, t, i) ensures i == k {
      assert i < k ==> KeepsPolling(w, cfg, t, i);
      assert k < i ==> KeepsPolling(w, cfg, t, k);
    }
  }

  /** The check that ends the second phase decides the outcome. */
  lemma WatchingDecides(w: World, cfg: Config, t: Target, i: nat, n: nat)
    requires FirstReadyAt(w, cfg, t, i)
    requires WatchedBefore(w, cfg, t, i, n) && !KeepsWatching(w, cfg, t, i, n)
    ensures Recovers(w, cfg, t) <==> StableFor(w, cfg, t, i, n)
    ensures Fails(w, cfg, t) <==> FailsWatching(w, cfg, t, i, n)
  {
    forall k: nat, m: nat | FirstReadyAt(w, cfg, t, k) && StableFor(w, cfg, t, k, m) ensures k == i && m == n {
      FirstReadyIsUnique(w, cfg, t, k, i);
      WatchEndIsUnique(w, cfg, t, i, n, m);
    }
    forall k: nat, m: nat | FirstReadyAt(w, cfg, t, k) && FailsWatching(w, cfg, t, k, m) ensures k == i && m == n {
      FirstReadyIsUnique(w, cfg, t, k, i);
      WatchEndIsUnique(w, cfg, t, i, n, m);
    }
    forall k: nat | PolledBefore(w, cfg, t, k) && FailsPolling(w, cfg, t, k) ensures false {
      FirstReadyIsUnique(w, cfg, t, i, k);
    }
  }

  // --------------------------------------------------------------------- bounds

  lemma {:induction false} ProductsAreOrdered(a: nat, b: nat, p: nat)
    requires a <= b
    ensures a * p <= b * p
    decreases b - a
  {
    if a < b {
      ProductsAreOrdered(a, b - 1, p);
      assert b * p == (b - 1) * p + p;
    }
  }

  lemma CountBelowCeiling(n: nat, p: int, total: int)
    requires p > 0 && total > 0 && n * p < total
    ensures n + 1 <= CeilDiv(total, p)
  {
    var q := CeilDiv(total, p);
    assert q * p + (total + p - 1) % p == total + p - 1;
    if q <= n {
      ProductsAreOrdered(q, n, p);
    }
  }

  /** Every poll before the deadline costs a full interval. */
  lemma {:induction false} PollsTakeTheirTime(w: World, cfg: Config, i: nat)
    requires cfg.pollInterval > 0 && cfg.readinessTimeout > 0
    requires i == 0 || PollReading(w, cfg, i - 1) < ReadinessDeadline(w, cfg)
    ensures PollTime(w, cfg, i) >= Min(ReadinessDeadline(w, cfg), FirstReading(w) + i * cfg.pollInterval)
    decreases i
  {
    if i > 0 {
      var d := ReadinessDeadline(w, cfg);
      assert PollTime(w, cfg, i - 1) <= PollReading(w, cfg, i - 1) < d;
      PollsTakeTheirTime(w, cfg, i - 1);
      assert i * cfg.pollInterval == (i - 1) * cfg.pollInterval + cfg.pollInterval;
    }
  }

  lemma PollsAreBounded(w: World, cfg: Config, n: nat)
    requires cfg.pollInterval > 0 && cfg.readinessTimeout > 0
    requires n == 0 || PollReading(w, cfg, n - 1) < ReadinessDeadline(w, cfg)
    ensures n <= CeilDiv(cfg.readinessTimeout, cfg.pollInterval)
  {
    if n > 0 {
      assert n == 1 || PollReading(w, cfg, n - 2) < ReadinessDeadline(w, cfg);
      PollsTakeTheirTime(w, cfg, n - 1);
      CountBelowCeiling(n - 1, cfg.pollInterval, cfg.readinessTimeout);
    }
  }

  lemma {:induction false} ChecksTakeTheirTime(w: World, cfg: Config, i: nat, j: nat)
    requires cfg.pollInterval > 0 && cfg.window > 0
    requires j == 0 || CheckReading(w, cfg, i, j - 1) < WindowEnd(w, cfg, i)
    ensures CheckTime(w, cfg, i, j) >= Min(WindowEnd(w, cfg, i), PollReading(w, cfg, i) + j * cfg.pollInterval)
    decreases j
  {
    if j > 0 {
      assert CheckTime(w, cfg, i, j - 1) <= CheckReading(w, cfg, i, j - 1) < WindowEnd(w, cfg, i);
      ChecksTakeTheirTime(w, cfg, i, j - 1);
      assert j * cfg.pollInterval == (j - 1) * cfg.pollInterval + cfg.pollInterval;
    }
  }

  lemma ChecksAreBounded(w: World, cfg: Config, i: nat, n: nat)
    requires cfg.pollInterval > 0 && cfg.window > 0
    requires n == 0 || CheckReading(w, cfg, i, n - 1) < WindowEnd(w, cfg, i)
    ensures n <= CeilDiv(cfg.window, cfg.pollInterval)
  {
    if n > 0 {
      assert n == 1 || CheckReading(w, cfg, i, n - 2) < WindowEnd(w, cfg, i);
      ChecksTakeTheirTime(w, cfg, i, n - 1);
      CountBelowCeiling(n - 1, cfg.pollInterval, cfg.window);
    }
  }

  ghost predicate WaitsAreExact(w: World) {
    forall k :: w.lag(k) == 0
  }

  /** When every wait takes exactly its delay, recovery is reported exactly one window after the Pod was found
      ready, and at most the two timeouts after the call. */
  lemma RecoveryIsPunctual(w: World, cfg: Config, t: Target, i: nat, n: nat)
    requires ValidCall(cfg, t) && FirstReadyAt(w, cfg, t, i) && StableFor(w, cfg, t, i, n) && WaitsAreExact(w)
    ensures CheckReading(w, cfg, i, n) == PollTime(w, cfg, i) + cfg.window
    ensures CheckReading(w, cfg, i, n) <= w.start + cfg.readinessTimeout + cfg.window
  {
    if i > 0 {
      assert KeepsPolling(w, cfg, t, i - 1);
    }
    if n > 0 {
      assert KeepsWatching(w, cfg, t, i, n - 1);
    }
  }
}
