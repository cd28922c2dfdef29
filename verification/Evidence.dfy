/** What a decision is made from: the tail of the crashed container's log and the recent events. */
module Evidence {
  import opened Basics
  import opened Sorting
  import opened Text

  const MAX_LOG: nat := 4096
  const EVENT_WINDOW: Time := 30 * MINUTE
  const MAX_EVENTS: nat := 25

  // ------------------------------------------------------------------------ events

  /** A Kubernetes Event; a zero timestamp is None, `text` stands for what is printed of it. */
  datatype KubeEvent = KubeEvent(
    uid: string, lastTimestamp: Option<Time>, eventTime: Option<Time>, firstTimestamp: Option<Time>, createdAt: Time,
        text: string)

  datatype OwnerKind = ReplicaSetKind | DeploymentKind | AnotherKind(word: string)

  datatype OwnerRef = OwnerRef(kind: OwnerKind, name: string)

  function EventTime(e: KubeEvent): Time {
    if e.lastTimestamp.Some? then e.lastTimestamp.value
    else if e.eventTime.Some? then e.eventTime.value
    else e.firstTimestamp.GetOr(e.createdAt)
  }

  predicate InWindow(e: KubeEvent, now: Time) {
    now - EventTime(e) <= EVENT_WINDOW
  }

  /** The age printed with an event: whole seconds, never negative. */
  function Age(e: KubeEvent, now: Time): Time {
    if now <= EventTime(e) then 0 else (now - EventTime(e)) / SECOND * SECOND
  }

  /** The names events are looked up under: the Pod, its ReplicaSets and the owning Deployment. */
  ghost predicate AreNames(names: seq<string>, podName: string, refs: seq<OwnerRef>, owner: string) {
    && names != [] && names[0] == podName
    && forall n :: n in names <==> n == podName || (n == owner && owner != "") || OwnerRef(ReplicaSetKind, n) in refs
  }

  method ObjectNames(podName: string, refs: seq<OwnerRef>, owner: string) returns (names: seq<string>)
    ensures AreNames(names, podName, refs, owner)
  {
    names := [podName];
    for i := 0 to |refs|
      invariant names != [] && names[0] == podName
      invariant forall n :: n in names <==> n == podName || OwnerRef(ReplicaSetKind, n) in refs[..i]
    {
      assert refs[..i + 1] == refs[..i] + [refs[i]];
      if refs[i].kind == ReplicaSetKind {
        names := names + [refs[i].name];
      }
    }
    assert refs[..|refs|] == refs;
    if owner != "" {
      names := names + [owner];
    }
  }

  /** What the i-th listing, for the i-th name, answered; None is a failure. */
  type Lister = (nat, string) -> Option<seq<KubeEvent>>

  /** Everything the first n listings returned, in order. */
  function Listed(list: Lister, names: seq<string>, n: nat): seq<KubeEvent>
    requires n <= |names|
  {
    if n == 0 then [] else Listed(list, names, n - 1) + list(n - 1, names[n - 1]).GetOr([])
  }

  /** The k-th listed event is recent and the first recent one with its UID. */
  predicate IsFirst(listed: seq<KubeEvent>, now: Time, k: nat)
    requires k < |listed|
  {
    InWindow(listed[k], now) && forall i | 0 <= i < k :: listed[i].uid == listed[k].uid ==> !InWindow(listed[i], now)
  }

  predicate IsCandidate(listed: seq<KubeEvent>, now: Time, e: KubeEvent) {
    exists k :: 0 <= k < |listed| && listed[k] == e && IsFirst(listed, now, k)
  }

  /** The UIDs that have a recent event. */
  function RecentUids(listed: seq<KubeEvent>, now: Time): set<string> {
    set e | e in listed && InWindow(e, now) :: e.uid
  }

  predicate DistinctUids(s: seq<KubeEvent>) {
    forall i, j | 0 <= i < j < |s| :: s[i].uid != s[j].uid
  }

  function Uids(s: seq<KubeEvent>): set<string> {
    set e | e in s :: e.uid
  }

  /** `collected` holds exactly one event for every UID that has a recent one, namely the first. */
  predicate IsCollection(collected: seq<KubeEvent>, listed: seq<KubeEvent>, now: Time) {
    && DistinctUids(collected) && Uids(collected) == RecentUids(listed, now)
    && forall e <- collected :: IsCandidate(listed, now, e)
  }

  lemma CollectionGrows(collected: seq<KubeEvent>, listed: seq<KubeEvent>, now: Time, item: KubeEvent)
    requires IsCollection(collected, listed, now)
    ensures var skip := item.uid in Uids(collected) || !InWindow(item, now);
            IsCollection(if skip then collected else collected + [item], listed + [item], now)
  {
    var listed' := listed + [item];
    var n := |listed|;
    forall e <- collected ensures IsCandidate(listed', now, e) {
      var k :| 0 <= k < n && listed[k] == e && IsFirst(listed, now, k);
      assert listed'[k] == e && IsFirst(listed', now, k);
    }
    assert RecentUids(listed', now) == RecentUids(listed, now) + if InWindow(item, now) then {item.uid} else {};
    if InWindow(item, now) && item.uid !in Uids(collected) {
      var collected' := collected + [item];
      forall i | 0 <= i < |collected| ensures collected[i].uid != item.uid {
        assert collected[i] in collected;
      }
      forall i | 0 <= i < n && listed'[i].uid == item.uid ensures !InWindow(listed'[i], now) {
        assert listed[i] in listed && listed[i].uid !in RecentUids(listed, now);
      }
      assert listed'[n] == item && IsFirst(listed', now, n);
      assert Uids(collected') == Uids(collected) + {item.uid};
    }
  }

  /** Adds the candidates of one listing. */
  method AddCandidates(items: seq<KubeEvent>, now: Time, earlier: seq<KubeEvent>, known: set<string>,
      ghost listed: seq<KubeEvent>)
    returns (collected: seq<KubeEvent>, seen: set<string>)
    requires known == Uids(earlier) && IsCollection(earlier, listed, now)
    ensures seen == Uids(collected) && IsCollection(collected, listed + items, now)
  {
    collected, seen := earlier, known;
    assert listed + items[..0] == listed;
    for i := 0 to |items|
      invariant seen == Uids(collected)
      invariant IsCollection(collected, listed + items[..i], now)
    {
      var item := items[i];
      CollectionGrows(collected, listed + items[..i], now, item);
      assert listed + items[..i] + [item] == listed + items[..i + 1];
      if item.uid in seen {
        continue;
      }
      if !InWindow(item, now) {
        continue;
      }
      seen := seen + {item.uid};
      collected := collected + [item];
    }
    assert items[..|items|] == items;
  }

  method CollectCandidates(list: Lister, names: seq<string>, now: Time) returns (collected: seq<KubeEvent>)
    ensures IsCollection(collected, Listed(list, names, |names|), now)
  {
    var seen: set<string> := {};
    collected := [];
    for n := 0 to |names|
      invariant seen == Uids(collected)
      invariant IsCollection(collected, Listed(list, names, n), now)
    {
      var items := list(n, names[n]);
      if items.None? {
        assert Listed(list, names, n + 1) == Listed(list, names, n);
        continue;
      }
      collected, seen := AddCandidates(items.value, now, collected, seen, Listed(list, names, n));
    }
  }

  predicate EarlierFirst(a: KubeEvent, b: KubeEvent) {
    EventTime(a) <= EventTime(b)
  }

  /** The simple specification: among one event per recent UID the newest 25, oldest first. */
  ghost predicate IsNewest(kept: seq<KubeEvent>, listed: seq<KubeEvent>, now: Time) {
    && DistinctUids(kept) && Sorted(kept, EarlierFirst)
    && |kept| == Min(MAX_EVENTS, |RecentUids(listed, now)|)
    && (forall e <- kept :: IsCandidate(listed, now, e))
    && (forall e, k | IsCandidate(listed, now, e) && e !in kept && k in kept :: EventTime(e) <= EventTime(k))
  }

  lemma {:induction false} DistinctUidsCount(s: seq<KubeEvent>)
    requires DistinctUids(s)
    ensures |Uids(s)| == |s|
  {
    if s != [] {
      DistinctUidsCount(s[1..]);
      assert Uids(s) == Uids(s[1..]) + {s[0].uid};
      assert forall e <- s[1..] :: e.uid != s[0].uid;
    }
  }

  /** The candidate of a UID is unique, so a collection holds all of them. */
  lemma CandidatesAreCollected(collected: seq<KubeEvent>, listed: seq<KubeEvent>, now: Time, e: KubeEvent)
    requires IsCollection(collected, listed, now) && IsCandidate(listed, now, e)
    ensures e in collected
  {
    assert e.uid in RecentUids(listed, now);
    var c :| c in collected && c.uid == e.uid;
    var j :| 0 <= j < |listed| && listed[j] == c && IsFirst(listed, now, j);
    var k :| 0 <= k < |listed| && listed[k] == e && IsFirst(listed, now, k);
  }

  lemma PermutationKeepsCollection(s: seq<KubeEvent>, sorted: seq<KubeEvent>, listed: seq<KubeEvent>, now: Time)
    requires IsCollection(s, listed, now) && multiset(sorted) == multiset(s)
    ensures IsCollection(sorted, listed, now) && |sorted| == |s|
  {
    assert |sorted| == |multiset(sorted)| == |multiset(s)|;
    assert forall e :: e in sorted <==> e in multiset(sorted);
    assert Uids(sorted) == Uids(s);
    DistinctUidsCount(s);
    CountDistinct(sorted);
  }

  /** As many UIDs as events means that no two share one. */
  lemma {:induction false} CountDistinct(s: seq<KubeEvent>)
    ensures |Uids(s)| <= |s|
    ensures |Uids(s)| == |s| ==> DistinctUids(s)
  {
    if s != [] {
      CountDistinct(s[1..]);
      assert Uids(s) == Uids(s[1..]) + {s[0].uid};
      if |Uids(s)| == |s| {
        assert s[0].uid !in Uids(s[1..]);
        forall j | 0 < j < |s| ensures s[j].uid != s[0].uid {
          assert s[j] in s[1..];
        }
        forall i, j | 0 <= i < j < |s| ensures s[i].uid != s[j].uid {
          assert i > 0 ==> s[i] == s[1..][i - 1] && s[j] == s[1..][j - 1];
        }
      }
    }
  }

  lemma LastAreNewest(sorted: seq<KubeEvent>, listed: seq<KubeEvent>, now: Time)
    requires IsCollection(sorted, listed, now) && Sorted(sorted, EarlierFirst)
    ensures IsNewest(sorted[|sorted| - Min(MAX_EVENTS, |sorted|)..], listed, now)
  {
    var from := |sorted| - Min(MAX_EVENTS, |sorted|);
    var kept := sorted[from..];
    DistinctUidsCount(sorted);
    forall m | from <= m < |sorted| ensures sorted[m] in kept {
      assert kept[m - from] == sorted[m];
    }
    forall e, k | IsCandidate(listed, now, e) && e !in kept && k in kept ensures EventTime(e) <= EventTime(k) {
      CandidatesAreCollected(sorted, listed, now, e);
      var i :| 0 <= i < |sorted| && sorted[i] == e;
      var j :| 0 <= j < |kept| && kept[j] == k;
      assert EarlierFirst(sorted[i], sorted[from + j]);
    }
  }

  method NewestCandidates(list: Lister, names: seq<string>, now: Time) returns (kept: seq<KubeEvent>)
    ensures IsNewest(kept, Listed(list, names, |names|), now)
  {
    ghost var listed := Listed(list, names, |names|);
    var collected := CollectCandidates(list, names, now);
    var sorted := Sort(collected, EarlierFirst);
    SortSorts(collected, EarlierFirst);
    PermutationKeepsCollection(collected, sorted, listed, now);
    LastAreNewest(sorted, listed, now);
    kept := sorted;
    if |kept| > MAX_EVENTS {
      kept := kept[|kept| - MAX_EVENTS..];
    }
  }

  /** One line for each kept event, in their order. */
  predicate AreRendered(lines: seq<string>, kept: seq<KubeEvent>, now: Time, render: (Time, KubeEvent) -> string) {
    |lines| == |kept| && forall i | 0 <= i < |kept| :: lines[i] == render(Age(kept[i], now), kept[i])
  }

  /** `render` prints an event and its age as one line. */
  method CollectEvents(list: Lister, names: seq<string>, now: Time, render: (Time, KubeEvent) -> string)
    returns (formatted: seq<string>)
    ensures exists kept ::
        IsNewest(kept, Listed(list, names, |names|), now) && AreRendered(formatted, kept, now, render)
    ensures |formatted| <= MAX_EVENTS
  {
    var collected := NewestCandidates(list, names, now);
    formatted := [];
    for i := 0 to |collected|
      invariant |formatted| == i
      invariant forall j | 0 <= j < i :: formatted[j] == render(Age(collected[j], now), collected[j])
    {
      formatted := formatted + [render(Age(collected[i], now), collected[i])];
    }
    assert AreRendered(formatted, collected, now, render);
  }

  /** No event a decision sees is older than half an hour. */
  lemma KeptAreRecent(kept: seq<KubeEvent>, listed: seq<KubeEvent>, now: Time, e: KubeEvent)
    requires IsNewest(kept, listed, now) && e in kept
    ensures e in listed && 0 <= Age(e, now) <= EVENT_WINDOW && Age(e, now) % SECOND == 0
  {
  }

  /** The newest 25 do not depend on what is kept beside them: a newer recent event always displaces an older one. */
  lemma NewestRecentIsKept(kept: seq<KubeEvent>, listed: seq<KubeEvent>, now: Time, e: KubeEvent)
    requires IsNewest(kept, listed, now) && IsCandidate(listed, now, e)
    requires forall c | IsCandidate(listed, now, c) && c != e :: EventTime(c) < EventTime(e)
    ensures kept != [] && kept[|kept| - 1] == e
  {
    assert e.uid in RecentUids(listed, now);
    assert |RecentUids(listed, now)| > 0;
    var last := kept[|kept| - 1];
    assert last in kept && IsCandidate(listed, now, last);
    if e in kept {
      var i :| 0 <= i < |kept| && kept[i] == e;
      assert i < |kept| - 1 ==> EarlierFirst(kept[i], last);
    }
  }

  // -------------------------------------------------------------------------- logs

  const MARKER := "...[truncated]...\n"

  function TruncateTail(s: string, max: nat): string {
    if |s| <= max then s else MARKER + s[|s| - max..]
  }

  predicate IsSuffix(tail: string, s: string) {
    |tail| <= |s| && s[|s| - |tail|..] == tail
  }

  lemma TailIsKept(s: string, max: nat)
    ensures |TruncateTail(s, max)| <= |MARKER| + max
    ensures IsSuffix(TruncateTail(s, max)[|TruncateTail(s, max)| - Min(max, |s|)..], s)
    ensures |s| <= max ==> TruncateTail(s, max) == s
  {
  }

  /** The crashed instance's log if it says anything, the current instance's otherwise; `tail(true)` is the
      crashed one and None a failed read. */
  function ChosenLog(tail: bool -> Option<string>): string {
    var previous := tail(true).GetOr("");
    if TrimSpace(previous) != "" then previous else tail(false).GetOr("")
  }

  method CollectLogs(tail: bool -> Option<string>) returns (logs: string)
    ensures logs == TruncateTail(ChosenLog(tail), MAX_LOG)
  {
    var out := tail(true);
    if out.Some? && TrimSpace(out.value) != "" {
      return TruncateTail(out.value, MAX_LOG);
    }
    assert TrimSpace("") == "";
    var current := tail(false);
    if current.None? {
      return "";
    }
    return TruncateTail(current.value, MAX_LOG);
  }

  /** Where the evidence comes from: the two logs, the event listings, the clock and the printing of an event. */
  datatype Sources = Sources(tail: bool -> Option<string>, list: Lister, now: Time, render: (Time, KubeEvent) -> string)

  /** The evidence of an incident: the tail of the log that tells most, and the newest recent events under the names. */
  ghost predicate IsEvidence(logs: string, events: seq<string>, src: Sources, podName: string, refs: seq<OwnerRef>,
      owner: string) {
    && logs == TruncateTail(ChosenLog(src.tail), MAX_LOG)
    && exists names, kept ::
         && AreNames(names, podName, refs, owner) && IsNewest(kept, Listed(src.list, names, |names|), src.now)
         && AreRendered(events, kept, src.now, src.render)
  }

  method Collect(src: Sources, podName: string, refs: seq<OwnerRef>, owner: string) returns (logs: string,
      events: seq<string>)
    ensures IsEvidence(logs, events, src, podName, refs, owner) && |logs| <= |MARKER| + MAX_LOG
        && |events| <= MAX_EVENTS
  {
    var names := ObjectNames(podName, refs, owner);
    logs := CollectLogs(src.tail);
    TailIsKept(ChosenLog(src.tail), MAX_LOG);
    events := CollectEvents(src.list, names, src.now, src.render);
  }
}
