/** The two remediation actions. */
module Actions {
  import opened Basics
  import opened Cluster
  import opened Sorting

  datatype DetectionEvent = DetectionEvent(
    podName: string, namespace: string, container: string, restartCount: int, ownerDeployment: string,
    timestamp: Option<Time>, incidentId: string, attempt: int)

  datatype Action = RestartPod | RolloutUndo

  function ActionName(a: Action): string {
    match a
    case RestartPod => "restart_pod"
    case RolloutUndo => "rollout_undo"
  }

  /** The one object an action may change. */
  datatype Object = PodObject(ref: Ref) | DeploymentObject(ref: Ref)

  function Touches(a: Action, e: DetectionEvent): Object {
    match a
    case RestartPod => PodObject(Ref(e.namespace, e.podName))
    case RolloutUndo => DeploymentObject(Ref(e.namespace, e.ownerDeployment))
  }

  datatype ActionError = Api(error: ApiError) | NoOwner | NoSelector | NoPriorRevision

  // ---------------------------------------------------------------- rollout undo

  /** An unreadable current revision counts as 0. */
  function CurrentRevision(d: Deployment): int {
    if d.revision.Number? then d.revision.n else 0
  }

  /** A ReplicaSet the undo may go back to: controlled by this very Deployment, of a strictly older revision. */
  predicate IsPrior(d: Deployment, rs: ReplicaSet) {
    IsControlledBy(rs, d) && rs.revision.Number? && rs.revision.n < CurrentRevision(d)
  }

  /** `rs` is an undo target among `list`: prior, and no prior one is newer. */
  predicate IsUndoTarget(list: seq<ReplicaSet>, d: Deployment, rs: ReplicaSet) {
    && rs in list && IsPrior(d, rs)
    && forall other <- list :: IsPrior(d, other) ==> other.revision.n <= rs.revision.n
  }

  predicate NewerRevisionFirst(a: ReplicaSet, b: ReplicaSet) {
    RevisionOf(a) >= RevisionOf(b)
  }

  function RevisionOf(rs: ReplicaSet): int {
    if rs.revision.Number? then rs.revision.n else 0
  }

  method PriorReplicaSet(list: seq<ReplicaSet>, d: Deployment) returns (target: Option<ReplicaSet>)
    ensures target.None? <==> forall rs <- list :: !IsPrior(d, rs)
    ensures target.Some? ==> IsUndoTarget(list, d, target.value)
  {
    var prior: seq<ReplicaSet> := [];
    for i := 0 to |list|
      invariant forall rs :: rs in prior <==> rs in list[..i] && IsPrior(d, rs)
    {
      assert list[..i + 1] == list[..i] + [list[i]];
      if !IsControlledBy(list[i], d) || !list[i].revision.Number? || list[i].revision.n >= CurrentRevision(d) {
        continue;
      }
      prior := prior + [list[i]];
    }
    assert list[..|list|] == list;
    if |prior| == 0 {
      forall rs <- list ensures !IsPrior(d, rs) {
        assert rs !in prior;
      }
      return None;
    }
    var sorted := Sort(prior, NewerRevisionFirst);
    SortSorts(prior, NewerRevisionFirst);
    SortKeepsElements(prior, NewerRevisionFirst);
    assert sorted[0] in sorted;
    forall rs <- list | IsPrior(d, rs) ensures rs.revision.n <= sorted[0].revision.n {
      assert rs in prior && rs in sorted;
      var k :| 0 <= k < |sorted| && sorted[k] == rs;
      assert k == 0 || NewerRevisionFirst(sorted[0], sorted[k]);
    }
    return Some(sorted[0]);
  }

  /** What stops an undo that starts as call k in state `st`: nothing, exactly when the owner is named and can
      be read, has a selector and a prior ReplicaSet, and is written before anybody else touches it. */
  function UndoObstacle(others: Others, fails: nat -> bool, st: State, k: nat, e: DetectionEvent): Option<ActionError> {
    var ref := Ref(e.namespace, e.ownerDeployment);
    var first := others(k, st);
    var second := others(k + 1, first);
    var third := others(k + 2, second);
    if e.ownerDeployment == "" then Some(NoOwner)
    else if fails(k) then Some(Api(Unavailable))
    else if ref !in first.deployments then Some(Api(Missing))
    else if !Selects(first, ref) then Some(NoSelector)
    else if fails(k + 1) then Some(Api(Unavailable))
    else if !HasPrior(UndoList(first, second, ref), first.deployments[ref]) then Some(NoPriorRevision)
    else if fails(k + 2) then Some(Api(Unavailable))
    else if ref !in third.deployments then Some(Api(Missing))
    else if third.deployments[ref] != first.deployments[ref] then Some(Api(Conflict))
    else None
  }

  predicate HasPrior(list: seq<ReplicaSet>, d: Deployment) {
    exists rs <- list :: IsPrior(d, rs)
  }

  /** The calls of an undo. */
  function UndoCalls(e: DetectionEvent, moved: bool): seq<Event> {
    var ref := Ref(e.namespace, e.ownerDeployment);
    [ReadDeployment(ref), ListedReplicaSets(e.namespace), WroteSpec(ref, moved)]
  }

  /** Reverts the Deployment's template to the newest prior revision, and changes nothing else. */
  method RolloutUndoDeployment(k8s: ApiServer, e: DetectionEvent) returns (r: Result<ReplicaSet, ActionError>,
      ghost made: seq<Event>)
    modifies k8s, k8s.journal
    ensures (if r.Ok? then None else Some(r.error)) == UndoObstacle(k8s.others, k8s.fails, old(k8s.state),
        old(k8s.calls), e)
    ensures k8s.journal.events == old(k8s.journal.events) + made && k8s.calls == old(k8s.calls) + |made|
    ensures made <= UndoCalls(e, true) || made <= UndoCalls(e, false)
    ensures var ref := Ref(e.namespace, e.ownerDeployment);
            var first := Disturbed(k8s.others, old(k8s.calls), old(k8s.state));
            var second := Disturbed(k8s.others, old(k8s.calls) + 1, first);
            var third := Disturbed(k8s.others, old(k8s.calls) + 2, second);
            r.Ok? ==>
              && |made| == 3 && Selects(first, ref) && IsUndoTarget(UndoList(first, second, ref),
                  first.deployments[ref], r.value)
              && ref in third.deployments && third.deployments[ref] == first.deployments[ref]
              && k8s.state == Cluster.WriteSpec(third, ref, third.deployments[ref].spec.(template := r.value.template))
    ensures r.Err? ==> OnlyOthersActed(k8s.others, old(k8s.state), old(k8s.calls), k8s.state, k8s.calls)
  {
    made := [];
    if e.ownerDeployment == "" {
      return Err(NoOwner), made;
    }
    var ref := Ref(e.namespace, e.ownerDeployment);
    var read := k8s.GetDeployment(ref);
    made := UndoCalls(e, false)[..1];
    assert k8s.state == Drift(k8s.others, old(k8s.state), old(k8s.calls), 1);
    if read.Err? {
      return Err(Api(read.error)), made;
    }
    if read.value.spec.selector.None? {
      return Err(NoSelector), made;
    }
    var list := k8s.GetReplicaSets(e.namespace, read.value.spec.selector.value);
    made := UndoCalls(e, false)[..2];
    assert k8s.state == Drift(k8s.others, old(k8s.state), old(k8s.calls), 2);
    if list.Err? {
      return Err(Api(list.error)), made;
    }
    var target := PriorReplicaSet(list.value, read.value);
    if target.None? {
      return Err(NoPriorRevision), made;
    }
    var failed := k8s.UpdateSpec(ref, read.value, read.value.spec.(template := target.value.template));
    made := UndoCalls(e, failed == None && target.value.template != read.value.spec.template);
    if failed.Some? {
      assert k8s.state == Drift(k8s.others, old(k8s.state), old(k8s.calls), 3);
      return Err(Api(failed.value)), made;
    }
    return Ok(target.value), made;
  }

  predicate Selects(st: State, ref: Ref) {
    ref in st.deployments && st.deployments[ref].spec.selector.Some?
  }

  function UndoList(read: State, listed: State, ref: Ref): seq<ReplicaSet>
    requires Selects(read, ref)
  {
    ListReplicaSets(listed, ref.namespace, read.deployments[ref].spec.selector.value)
  }

  /** Between the two moments nobody but the others changed the cluster. */
  ghost predicate OnlyOthersActed(others: Others, st: State, k: nat, st': State, k': nat) {
    k <= k' && st' == Drift(others, st, k, k' - k)
  }

  lemma {:induction false} OthersCompose(others: Others, st: State, k: nat, n: nat, m: nat)
    ensures Drift(others, Drift(others, st, k, n), k + n, m) == Drift(others, st, k, n + m)
  {
    if m > 0 {
      OthersCompose(others, st, k, n, m - 1);
    }
  }

  lemma OneCallOnly(others: Others, st: State, k: nat)
    ensures OnlyOthersActed(others, st, k, st, k) && OnlyOthersActed(others, st, k, others(k, st), k + 1)
  {
    assert Drift(others, st, k, 0) == st && Drift(others, st, k, 1) == others(k, st);
  }

  lemma OnlyOthersCompose(others: Others, st: State, k: nat, mid: State, j: nat, st': State, k': nat)
    requires OnlyOthersActed(others, st, k, mid, j) && OnlyOthersActed(others, mid, j, st', k')
    ensures OnlyOthersActed(others, st, k, st', k')
  {
    OthersCompose(others, st, k, j - k, k' - j);
  }

  lemma OneCallBetween(others: Others, st: State, k: nat, mid: State, j: nat, before: State, st': State, k': nat)
    requires OnlyOthersActed(others, st, k, mid, j) && before == Disturbed(others, j, mid)
    requires OnlyOthersActed(others, before, j + 1, st', k')
    ensures OnlyOthersActed(others, st, k, st', k')
  {
    OneCallOnly(others, mid, j);
    OnlyOthersCompose(others, mid, j, before, j + 1, st', k');
    OnlyOthersCompose(others, st, k, mid, j, st', k');
  }

  // ----------------------------------------------------------------- restart pod

  /** What stops a restart that starts as call k in state `st`: only a failing call. */
  function RestartObstacle(others: Others, fails: nat -> bool, st: State, k: nat,
      e: DetectionEvent): Option<ActionError> {
    if fails(k) || (FindPod(others(k, st).pods, Ref(e.namespace, e.podName)).Some? && fails(k + 1))
        then Some(Api(Unavailable))
    else None
  }

  function RestartCalls(e: DetectionEvent): seq<Event> {
    [ReadPod(Ref(e.namespace, e.podName)), DeletedPod(Ref(e.namespace, e.podName))]
  }

  /** Deletes the crashing Pod; a Pod already gone is a success. Nothing else changes. */
  method RestartCrashingPod(k8s: ApiServer, e: DetectionEvent) returns (r: Option<ActionError>, ghost made: seq<Event>)
    modifies k8s, k8s.journal
    ensures r == RestartObstacle(k8s.others, k8s.fails, old(k8s.state), old(k8s.calls), e)
    ensures k8s.journal.events == old(k8s.journal.events) + made && k8s.calls == old(k8s.calls) + |made|
    ensures made != [] && made <= RestartCalls(e)
    ensures var ref := Ref(e.namespace, e.podName);
            var first := Disturbed(k8s.others, old(k8s.calls), old(k8s.state));
            var second := Disturbed(k8s.others, old(k8s.calls) + 1, first);
            r == None ==>
              || (FindPod(first.pods, ref).None? && k8s.state == first && |made| == 1)
              || (FindPod(first.pods, ref).Some? && k8s.state == second.(pods := Terminate(second.pods, ref))
                  && |made| == 2)
    ensures r.Some? ==> OnlyOthersActed(k8s.others, old(k8s.state), old(k8s.calls), k8s.state, k8s.calls)
  {
    var ref := Ref(e.namespace, e.podName);
    var pod := k8s.GetPod(ref);
    made := RestartCalls(e)[..1];
    assert k8s.state == Drift(k8s.others, old(k8s.state), old(k8s.calls), 1);
    if pod.Err? {
      return if pod.error == Missing then None else Some(Api(pod.error)), made;
    }
    var failed := k8s.DeletePod(ref);
    made := RestartCalls(e);
    if failed.Some? {
      assert failed == Some(Missing) || k8s.state == Drift(k8s.others, old(k8s.state), old(k8s.calls), 2);
      TerminateAbsent(k8s.state.pods, ref);
    }
    return if failed == None || failed == Some(Missing) then None else Some(Api(failed.value)), made;
  }

  lemma TerminateAbsent(pods: seq<Pod>, ref: Ref)
    ensures FindPod(pods, ref).None? ==> Terminate(pods, ref) == pods
  {
    if FindPod(pods, ref).None? {
      forall k | 0 <= k < |pods| ensures Terminate(pods, ref)[k] == pods[k] {
        assert pods[k] in pods;
      }
    }
  }

  /** What a successful action leaves, started as call k in state `st`. The Pod was gone already or is now marked
      for deletion; the Deployment has the template of an undo target and is otherwise as it was read. */
  ghost predicate Effected(others: Others, st: State, k: nat, a: Action, e: DetectionEvent, st': State, k': nat) {
    var first := others(k, st);
    var second := others(k + 1, first);
    match a
    case RestartPod =>
      var ref := Ref(e.namespace, e.podName);
      || (FindPod(first.pods, ref).None? && st' == first && k' == k + 1)
      || (FindPod(first.pods, ref).Some? && st' == second.(pods := Terminate(second.pods, ref)) && k' == k + 2)
    case RolloutUndo =>
      var ref, third := Ref(e.namespace, e.ownerDeployment), others(k + 2, second);
      && Selects(first, ref) && ref in third.deployments && third.deployments[ref] == first.deployments[ref]
      && k' == k + 3
      && exists rs :: IsUndoTarget(UndoList(first, second, ref), first.deployments[ref], rs)
                      && st' == Cluster.WriteSpec(third, ref, third.deployments[ref].spec.(template := rs.template))
  }

  function Obstacle(others: Others, fails: nat -> bool, st: State, k: nat, a: Action,
      e: DetectionEvent): Option<ActionError> {
    match a
    case RestartPod => RestartObstacle(others, fails, st, k, e)
    case RolloutUndo => UndoObstacle(others, fails, st, k, e)
  }

  /** The calls of one execution: no more than the action's own, in its order. */
  predicate IsExecution(made: seq<Event>, a: Action, e: DetectionEvent) {
    match a
    case RestartPod => made <= RestartCalls(e)
    case RolloutUndo => made <= UndoCalls(e, true) || made <= UndoCalls(e, false)
  }

  method Execute(k8s: ApiServer, a: Action, e: DetectionEvent) returns (r: Option<ActionError>, ghost made: seq<Event>)
    modifies k8s, k8s.journal
    ensures r == Obstacle(k8s.others, k8s.fails, old(k8s.state), old(k8s.calls), a, e)
    ensures k8s.journal.events == old(k8s.journal.events) + made && k8s.calls == old(k8s.calls) + |made|
    ensures IsExecution(made, a, e)
    ensures r == None ==> Effected(k8s.others, old(k8s.state), old(k8s.calls), a, e, k8s.state, k8s.calls)
    ensures r != None ==> OnlyOthersActed(k8s.others, old(k8s.state), old(k8s.calls), k8s.state, k8s.calls)
  {
    match a
    case RestartPod =>
      r, made := RestartCrashingPod(k8s, e);
    case RolloutUndo =>
      var undone;
      undone, made := RolloutUndoDeployment(k8s, e);
      r := if undone.Ok? then None else Some(undone.error);
  }

  /** `st'` is `live` with at most object `o` changed: a Pod marked for deletion, a Deployment given another
      template. */
  ghost predicate ChangesOnly(live: State, st': State, o: Object) {
    match o
    case PodObject(ref) => st' == live || st' == live.(pods := Terminate(live.pods, ref))
    case DeploymentObject(ref) =>
      st' == live || (ref in live.deployments && exists template: Template ::
        st' == Cluster.WriteSpec(live, ref, live.deployments[ref].spec.(template := template)))
  }

  /** An action changes at most the one object it is meant for; everything else that differs afterwards is the
      work of others. */
  lemma EffectedChangesOnlyItsObject(others: Others, st: State, k: nat, a: Action, e: DetectionEvent, st': State,
      k': nat)
    requires Effected(others, st, k, a, e, st', k')
    ensures k <= k' && ChangesOnly(Drift(others, st, k, k' - k), st', Touches(a, e))
  {
    assert Drift(others, st, k, 1) == others(k, st);
    assert Drift(others, st, k, 2) == others(k + 1, Drift(others, st, k, 1));
    assert Drift(others, st, k, 3) == others(k + 2, Drift(others, st, k, 2));
  }

  /** A successful undo leaves a template of strictly older revision in force, owned by the same Deployment, and
      moves the generation by at most one. */
  lemma UndoGoesBack(others: Others, st: State, k: nat, e: DetectionEvent, st': State, k': nat)
    requires Effected(others, st, k, RolloutUndo, e, st', k')
    ensures var ref := Ref(e.namespace, e.ownerDeployment);
            var first := others(k, st);
            var d := first.deployments[ref];
            && ref in first.deployments && ref in st'.deployments
            && (exists rs :: IsPrior(d, rs) && st'.deployments[ref].spec == d.spec.(template := rs.template))
            && d.generation <= st'.deployments[ref].generation <= d.generation + 1
  {
  }
}
