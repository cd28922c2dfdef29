/** The pre-action Deployment spec and the only way back to it. */
module Snapshots {
  import opened Basics
  import opened Cluster

  datatype Snapshot = Snapshot(ref: Ref, revision: Revision, spec: Spec)

  datatype SnapshotError = Api(error: ApiError) | NoName

  method Capture(k8s: ApiServer, ref: Ref) returns (r: Result<Snapshot, SnapshotError>)
    modifies k8s, k8s.journal
    ensures k8s.state == Disturbed(k8s.others, old(k8s.calls), old(k8s.state)) && k8s.calls == old(k8s.calls) + 1
    ensures k8s.journal.events == old(k8s.journal.events) + [ReadDeployment(ref)]
    ensures r.Ok? <==> !Happens(k8s.fails, old(k8s.calls)) && ref in k8s.state.deployments
    ensures r.Ok? ==> r.value == Snapshot(ref, k8s.state.deployments[ref].revision, k8s.state.deployments[ref].spec)
  {
    var d := k8s.GetDeployment(ref);
    r := match d
      case Err(e) => Err(Api(e))
      case Ok(live) => Ok(Snapshot(ref, live.revision, live.spec));
  }

  predicate HasSpec(st: State, s: Snapshot) {
    s.ref in st.deployments && st.deployments[s.ref].spec == s.spec
  }

  /** What stops a restore that starts as call k in state `st`: nothing, exactly when the names are there, the
      Deployment can be read, and it has the spec already or is written before anybody else touches it. */
  function RestoreObstacle(others: Others, fails: nat -> bool, st: State, k: nat, s: Snapshot): Option<SnapshotError> {
    var first, second := others(k, st), others(k + 1, others(k, st));
    if s.ref.name == "" || s.ref.namespace == "" then Some(NoName)
    else if fails(k) then Some(Api(Unavailable))
    else if s.ref !in first.deployments then Some(Api(Missing))
    else if HasSpec(first, s) then None
    else if fails(k + 1) then Some(Api(Unavailable))
    else if s.ref !in second.deployments then Some(Api(Missing))
    else if second.deployments[s.ref] != first.deployments[s.ref] then Some(Api(Conflict))
    else None
  }

  /** From `st` on, where the next call is number k, others acted and the snapshot's spec was put back: by a write
      after the read, unless the read found it live. Nothing else moved. */
  predicate Reinstated(others: Others, st: State, k: nat, s: Snapshot, st': State, k': nat) {
    var first, second := others(k, st), others(k + 1, others(k, st));
    if HasSpec(first, s) then st' == first && k' == k + 1
    else
      && s.ref in second.deployments && k' == k + 2
      && st' == second.(deployments := second.deployments[s.ref :=
           second.deployments[s.ref].(spec := s.spec, generation := second.deployments[s.ref].generation + 1)])
  }

  /** A read, and a write where one is needed. */
  predicate IsRestore(made: seq<Event>, ref: Ref) {
    made <= [ReadDeployment(ref), WroteSpec(ref, true)] || made <= [ReadDeployment(ref), WroteSpec(ref, false)]
  }

  /** Whatever anybody wrote since the capture, a successful restore leaves the captured spec live. When it was
      live already, nothing is written. Either way nothing but this Deployment's spec and generation moves, and
      the generation at most by one. */
  method Restore(k8s: ApiServer, s: Snapshot) returns (r: Option<SnapshotError>, ghost made: seq<Event>)
    modifies k8s, k8s.journal
    ensures r == RestoreObstacle(k8s.others, k8s.fails, old(k8s.state), old(k8s.calls), s)
    ensures r == None ==> HasSpec(k8s.state, s)
    ensures k8s.journal.events == old(k8s.journal.events) + made
    ensures IsRestore(made, s.ref) && k8s.calls == old(k8s.calls) + |made|
    ensures r == None ==> Reinstated(k8s.others, old(k8s.state), old(k8s.calls), s, k8s.state, k8s.calls)
    ensures r == None && |made| == 2 ==> made == [ReadDeployment(s.ref), WroteSpec(s.ref, true)]
    ensures r != None ==> k8s.state == Drift(k8s.others, old(k8s.state), old(k8s.calls), |made|)
  {
    made := [];
    if s.ref.name == "" || s.ref.namespace == "" {
      return Some(NoName), made;
    }
    var live := k8s.GetDeployment(s.ref);
    made := [ReadDeployment(s.ref)];
    assert k8s.state == Drift(k8s.others, old(k8s.state), old(k8s.calls), 1);
    if live.Err? {
      return Some(Api(live.error)), made;
    }
    if live.value.spec == s.spec {
      return None, made;
    }
    var failed := k8s.UpdateSpec(s.ref, live.value, s.spec);
    made := made + [WroteSpec(s.ref, failed == None)];
    return if failed.Some? then Some(Api(failed.value)) else None, made;
  }
}
