/** The part of the Kubernetes API the safety service sees. */
module Cluster {
  import opened Basics
  import L = Lifecycle

  datatype Ref = Ref(namespace: string, name: string)

  type Labels = set<(string, string)>

  datatype Condition = Condition(kind: string, isTrue: bool)

  datatype ContainerStatus = ContainerStatus(name: string, restartCount: int)

  /** `controller` is the UID in the controller owner reference. */
  datatype Pod = Pod(
    uid: string, namespace: string, name: string, createdAt: Time, terminating: bool, labels: Labels,
    controller: Option<string>, containers: seq<string>, conditions: seq<Condition>, statuses: seq<ContainerStatus>)

  datatype Template = Template(content: string)

  /** The revision annotation as `strconv.Atoi` reads it. */
  datatype Revision = Absent | Unparsable | Number(n: int)

  datatype ReplicaSet = ReplicaSet(
    uid: string, namespace: string, name: string, labels: Labels,
    controller: Option<string>, revision: Revision, template: Template)

  /** `rest` stands for every other field of the spec. */
  datatype Spec = Spec(selector: Option<Labels>, template: Template, rest: string)

  datatype Deployment = Deployment(uid: string, spec: Spec, generation: int, revision: Revision)

  /** Deployments by their name; `pods` and `replicaSets` in whatever order the API server lists them. */
  datatype State = State(deployments: map<Ref, Deployment>, replicaSets: seq<ReplicaSet>, pods: seq<Pod>)

  predicate Matches(selector: Labels, labels: Labels) {
    selector <= labels
  }

  function Filter<T(!new)>(s: seq<T>, keep: T -> bool): (r: seq<T>)
    ensures forall x :: x in r <==> x in s && keep(x)
  {
    if s == [] then []
    else (if keep(s[0]) then [s[0]] else []) + Filter(s[1..], keep)
  }

  function ListPods(st: State, namespace: string, selector: Labels): seq<Pod> {
    Filter(st.pods, (p: Pod) => p.namespace == namespace && Matches(selector, p.labels))
  }

  function ListReplicaSets(st: State, namespace: string, selector: Labels): seq<ReplicaSet> {
    Filter(st.replicaSets, (rs: ReplicaSet) => rs.namespace == namespace && Matches(selector, rs.labels))
  }

  /** metav1.IsControlledBy: the UID of the controller reference, not the name. */
  predicate IsControlledBy(rs: ReplicaSet, d: Deployment) {
    rs.controller == Some(d.uid)
  }

  /** The first Ready condition decides. */
  function PodReady(conditions: seq<Condition>): bool {
    conditions != [] && if conditions[0].kind == "Ready" then conditions[0].isTrue else PodReady(conditions[1..])
  }

  /** The restart count of the first status with that name. */
  function RestartCount(statuses: seq<ContainerStatus>, container: string): Option<int> {
    if statuses == [] then None
    else if statuses[0].name == container then Some(statuses[0].restartCount)
    else RestartCount(statuses[1..], container)
  }

  /** A deleted Pod first turns terminating. */
  function Terminate(pods: seq<Pod>, ref: Ref): (r: seq<Pod>)
    ensures |r| == |pods|
    ensures forall k | 0 <= k < |pods| ::
              r[k] == if Ref(pods[k].namespace, pods[k].name) == ref then pods[k].(terminating := true) else pods[k]
  {
    seq(|pods|, k requires 0 <= k < |pods| =>
      if Ref(pods[k].namespace, pods[k].name) == ref then pods[k].(terminating := true) else pods[k])
  }

  function FindPod(pods: seq<Pod>, ref: Ref): (r: Option<Pod>)
    ensures r.None? <==> forall p <- pods :: Ref(p.namespace, p.name) != ref
    ensures r.Some? ==> r.value in pods && Ref(r.value.namespace, r.value.name) == ref
  {
    if pods == [] then None
    else if Ref(pods[0].namespace, pods[0].name) == ref then Some(pods[0])
    else FindPod(pods[1..], ref)
  }

  /** A spec write accepted by the API server: only the spec changes, and a real change bumps the generation. */
  function WriteSpec(st: State, ref: Ref, spec: Spec): State
    requires ref in st.deployments
  {
    var d := st.deployments[ref];
    st.(deployments := st.deployments[ref := d.(spec := spec, generation := if spec == d.spec then d.generation
        else d.generation + 1)])
  }

  /** Whatever everybody else does to the cluster just before our k-th call. */
  type Others = (nat, State) -> State

  /** The state as our k-th call finds it. */
  function Disturbed(others: Others, k: nat, st: State): State {
    others(k, st)
  }

  /** The state after n more calls that only read, the first of them call number k. */
  function Drift(others: Others, st: State, k: nat, n: nat): State {
    if n == 0 then st else others(k + n - 1, Drift(others, st, k, n - 1))
  }

  datatype ApiError = Missing | Conflict | Unavailable

  /** What an attempt asked of the outside, whether it was granted or not. `moved` tells whether a spec write
      took effect and moved the generation. */
  datatype Event =
    | ReadDeployment(ref: Ref)
    | ListedReplicaSets(namespace: string)
    | ReadOwnedPods(deployment: Ref)
    | ReadPod(ref: Ref)
    | WroteSpec(ref: Ref, moved: bool)
    | DeletedPod(ref: Ref)
    | Noted(stage: L.Stage)

  /** Everything asked of the outside, in order. Only the methods that ask write here. */
  class Journal {
    ghost var events: seq<Event>

    constructor ()
      ensures events == []
    {
      events := [];
    }
  }

  /** The reads of a verification: `polls` of the Deployment's Pods, then `gets` of one Pod. */
  function VerificationReads(deployment: Ref, polls: nat, pod: Ref, gets: nat): seq<Event> {
    seq(polls, _ => ReadOwnedPods(deployment)) + seq(gets, _ => ReadPod(pod))
  }

  /** The API server: reads are current, writes are atomic, and between any two of our calls everybody else may
      do anything. Call number k fails when `fails(k)`. */
  class ApiServer {
    const others: Others
    const fails: nat -> bool
    const journal: Journal
    var state: State
    var calls: nat

    constructor (others: Others, fails: nat -> bool, journal: Journal, state: State)
      ensures this.others == others && this.fails == fails && this.journal == journal
      ensures this.state == state && calls == 0
    {
      this.others, this.fails, this.journal, this.state, calls := others, fails, journal, state, 0;
    }

    /** One call, before its own effect. */
    method Reach() returns (reached: bool)
      modifies this
      ensures state == Disturbed(others, old(calls), old(state)) && calls == old(calls) + 1
      ensures reached == !Happens(fails, old(calls))
    {
      reached := !Happens(fails, calls);
      state := Disturbed(others, calls, state);
      calls := calls + 1;
    }

    method GetDeployment(ref: Ref) returns (r: Result<Deployment, ApiError>)
      modifies this, journal
      ensures state == Disturbed(others, old(calls), old(state)) && calls == old(calls) + 1
      ensures journal.events == old(journal.events) + [ReadDeployment(ref)]
      ensures r == if Happens(fails, old(calls)) then Err(Unavailable)
                   else if ref !in state.deployments then Err(Missing) else Ok(state.deployments[ref])
    {
      journal.events := journal.events + [ReadDeployment(ref)];
      var reached := Reach();
      r := if !reached then Err(Unavailable)
           else if ref !in state.deployments then Err(Missing) else Ok(state.deployments[ref]);
    }

    method GetReplicaSets(namespace: string, selector: Labels) returns (r: Result<seq<ReplicaSet>, ApiError>)
      modifies this, journal
      ensures state == Disturbed(others, old(calls), old(state)) && calls == old(calls) + 1
      ensures journal.events == old(journal.events) + [ListedReplicaSets(namespace)]
      ensures r == if Happens(fails, old(calls)) then Err(Unavailable)
          else Ok(ListReplicaSets(state, namespace, selector))
    {
      journal.events := journal.events + [ListedReplicaSets(namespace)];
      var reached := Reach();
      r := if reached then Ok(ListReplicaSets(state, namespace, selector)) else Err(Unavailable);
    }

    /** The reads of one resolver call, taken as one: afterwards `state` is what they saw. */
    method GetOwnedPods(deployment: Ref) returns (reached: bool)
      modifies this, journal
      ensures state == Disturbed(others, old(calls), old(state)) && calls == old(calls) + 1
      ensures journal.events == old(journal.events) + [ReadOwnedPods(deployment)]
      ensures reached == !Happens(fails, old(calls))
    {
      journal.events := journal.events + [ReadOwnedPods(deployment)];
      reached := Reach();
    }

    /** The reads a verification made, all at once. */
    method Observe(deployment: Ref, polls: nat, pod: Ref, gets: nat)
      modifies this, journal
      ensures state == Drift(others, old(state), old(calls), polls + gets) && calls == old(calls) + polls + gets
      ensures journal.events == old(journal.events) + VerificationReads(deployment, polls, pod, gets)
    {
      journal.events := journal.events + VerificationReads(deployment, polls, pod, gets);
      state, calls := Drift(others, state, calls, polls + gets), calls + polls + gets;
    }

    /** An update carries the object it was made from; if the live one differs it is refused. */
    method UpdateSpec(ref: Ref, read: Deployment, spec: Spec) returns (r: Option<ApiError>)
      modifies this, journal
      ensures calls == old(calls) + 1
      ensures journal.events == old(journal.events) + [WroteSpec(ref, r == None && spec != read.spec)]
      ensures var live := Disturbed(others, old(calls), old(state));
              if Happens(fails, old(calls)) then r == Some(Unavailable) && state == live
              else if ref !in live.deployments then r == Some(Missing) && state == live
              else if live.deployments[ref] != read then r == Some(Conflict) && state == live
              else r == None && state == WriteSpec(live, ref, spec)
    {
      var reached := Reach();
      if !reached {
        r := Some(Unavailable);
      } else if ref !in state.deployments {
        r := Some(Missing);
      } else if state.deployments[ref] != read {
        r := Some(Conflict);
      } else {
        r := None;
        state := WriteSpec(state, ref, spec);
      }
      journal.events := journal.events + [WroteSpec(ref, r == None && spec != read.spec)];
    }

    method GetPod(ref: Ref) returns (r: Result<Pod, ApiError>)
      modifies this, journal
      ensures state == Disturbed(others, old(calls), old(state)) && calls == old(calls) + 1
      ensures journal.events == old(journal.events) + [ReadPod(ref)]
      ensures r == if Happens(fails, old(calls)) then Err(Unavailable)
                   else match FindPod(state.pods, ref) case None => Err(Missing) case Some(p) => Ok(p)
    {
      journal.events := journal.events + [ReadPod(ref)];
      var reached := Reach();
      r := if !reached then Err(Unavailable)
           else match FindPod(state.pods, ref) case None => Err(Missing) case Some(p) => Ok(p);
    }

    method DeletePod(ref: Ref) returns (r: Option<ApiError>)
      modifies this, journal
      ensures calls == old(calls) + 1
      ensures journal.events == old(journal.events) + [DeletedPod(ref)]
      ensures var live := Disturbed(others, old(calls), old(state));
              if Happens(fails, old(calls)) then r == Some(Unavailable) && state == live
              else if FindPod(live.pods, ref).None? then r == Some(Missing) && state == live
              else r == None && state == live.(pods := Terminate(live.pods, ref))
    {
      journal.events := journal.events + [DeletedPod(ref)];
      var reached := Reach();
      if !reached {
        r := Some(Unavailable);
      } else if FindPod(state.pods, ref).None? {
        r := Some(Missing);
      } else {
        r := None;
        state := state.(pods := Terminate(state.pods, ref));
      }
    }
  }
}
