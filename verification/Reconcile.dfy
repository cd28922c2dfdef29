/** The controller itself: `Reconcile` and the goroutine it starts, on the mutable incident table. Each lock-held
    call is proved to be one step of `Protocol`, under a guard about the calling worker alone. */
module Reconcile {
  import opened Basics
  import opened Incidents
  import opened IncidentManager
  import opened Workers
  import A = Actions
  import C = Cluster
  import Cl = Classification
  import E = Evidence
  import L = Lifecycle
  import P = Protocol
  import Sv = Service
  import T = Attempts
  import V = Validator

  // ---------------------------------------------------------------------- inputs

  datatype ContainerView = ContainerView(name: string, crashLooping: bool, restartCount: int)

  datatype PodView = PodView(name: string, namespace: string, refs: seq<E.OwnerRef>, statuses: seq<ContainerView>)

  /** What one visit reads: the Pod, ReplicaSets' owners, the Deployment's generation, three readings of the
      clock, an unused incident id, the evidence, the classifier's answer, and the wording of lower case and of
      refusals. */
  datatype Surroundings = Surroundings(
    pod: Result<PodView, C.ApiError>,
    replicaSet: string -> Option<seq<E.OwnerRef>>,
    generation: (string, string) -> Option<int>,
    detectedAt: Time, beganAt: Time, endedAt: Time,
    freshId: string,
    evidence: E.Sources,
    answer: Cl.Answer,
    lower: string -> string,
    explain: V.ReasonCode -> string)

  predicate SkippedNamespace(namespace: string) {
    namespace == "kube-system" || namespace == "kube-node-lease" || namespace == "local-path-storage"
  }

  function FirstDeployment(refs: seq<E.OwnerRef>): Option<string> {
    if refs == [] then None
    else if refs[0].kind == E.DeploymentKind then Some(refs[0].name)
    else FirstDeployment(refs[1..])
  }

  /** The owner by way of the first ReplicaSet that has one; an unreadable ReplicaSet ends the search. */
  function OwnerOf(refs: seq<E.OwnerRef>, replicaSet: string -> Option<seq<E.OwnerRef>>): string {
    if refs == [] then ""
    else if refs[0].kind != E.ReplicaSetKind then OwnerOf(refs[1..], replicaSet)
    else if replicaSet(refs[0].name).None? then ""
    else match FirstDeployment(replicaSet(refs[0].name).value)
         case Some(name) => name
         case None => OwnerOf(refs[1..], replicaSet)
  }

  method OwnerDeploymentName(refs: seq<E.OwnerRef>, replicaSet: string -> Option<seq<E.OwnerRef>>)
    returns (owner: string)
    ensures owner == OwnerOf(refs, replicaSet)
  {
    for i := 0 to |refs|
      invariant OwnerOf(refs, replicaSet) == OwnerOf(refs[i..], replicaSet)
    {
      assert refs[i..][1..] == refs[i + 1..];
      if refs[i].kind != E.ReplicaSetKind {
        continue;
      }
      var rs := replicaSet(refs[i].name);
      if rs.None? {
        return "";
      }
      for j := 0 to |rs.value|
        invariant FirstDeployment(rs.value) == FirstDeployment(rs.value[j..])
      {
        assert rs.value[j..][1..] == rs.value[j + 1..];
        if rs.value[j].kind == E.DeploymentKind {
          return rs.value[j].name;
        }
      }
    }
    return "";
  }

  /** The Deployment found this way owns a ReplicaSet that owns the Pod. */
  lemma {:induction false} OwnerIsReal(refs: seq<E.OwnerRef>, replicaSet: string -> Option<seq<E.OwnerRef>>)
    requires OwnerOf(refs, replicaSet) != ""
    ensures exists ref <- refs :: ref.kind == E.ReplicaSetKind && replicaSet(ref.name).Some?
                                  && E.OwnerRef(E.DeploymentKind, OwnerOf(refs,
                                      replicaSet)) in replicaSet(ref.name).value
  {
    if refs[0].kind == E.ReplicaSetKind && FirstDeployment(replicaSet(refs[0].name).value).Some? {
      FirstDeploymentIsThere(replicaSet(refs[0].name).value);
      assert refs[0] in refs;
    } else {
      OwnerIsReal(refs[1..], replicaSet);
    }
  }

  lemma {:induction false} FirstDeploymentIsThere(refs: seq<E.OwnerRef>)
    requires FirstDeployment(refs).Some?
    ensures E.OwnerRef(E.DeploymentKind, FirstDeployment(refs).value) in refs
  {
    if refs[0].kind != E.DeploymentKind {
      FirstDeploymentIsThere(refs[1..]);
    } else {
      assert refs[0] == E.OwnerRef(E.DeploymentKind, refs[0].name);
    }
  }

  /** An action on its way: which one, for which event, on which proposal and evidence. */
  datatype Dispatch = Dispatch(action: A.Action, event: A.DetectionEvent, proposal: V.Triage, input: V.Input)

  /** The dispatched event is `event` with its attempt number, and worker `w` is running that attempt. */
  predicate IsRunning(d: Dispatch, event: A.DetectionEvent, s: P.State, w: nat, key: string) {
    d.event.attempt >= 0 && d.event == event.(attempt := d.event.attempt) && At(s, w, key, event.incidentId,
        P.Running(d.event.attempt, 0))
  }

  function InputOf(event: A.DetectionEvent, bundle: Bundle, lower: string -> string): V.Input {
    V.Input(event.podName, event.namespace, event.ownerDeployment, V.EvidenceOf(lower, bundle.logs, bundle.events))
  }

  /** What a verdict rests on. */
  datatype Basis = Basis(bundle: Bundle, proposal: V.Triage)

  /** Frozen evidence is reused and nothing is collected; otherwise evidence is collected and frozen. */
  ghost predicate IsEvidenceStep(
    steps: seq<P.Step>, w: nat, bundle: Bundle, frozen: Option<Bundle>, sources: E.Sources, pod: PodView,
        owner: string) {
    if frozen.Some? then bundle == frozen.value && steps == [P.LookForEvidence(w)]
    else steps == [P.LookForEvidence(w), P.CollectEvidence(w, bundle)]
         && E.IsEvidence(bundle.logs, bundle.events, sources, pod.name, pod.refs, owner)
  }

  /** The classifier's answer for this input comes out as proposal `p`. */
  ghost predicate Proposes(answer: Cl.Answer, input: V.Input, p: V.Triage) {
    exists o :: Cl.IsOutcome(o, answer, input) && o.proposal == p
  }

  /** The step is the gate's verdict on proposal `p`, and what is dispatched is the action of `p`. */
  ghost predicate IsVerdict(step: P.Step, d: Option<Dispatch>, p: V.Triage, input: V.Input,
      registered: set<A.Action>, w: nat) {
    && step == P.Decide(w, input.podName, Cl.Gate(p, registered))
    && (d.Some? ==>
          d.value.input == input && d.value.proposal == p && Cl.ActionFor(p.action, registered) == Some(d.value.action))
  }

  /** An attempt takes its evidence, classifies it and follows the gate. */
  ghost predicate IsAttemptOn(
    steps: seq<P.Step>, d: Option<Dispatch>, w: nat, basis: Basis, frozen: Option<Bundle>,
    api: Surroundings, event: A.DetectionEvent, registered: set<A.Action>) {
    var k := if frozen.Some? then 1 else 2;
    var input := InputOf(event, basis.bundle, api.lower);
    && |steps| > k && api.pod.Ok?
    && IsEvidenceStep(steps[..k], w, basis.bundle, frozen, api.evidence, api.pod.value, event.ownerDeployment)
    && Proposes(api.answer, input, basis.proposal)
    && IsDecision(steps[k..], w, d.Some?) && IsVerdict(steps[k], d, basis.proposal, input, registered, w)
  }

  /** What follows the claim is an attempt in the sense of `IsVisit`. */
  lemma AttemptsAreAttempts(
    steps: seq<P.Step>, d: Option<Dispatch>, w: nat, basis: Basis, frozen: Option<Bundle>,
    api: Surroundings, event: A.DetectionEvent, registered: set<A.Action>)
    requires IsAttemptOn(steps, d, w, basis, frozen, api, event, registered)
    ensures steps[0] == P.LookForEvidence(w) && IsAttempt(steps[1..], w, d.Some?)
  {
    if frozen.None? {
      assert steps[..2][1] == steps[1] == P.CollectEvidence(w, basis.bundle);
      assert steps[1..][1..] == steps[2..];
    }
    assert steps[0] == steps[..if frozen.Some? then 1 else 2][0];
  }

  /** What follows a look: nothing, the audit line of an exhausted incident, or an attempt on the claimed record. */
  ghost predicate FollowsFrom(
    rest: seq<P.Step>, d: Option<Dispatch>, w: nat, r: Record, admission: Admission, basis: Basis,
    api: Surroundings, event: A.DetectionEvent, hasClassifier: bool, registered: set<A.Action>) {
    match admission
    case Skip => rest == [] && d.None?
    case BudgetSpent => rest == [P.CloseIncident(w)] && d.None?
    case Proceed =>
      if hasClassifier then IsAttemptOn(rest, d, w, basis, r.evidence, api, event, registered)
      else rest != [] && rest[0] == P.LookForEvidence(w) && IsDeparture(rest[1..], w) && d.None?
  }

  lemma VisitsAreVisits(
    steps: seq<P.Step>, d: Option<Dispatch>, w: nat, r: Record, admission: Admission, basis: Basis,
    api: Surroundings, event: A.DetectionEvent, hasClassifier: bool, registered: set<A.Action>)
    requires steps != [] && steps[0].BeginAttempt? && steps[0].w == w
    requires FollowsFrom(steps[1..], d, w, r, admission, basis, api, event, hasClassifier, registered)
    ensures IsVisit(steps, w, d.Some?)
  {
    var rest := steps[1..];
    if admission == Proceed {
      if hasClassifier {
        AttemptsAreAttempts(rest, d, w, basis, r.evidence, api, event, registered);
      }
      assert rest[0] == steps[1] && rest[1..] == steps[2..];
    } else if admission == BudgetSpent {
      assert rest[0] == steps[1];
    }
  }

  /** What is dispatched is the registered action of a proposal the gate let through, for the incident classified. */
  ghost predicate IsAuthorized(d: Dispatch, answer: Cl.Answer, registered: set<A.Action>) {
    && Proposes(answer, d.input, d.proposal) && Cl.About(d.event, d.input)
    && Cl.Gate(d.proposal, registered) == P.Act && Cl.ActionFor(d.proposal.action, registered) == Some(d.action)
  }

  lemma DispatchesAreAuthorized(
    rest: seq<P.Step>, d: Dispatch, w: nat, r: Record, admission: Admission, basis: Basis,
    api: Surroundings, event: A.DetectionEvent, hasClassifier: bool, registered: set<A.Action>)
    requires FollowsFrom(rest, Some(d), w, r, admission, basis, api, event, hasClassifier, registered)
    requires d.event == event.(attempt := d.event.attempt)
    ensures hasClassifier && IsAuthorized(d, api.answer, registered)
    ensures d.input == InputOf(event, basis.bundle, api.lower) && (r.evidence.Some? ==>
        basis.bundle == r.evidence.value)
  {
    assert rest[if r.evidence.Some? then 1 else 2..][0] == rest[if r.evidence.Some? then 1 else 2];
  }

  /** A dispatched action with good identifiers and both actions registered is a supported restart or undo, and
      the object it touches is exactly the one that was proposed and validated. */
  lemma DispatchTouchesTheValidatedTarget(d: Dispatch, answer: Cl.Answer)
    requires IsAuthorized(d, answer, Cl.BOTH_ACTIONS) && Cl.GoodIds(d.input)
    ensures V.SafeRestart(d.proposal, d.input) || V.SafeUndo(d.proposal, d.input)
    ensures A.Touches(d.action, d.event) == Cl.Target(d.proposal)
  {
    var o :| Cl.IsOutcome(o, answer, d.input) && o.proposal == d.proposal;
    Cl.GateActsOnTheValidatedTarget(d.input, d.event);
  }

  function ResultOf(outcome: Result<T.Outcome, T.RemediateError>): Outcome {
    if outcome.Err? then Unset
    else match outcome.value.result
         case Recovered => Recovered
         case RolledBack => RolledBack
  }

  function OutcomeNamed(result: string): Outcome {
    if result == "recovered" then Recovered else if result == "rolled_back" then RolledBack else Unset
  }

  /** The LOGGED lines among the entries of an attempt. */
  function ReportedLines(entries: seq<T.AuditEntry>): seq<ClosingLine> {
    if entries == [] then []
    else
      var entry := entries[|entries| - 1];
      ReportedLines(entries[..|entries| - 1])
      + if entry.stage == L.Logged then [ClosingLine(entry.incidentId, entry.attempt, OutcomeNamed(entry.result))]
        else []
  }

  lemma {:induction false} NothingReported(entries: seq<T.AuditEntry>)
    requires forall i | 0 <= i < |entries| :: entries[i].stage != L.Logged
    ensures ReportedLines(entries) == []
  {
    if entries != [] {
      NothingReported(entries[..|entries| - 1]);
    }
  }

  /** An attempt that ends without an error reports its result in exactly one LOGGED line, and one that fails in
      none. */
  lemma {:induction false} ReportedOnce(
    entries: seq<T.AuditEntry>, e: A.DetectionEvent, made: seq<C.Event>, c: T.Course,
    r: Result<T.Outcome, T.RemediateError>)
    requires T.Follows(entries, e, T.StagesOf(c)) && T.IsLogged(|entries|, made, c, T.ErrorOf(r))
    requires r.Ok? ==> T.IsReported(r.value, entries, e, c)
    ensures ReportedLines(entries) == ResultLine(e.incidentId, e.attempt, ResultOf(r))
  {
    if r.Ok? {
      NothingReported(entries[..|entries| - 1]);
    } else {
      NothingReported(entries);
    }
  }

  /** The own writes of an attempt that moved the Deployment's generation. */
  function Moves(made: seq<C.Event>, ref: C.Ref): set<int> {
    set i | 0 <= i < |made| && made[i] == C.WroteSpec(ref, true)
  }

  /** An attempt moves the generation of its Deployment at most twice. */
  lemma AtMostTwoMoves(
    made: seq<C.Event>, a: A.Action, e: A.DetectionEvent, c: T.Course, error: Option<T.RemediateError>, ref: C.Ref)
    requires T.IsTrail(made, e, c, error) && T.IsCourse(c, a, e)
    ensures |Moves(made, ref)| <= P.MAX_WRITES
  {
    var places := {4 + |c.act|, T.RestoreStart(c) + |c.restore| - 1};
    forall i | i in Moves(made, ref) ensures i in places {
      T.WritesHaveTheirPlace(made, a, e, c, error, i);
    }
    SubsetIsSmaller(Moves(made, ref), places);
  }

  lemma SubsetIsSmaller(small: set<int>, large: set<int>)
    requires small <= large
    ensures |small| <= |large|
  {
    assert large == small + (large - small);
  }

  function FirstCrashing(statuses: seq<ContainerView>): Option<ContainerView> {
    if statuses == [] then None
    else if statuses[0].crashLooping then Some(statuses[0]) else FirstCrashing(statuses[1..])
  }

  /** A visit is made when the Pod is there, outside the system namespaces, crash-looping and owned by a Deployment. */
  predicate Visits(namespace: string, api: Surroundings) {
    && !SkippedNamespace(namespace) && api.pod.Ok?
    && FirstCrashing(api.pod.value.statuses).Some? && OwnerOf(api.pod.value.refs, api.replicaSet) != ""
  }

  /** The look a visit begins with: a generation that could not be read is passed on as 0. */
  function FirstLook(api: Surroundings, w: nat): P.Step
    requires api.pod.Ok?
  {
    var namespace, owner := api.pod.value.namespace, OwnerOf(api.pod.value.refs, api.replicaSet);
    P.BeginAttempt(w, IncidentKey(namespace, owner), api.generation(namespace, owner).GetOr(0), api.beganAt,
        api.freshId)
  }

  /** The event is about the first crash-looping container of the Pod and the Deployment that owns it. */
  function Detection(api: Surroundings): A.DetectionEvent
    requires api.pod.Ok? && FirstCrashing(api.pod.value.statuses).Some?
  {
    var pod, cs := api.pod.value, FirstCrashing(api.pod.value.statuses).value;
    A.DetectionEvent(pod.name, pod.namespace, cs.name, cs.restartCount, OwnerOf(pod.refs, api.replicaSet),
                     Some(api.detectedAt), "", 0)
  }

  /** The whole visit: the look, and what follows from the record it found. */
  ghost predicate IsVisitOf(
    steps: seq<P.Step>, d: Option<Dispatch>, w: nat, t: Table, api: Surroundings, hasClassifier: bool,
        registered: set<A.Action>)
    requires api.pod.Ok? && FirstCrashing(api.pod.value.statuses).Some?
  {
    var look := FirstLook(api, w);
    var (r, admission) := Admit(Lookup(t, look.key), look.generation, look.now, look.id);
    && steps != [] && steps[0] == look
    && exists basis ::
         FollowsFrom(steps[1..], d, w, r, admission, basis, api, Detection(api).(incidentId := r.id), hasClassifier,
             registered)
  }

  class ControllerLog {
    var lines: seq<ClosingLine>

    constructor ()
      ensures lines == []
    {
      lines := [];
    }
  }

  class PodReconciler {
    const incidents: IncidentTable
    const audit: ControllerLog
    const hasClassifier: bool
    const registered: set<A.Action>

    /** The mutable table is the table of the protocol state `s`, and the lines written are the controller's there. */
    ghost predicate Valid(s: P.State)
      reads incidents, incidents.Repr, audit
    {
      && audit !in incidents.Repr && incidents.Valid() && incidents.Contents() == s.table
      && s.hasClassifier == hasClassifier && audit.lines == ControllerLines(s.history)
    }

    constructor (hasClassifier: bool, registered: set<A.Action>)
      ensures fresh(audit) && fresh(incidents.Repr) && Valid(P.Start(hasClassifier))
      ensures this.hasClassifier == hasClassifier && this.registered == registered
    {
      this.hasClassifier, this.registered := hasClassifier, registered;
      incidents := new IncidentTable();
      audit := new ControllerLog();
    }

    method Begin(key: string, generation: int, now: Time, freshId: string, ghost w: nat, ghost s: P.State)
      returns (id: string, admission: Admission, ghost s': P.State)
      requires Valid(s) && w !in s.workers && freshId !in s.used
      modifies incidents.Repr
      ensures Valid(s') && fresh(incidents.Repr - old(incidents.Repr))
      ensures Took(s, [P.BeginAttempt(w, key, generation, now, freshId)], s')
      ensures match admission
              case Skip => w !in s'.workers
              case BudgetSpent => At(s', w, key, id, P.Closing(Exhausted))
              case Proceed => At(s', w, key, id, P.Claimed)
      ensures var (r, answer) := Admit(Lookup(s.table, key), generation, now, freshId);
              admission == answer && id == r.id && s'.table == s.table[key := r]
    {
      var record;
      record, admission := incidents.BeginAttempt(key, generation, now, freshId);
      id := record.id;
      s' := BeginStep(s, w, key, generation, now, freshId);
    }

    method End(key: string, outcome: Outcome, now: Time, ghost w: nat, ghost id: string,
        ghost s: P.State) returns (ghost s': P.State)
      requires Valid(s) && At(s, w, key, id, P.Ending(outcome))
      modifies incidents.Repr
      ensures Valid(s') && incidents.Repr == old(incidents.Repr)
      ensures Took(s, [P.EndAttempt(w, now)], s') && At(s', w, key, id, P.Closing(outcome))
      ensures AttemptLines(s'.history) == AttemptLines(s.history)
    {
      incidents.EndAttempt(key, outcome, now);
      s' := EndStep(s, w, key, id, outcome, now);
    }

    method CloseIncidentIfTerminal(key: string, ghost w: nat, ghost s: P.State) returns (ghost s': P.State)
      requires Valid(s) && w in s.workers && s.workers[w].key == key && s.workers[w].stage.Closing?
      modifies audit
      ensures Valid(s') && Took(s, [P.CloseIncident(w)], s') && w !in s'.workers
      ensures AttemptLines(s'.history) == AttemptLines(s.history)
    {
      var closure := incidents.ClosedIncident(key);
      if closure.Some? && closure.value.1 != Recovered {
        audit.lines := audit.lines + [ClosingLine(closure.value.0, closure.value.2, closure.value.1)];
      }
      s' := CloseStep(s, w, key);
    }

    /** Gives the claim back. */
    method Depart(key: string, outcome: Outcome, now: Time, ghost w: nat, ghost id: string, ghost s: P.State)
      returns (ghost steps: seq<P.Step>, ghost s': P.State)
      requires Valid(s) && At(s, w, key, id, P.Ending(outcome))
      modifies incidents.Repr, audit
      ensures Valid(s') && incidents.Repr == old(incidents.Repr)
      ensures Took(s, steps, s') && steps == [P.EndAttempt(w, now), P.CloseIncident(w)] && w !in s'.workers
      ensures AttemptLines(s'.history) == AttemptLines(s.history)
    {
      ghost var mid := End(key, outcome, now, w, id, s);
      s' := CloseIncidentIfTerminal(key, w, mid);
      steps := [P.EndAttempt(w, now)] + [P.CloseIncident(w)];
      TookMore(s, [P.EndAttempt(w, now)], mid, [P.CloseIncident(w)], s');
    }

    method Gather(pod: PodView, owner: string, sources: E.Sources) returns (logs: string, events: array<string>)
      ensures fresh(events) && E.IsEvidence(logs, events[..], sources, pod.name, pod.refs, owner)
    {
      var lines;
      logs, lines := E.Collect(sources, pod.name, pod.refs, owner);
      events := new string[|lines|](i requires 0 <= i < |lines| => lines[i]);
      assert events[..] == lines;
    }

    method Freeze(key: string, pod: PodView, owner: string, sources: E.Sources, ghost w: nat, ghost id: string,
        ghost s: P.State)
      returns (bundle: Bundle, ghost s': P.State)
      requires Valid(s) && At(s, w, key, id, P.Collecting)
      modifies incidents.Repr
      ensures Valid(s') && fresh(incidents.Repr - old(incidents.Repr))
      ensures Took(s, [P.CollectEvidence(w, bundle)], s') && At(s', w, key, id, P.Deciding(bundle))
      ensures E.IsEvidence(bundle.logs, bundle.events, sources, pod.name, pod.refs, owner)
    {
      var logs, events := Gather(pod, owner, sources);
      bundle, s' := StoreEvidence(key, logs, events, w, id, s);
    }

    method StoreEvidence(key: string, logs: string, events: array<string>, ghost w: nat, ghost id: string,
        ghost s: P.State)
      returns (bundle: Bundle, ghost s': P.State)
      requires Valid(s) && At(s, w, key, id, P.Collecting)
      modifies incidents.Repr
      ensures Valid(s') && fresh(incidents.Repr - old(incidents.Repr)) && bundle == Bundle(logs, old(events[..]))
      ensures Took(s, [P.CollectEvidence(w, bundle)], s') && At(s', w, key, id, P.Deciding(bundle))
    {
      bundle := Bundle(logs, events[..]);
      incidents.FreezeEvidence(key, logs, events);
      s' := CollectStep(s, w, key, id, bundle);
    }

    method Look(key: string, ghost w: nat, ghost id: string, ghost s: P.State)
      returns (logs: string, events: array<string>, captured: bool, ghost s': P.State)
      requires Valid(s) && At(s, w, key, id, P.Claimed) && hasClassifier
      ensures Valid(s') && Took(s, [P.LookForEvidence(w)], s') && fresh(events)
      ensures captured == FrozenEvidence(s.table, key).Some?
      ensures captured ==> FrozenEvidence(s.table, key) == Some(Bundle(logs, events[..]))
      ensures At(s', w, key, id, if captured then P.Deciding(Bundle(logs, events[..])) else P.Collecting)
    {
      logs, events, captured := incidents.IncidentEvidence(key);
      s' := LookStep(s, w, key, id);
    }

    /** The bundle frozen at the incident's first claim, or a new one, frozen now. */
    method TakeEvidence(key: string, pod: PodView, owner: string, sources: E.Sources, ghost w: nat, ghost id: string,
        ghost s: P.State)
      returns (bundle: Bundle, ghost steps: seq<P.Step>, ghost s': P.State)
      requires Valid(s) && At(s, w, key, id, P.Claimed) && hasClassifier
      modifies incidents.Repr
      ensures Valid(s') && fresh(incidents.Repr - old(incidents.Repr))
      ensures Took(s, steps, s') && At(s', w, key, id, P.Deciding(bundle))
      ensures IsEvidenceStep(steps, w, bundle, FrozenEvidence(s.table, key), sources, pod, owner)
    {
      var logs, events, captured;
      ghost var mid;
      logs, events, captured, mid := Look(key, w, id, s);
      if captured {
        return Bundle(logs, events[..]), [P.LookForEvidence(w)], mid;
      }
      bundle, s' := Freeze(key, pod, owner, sources, w, id, mid);
      steps := [P.LookForEvidence(w)] + [P.CollectEvidence(w, bundle)];
      TookMore(s, [P.LookForEvidence(w)], mid, [P.CollectEvidence(w, bundle)], s');
    }

    /** `event` with the number of its attempt. */
    method Act(key: string, action: A.Action, event: A.DetectionEvent, p: V.Triage, input: V.Input,
        ghost bundle: Bundle, ghost w: nat, ghost s: P.State)
      returns (dispatch: Dispatch, ghost s': P.State)
      requires Valid(s) && At(s, w, key, event.incidentId, P.Deciding(bundle))
      modifies incidents.Repr
      ensures Valid(s') && incidents.Repr == old(incidents.Repr)
      ensures Took(s, [P.Decide(w, event.podName, P.Act)], s')
      ensures IsRunning(dispatch, event, s', w, key) && dispatch == Dispatch(action, dispatch.event, p, input)
    {
      var n := incidents.RecordAttempt(key);
      dispatch := Dispatch(action, event.(attempt := n), p, input);
      s' := ActStep(s, w, key, event.incidentId, bundle, event.podName);
    }

    /** Ends the incident without an action. */
    method Refuse(key: string, outcome: Outcome, event: A.DetectionEvent, now: Time, ghost verdict: P.Verdict,
        ghost bundle: Bundle, ghost w: nat, ghost s: P.State)
      returns (ghost steps: seq<P.Step>, ghost s': P.State)
      requires Valid(s) && At(s, w, key, event.incidentId, P.Deciding(bundle))
      requires verdict != P.Act && outcome == if verdict == P.Escalate then Escalated else Rejected
      modifies incidents.Repr, audit
      ensures Valid(s') && incidents.Repr == old(incidents.Repr)
      ensures Took(s, steps, s') && IsDecision(steps, w, false) && steps[0] == P.Decide(w, event.podName, verdict)
      ensures w !in s'.workers
    {
      ghost var mid := RefuseStep(s, w, key, event.incidentId, bundle, event.podName, verdict);
      ghost var last;
      last, s' := Depart(key, outcome, now, w, event.incidentId, mid);
      TookMore(s, [P.Decide(w, event.podName, verdict)], mid, last, s');
      steps := [P.Decide(w, event.podName, verdict)] + last;
      assert steps[1..] == last;
    }

    method Classify(input: V.Input, answer: Cl.Answer, explain: V.ReasonCode -> string) returns (p: V.Triage)
      ensures Proposes(answer, input, p)
    {
      var outcome := Cl.ClassifyAndValidate(answer, input, explain);
      p := outcome.proposal;
    }

    /** Classifies, and acts exactly when the gate says so. */
    method Decide(key: string, event: A.DetectionEvent, bundle: Bundle, api: Surroundings, ghost w: nat,
        ghost s: P.State)
      returns (dispatch: Option<Dispatch>, ghost steps: seq<P.Step>, ghost s': P.State, ghost proposal: V.Triage)
      requires Valid(s) && At(s, w, key, event.incidentId, P.Deciding(bundle))
      modifies incidents.Repr, audit
      ensures Valid(s') && incidents.Repr == old(incidents.Repr)
      ensures Took(s, steps, s') && IsDecision(steps, w, dispatch.Some?)
      ensures Proposes(api.answer, InputOf(event, bundle, api.lower), proposal)
      ensures IsVerdict(steps[0], dispatch, proposal, InputOf(event, bundle, api.lower), registered, w)
      ensures dispatch.Some? ==> IsRunning(dispatch.value, event, s', w, key)
      ensures dispatch.None? ==> w !in s'.workers
    {
      var input := InputOf(event, bundle, api.lower);
      var p := Classify(input, api.answer, api.explain);
      var action := Cl.ActionFor(p.action, registered);
      proposal := p;
      ghost var verdict := Cl.Gate(p, registered);
      if !p.safeForAutomation {
        steps, s' := Refuse(key, Escalated, event, api.endedAt, verdict, bundle, w, s);
        dispatch := None;
      } else if action.None? {
        steps, s' := Refuse(key, Rejected, event, api.endedAt, verdict, bundle, w, s);
        dispatch := None;
      } else {
        var chosen;
        chosen, s' := Act(key, action.value, event, p, input, bundle, w, s);
        dispatch, steps := Some(chosen), [P.Decide(w, event.podName, P.Act)];
      }
    }

    /** What follows a claim. */
    method Attempt(key: string, event: A.DetectionEvent, pod: PodView, api: Surroundings, ghost w: nat,
        ghost s: P.State)
      returns (dispatch: Option<Dispatch>, ghost steps: seq<P.Step>, ghost s': P.State, ghost basis: Basis)
      requires Valid(s) && At(s, w, key, event.incidentId, P.Claimed) && api.pod == Ok(pod)
      modifies incidents.Repr, audit
      ensures Valid(s') && fresh(incidents.Repr - old(incidents.Repr))
      ensures Took(s, steps, s') && steps != [] && steps[0] == P.LookForEvidence(w)
      ensures if hasClassifier then IsAttemptOn(steps, dispatch, w, basis, FrozenEvidence(s.table, key), api, event,
          registered)
              else dispatch.None? && IsDeparture(steps[1..], w)
      ensures dispatch.Some? ==> IsRunning(dispatch.value, event, s', w, key)
      ensures dispatch.None? ==> w !in s'.workers
    {
      ghost var mid, first, last, proposal;
      basis := *;
      if !hasClassifier {
        mid := LookStep(s, w, key, event.incidentId);
        last, s' := Depart(key, Escalated, api.endedAt, w, event.incidentId, mid);
        TookMore(s, [P.LookForEvidence(w)], mid, last, s');
        dispatch, steps := None, [P.LookForEvidence(w)] + last;
        assert steps[1..] == last;
        return;
      }
      var taken;
      taken, first, mid := TakeEvidence(key, pod, event.ownerDeployment, api.evidence, w, event.incidentId, s);
      dispatch, last, s', proposal := Decide(key, event, taken, api, w, mid);
      basis := Basis(taken, proposal);
      steps := first + last;
      TookMore(s, first, mid, last, s');
      assert steps[..|first|] == first && steps[|first|..] == last;
    }

    method AfterBegin(
      key: string, admission: Admission, event: A.DetectionEvent, pod: PodView, api: Surroundings,
      ghost w: nat, ghost s: P.State)
      returns (dispatch: Option<Dispatch>, ghost steps: seq<P.Step>, ghost s': P.State, ghost basis: Basis)
      requires Valid(s) && key in s.table && api.pod == Ok(pod)
      requires match admission
               case Skip => w !in s.workers
               case BudgetSpent => At(s, w, key, event.incidentId, P.Closing(Exhausted))
               case Proceed => At(s, w, key, event.incidentId, P.Claimed)
      modifies incidents.Repr, audit
      ensures Valid(s') && fresh(incidents.Repr - old(incidents.Repr))
      ensures Took(s, steps, s')
      ensures FollowsFrom(steps, dispatch, w, s.table[key], admission, basis, api, event, hasClassifier, registered)
      ensures dispatch.Some? ==> IsRunning(dispatch.value, event, s', w, key)
      ensures dispatch.None? ==> w !in s'.workers
    {
      basis := *;
      match admission
      case Skip =>
        dispatch, steps, s' := None, [], s;
      case BudgetSpent =>
        s' := CloseIncidentIfTerminal(key, w, s);
        dispatch, steps := None, [P.CloseIncident(w)];
      case Proceed =>
        dispatch, steps, s', basis := Attempt(key, event, pod, api, w, s);
    }

    /** One look at a crashing Deployment and all it leads to, up to the start of the goroutine. `claimed` is the
        event under the id of the incident looked at. */
    method Visit(
      key: string, generation: int, event: A.DetectionEvent, pod: PodView, api: Surroundings, ghost w: nat,
          ghost s: P.State)
      returns (dispatch: Option<Dispatch>, admission: Admission, claimed: A.DetectionEvent,
               ghost mid: P.State, ghost rest: seq<P.Step>, ghost s': P.State, ghost basis: Basis)
      requires Valid(s) && w !in s.workers && api.freshId !in s.used && api.pod == Ok(pod)
      modifies incidents.Repr, audit
      ensures Valid(s') && fresh(incidents.Repr - old(incidents.Repr))
      ensures Took(s, [P.BeginAttempt(w, key, generation, api.beganAt, api.freshId)], mid) && Took(mid, rest, s')
      ensures key in mid.table && claimed == event.(incidentId := mid.table[key].id)
      ensures (mid.table[key], admission) == Admit(Lookup(s.table, key), generation, api.beganAt, api.freshId)
      ensures FollowsFrom(rest, dispatch, w, mid.table[key], admission, basis, api, claimed, hasClassifier, registered)
      ensures dispatch.Some? ==> IsRunning(dispatch.value, claimed, s', w, key)
      ensures dispatch.None? ==> w !in s'.workers
    {
      var id;
      id, admission, mid := Begin(key, generation, api.beganAt, api.freshId, w, s);
      claimed := event.(incidentId := id);
      ghost var between := incidents.Repr;
      dispatch, rest, s', basis := AfterBegin(key, admission, claimed, pod, api, w, mid);
      assert incidents.Repr - old(incidents.Repr) <= (incidents.Repr - between) + (between - old(incidents.Repr));
    }

    /** A detected crash of container `cs` of a Pod owned by `owner`. */
    method Handle(pod: PodView, cs: ContainerView, owner: string, api: Surroundings, ghost w: nat, ghost s: P.State)
      returns (dispatch: Option<Dispatch>, ghost steps: seq<P.Step>, ghost s': P.State)
      requires Valid(s) && w !in s.workers && api.freshId !in s.used && api.pod == Ok(pod)
      requires FirstCrashing(pod.statuses) == Some(cs) && owner == OwnerOf(pod.refs, api.replicaSet)
      modifies incidents.Repr, audit
      ensures Valid(s') && fresh(incidents.Repr - old(incidents.Repr))
      ensures Took(s, steps, s') && IsVisit(steps, w, dispatch.Some?)
      ensures IsVisitOf(steps, dispatch, w, s.table, api, hasClassifier, registered)
      ensures dispatch.Some? ==> IsDispatched(dispatch.value, s', w, api)
      ensures dispatch.None? ==> w !in s'.workers
    {
      var event := A.DetectionEvent(pod.name, pod.namespace, cs.name, cs.restartCount, owner, Some(api.detectedAt),
          "", 0);
      var key := IncidentKey(pod.namespace, owner);
      var generation := api.generation(pod.namespace, owner).GetOr(0);
      var admission, claimed;
      ghost var mid, rest, basis;
      dispatch, admission, claimed, mid, rest, s', basis := Visit(key, generation, event, pod, api, w, s);
      steps := [FirstLook(api, w)] + rest;
      TookMore(s, [FirstLook(api, w)], mid, rest, s');
      assert steps[1..] == rest && event == Detection(api);
      VisitsAreVisits(steps, dispatch, w, mid.table[key], admission, basis, api, claimed, hasClassifier, registered);
      if dispatch.Some? {
        DispatchesAreAuthorized(
          rest, dispatch.value, w, mid.table[key], admission, basis, api, claimed, hasClassifier, registered);
      }
    }

    /** Worker `w` runs the dispatched attempt, on an authorized action for this Pod. */
    ghost predicate IsDispatched(d: Dispatch, s: P.State, w: nat, api: Surroundings) {
      && hasClassifier && IsAuthorized(d, api.answer, registered)
      && api.pod.Ok? && FirstCrashing(api.pod.value.statuses).Some?
      && d.event == Detection(api).(incidentId := d.event.incidentId, attempt := d.event.attempt)
      && d.event.attempt >= 0
      && At(s, w, IncidentKey(d.event.namespace, d.event.ownerDeployment), d.event.incidentId,
          P.Running(d.event.attempt, 0))
    }

    /** One call: at most one visit, for the first crash-looping container. What it does after its look is what the
        record, the evidence, the classifier's answer and the gate say, and it leaves no claim behind unless an
        action was dispatched. */
    method Reconcile(namespace: string, api: Surroundings, ghost w: nat, ghost s: P.State)
      returns (error: Option<C.ApiError>, dispatch: Option<Dispatch>, ghost steps: seq<P.Step>, ghost s': P.State)
      requires Valid(s) && w !in s.workers && api.freshId !in s.used
      modifies incidents.Repr, audit
      ensures Valid(s') && fresh(incidents.Repr - old(incidents.Repr))
      ensures Took(s, steps, s') && IsVisit(steps, w, dispatch.Some?)
      ensures if Visits(namespace, api) then IsVisitOf(steps, dispatch, w, s.table, api, hasClassifier, registered)
          else steps == []
      ensures dispatch.Some? ==> IsDispatched(dispatch.value, s', w, api)
      ensures dispatch.None? ==> w !in s'.workers
      ensures error == if !SkippedNamespace(namespace) && api.pod.Err? && api.pod.error != C.Missing
          then Some(api.pod.error)
                       else None
    {
      error, dispatch, steps, s' := None, None, [], s;
      if SkippedNamespace(namespace) {
        return;
      }
      if api.pod.Err? {
        error := if api.pod.error == C.Missing then None else Some(api.pod.error);
        return;
      }
      var pod := api.pod.value;
      for i := 0 to |pod.statuses|
        invariant FirstCrashing(pod.statuses) == FirstCrashing(pod.statuses[i..])
        invariant dispatch == None && steps == [] && s' == s && Valid(s) && incidents.Repr == old(incidents.Repr)
      {
        assert pod.statuses[i..][1..] == pod.statuses[i + 1..];
        if pod.statuses[i].crashLooping {
          var owner := OwnerDeploymentName(pod.refs, api.replicaSet);
          if owner != "" {
            dispatch, steps, s' := Handle(pod, pod.statuses[i], owner, api, w, s);
          }
          break;
        }
      }
    }

    /** The steps of a goroutine whose attempt asked for `made` and ended with `result`. */
    ghost function GoroutineSteps(w: nat, made: seq<C.Event>, ref: C.Ref, result: Outcome, now: Time): seq<P.Step> {
      WriteSteps(w, |Moves(made, ref)|) + [P.FinishRemediate(w, result), P.EndAttempt(w, now), P.CloseIncident(w)]
    }

    /** The goroutine of a dispatched attempt: run it once, then give the claim back with what came of it. An error
        leaves the outcome unset. Every own write that moved the Deployment's generation is a step of its own, and the
        LOGGED lines of the attempt are those the protocol has it write. */
    method RunRemediation(d: Dispatch, service: Sv.RemediationService, now: Time, ghost w: nat, ghost s: P.State)
      returns (result: Outcome, outcome: Result<T.Outcome, T.RemediateError>, entries: seq<T.AuditEntry>,
               ghost made: seq<C.Event>, ghost c: T.Course, ghost proof: T.Proof, ghost s': P.State)
      requires Valid(s) && d.event.attempt >= 0 && service.action == d.action
          && service.audit.journal == service.k8s.journal
      requires At(s, w, IncidentKey(d.event.namespace, d.event.ownerDeployment), d.event.incidentId,
          P.Running(d.event.attempt, 0))
      requires {service.k8s, service.clock, service.audit, service.k8s.journal} !! incidents.Repr
      modifies service.k8s, service.clock, service.audit, service.k8s.journal, incidents.Repr, audit
      ensures Valid(s') && incidents.Repr == old(incidents.Repr) && w !in s'.workers
      ensures Took(s, GoroutineSteps(w, made, T.DeploymentOf(d.event), result, now), s') && result == ResultOf(outcome)
      ensures |Moves(made, T.DeploymentOf(d.event))| <= P.MAX_WRITES
      ensures T.ErrorOf(outcome) == T.EndingIn(service.Env(), old(service.Here()), d.event, proof)
      ensures service.k8s.journal.events == old(service.k8s.journal.events) + made
      ensures T.IsTrail(made, d.event, c, T.ErrorOf(outcome)) && T.IsCourse(c, d.action, d.event)
      ensures service.audit.entries == old(service.audit.entries) + entries
      ensures T.Follows(entries, d.event, T.StagesOf(c)) && T.IsLogged(|entries|, made, c, T.ErrorOf(outcome))
      ensures outcome.Ok? ==> T.IsReported(outcome.value, entries, d.event, c)
      ensures AttemptLines(s'.history) == AttemptLines(s.history) + ReportedLines(entries)
    {
      outcome, entries, made, c, proof := service.Remediate(d.event);
      result := ResultOf(outcome);
      AtMostTwoMoves(made, d.action, d.event, c, T.ErrorOf(outcome), T.DeploymentOf(d.event));
      ReportedOnce(entries, d.event, made, c, outcome);
      s' := Finish(d.event, result, now, w, s, |Moves(made, T.DeploymentOf(d.event))|);
    }

    method Finish(e: A.DetectionEvent, result: Outcome, now: Time, ghost w: nat, ghost s: P.State, ghost writes: nat)
      returns (ghost s': P.State)
      requires Valid(s) && e.attempt >= 0 && (LeavesOpen(result) || result == Recovered) && writes <= P.MAX_WRITES
      requires At(s, w, IncidentKey(e.namespace, e.ownerDeployment), e.incidentId, P.Running(e.attempt, 0))
      modifies incidents.Repr, audit
      ensures Valid(s') && incidents.Repr == old(incidents.Repr) && w !in s'.workers
      ensures Took(s, WriteSteps(w, writes) + [P.FinishRemediate(w, result), P.EndAttempt(w, now),
          P.CloseIncident(w)], s')
      ensures AttemptLines(s'.history) == AttemptLines(s.history) + ResultLine(e.incidentId, e.attempt, result)
    {
      var key := IncidentKey(e.namespace, e.ownerDeployment);
      ghost var wrote := SpecWrites(s, w, key, e.incidentId, e.attempt, 0, writes);
      ghost var mid := FinishStep(wrote, w, key, e.incidentId, e.attempt, writes, result);
      ghost var last;
      last, s' := Depart(key, result, now, w, e.incidentId, mid);
      TookMore(wrote, [P.FinishRemediate(w, result)], mid, last, s');
      TookMore(s, WriteSteps(w, writes), wrote, [P.FinishRemediate(w, result)] + last, s');
      assert [P.FinishRemediate(w, result)] + last == [P.FinishRemediate(w, result), P.EndAttempt(w, now),
          P.CloseIncident(w)];
    }
  }
}
