/** Which Pod may prove a recovery: a live replacement owned by the Deployment and unseen before the action. */
module Resolver {
  import opened Basics
  import opened Cluster
  import opened Verifier
  import opened Sorting

  predicate Readable(st: State, ref: Ref) {
    ref in st.deployments && st.deployments[ref].spec.selector.Some?
  }

  /** The UIDs of the ReplicaSets the Deployment controls, and the Pods its selector lists. */
  function OwnedReplicaSets(st: State, ref: Ref): set<string>
    requires Readable(st, ref)
  {
    var d := st.deployments[ref];
    set rs <- ListReplicaSets(st, ref.namespace, d.spec.selector.value) | IsControlledBy(rs, d) :: rs.uid
  }

  function ListedPods(st: State, ref: Ref): seq<Pod>
    requires Readable(st, ref)
  {
    ListPods(st, ref.namespace, st.deployments[ref].spec.selector.value)
  }

  /** A Pod of the Deployment: selected by it and controlled by one of its ReplicaSets. */
  predicate OwnedPod(st: State, ref: Ref, p: Pod)
    requires Readable(st, ref)
  {
    p in ListedPods(st, ref) && p.controller.Some? && p.controller.value in OwnedReplicaSets(st, ref)
  }

  /** Any Pod that may satisfy the verification. */
  predicate Eligible(st: State, t: Target, p: Pod)
    requires Readable(st, t.deployment) && t.preActionUids.Some?
  {
    && OwnedPod(st, t.deployment, p)
    && !p.terminating && p.namespace == t.deployment.namespace
    && t.container in p.containers
    && p.name != t.originalPod.name
    && p.uid !in t.preActionUids.value
  }

  /** eligibleDeploymentPod: only tests values. */
  predicate EligibleDeploymentPod(p: Pod, owned: set<string>, t: Target)
    requires t.preActionUids.Some?
  {
    if p.terminating || p.namespace != t.deployment.namespace then false
    else if p.controller.None? || p.controller.value !in owned then false
    else if t.container !in p.containers then false
    else if p.name == t.originalPod.name then false
    else p.uid !in t.preActionUids.value
  }

  /** Newest first; among equally old Pods the greatest name first. */
  predicate NewestFirst(a: Pod, b: Pod) {
    if a.createdAt != b.createdAt then a.createdAt > b.createdAt else LexLeq(b.name, a.name)
  }

  lemma NewestFirstOrders()
    ensures TotalPreorder(NewestFirst)
  {
    forall a, b ensures NewestFirst(a, b) || NewestFirst(b, a) {
      LexTotal(a.name, b.name);
    }
    forall a, b, c | NewestFirst(a, b) && NewestFirst(b, c) ensures NewestFirst(a, c) {
      if a.createdAt == b.createdAt == c.createdAt {
        LexTransitive(c.name, b.name, a.name);
      }
    }
  }

  /** The answer of Resolve in a given cluster state. */
  function Resolved(st: State, t: Target): Answer
    requires t.preActionUids.Some?
  {
    if !Readable(st, t.deployment) then Broken
    else
      var owned := OwnedReplicaSets(st, t.deployment);
      var candidates := Filter(ListedPods(st, t.deployment), (p: Pod) => EligibleDeploymentPod(p, owned, t));
      var sorted := Sort(candidates, NewestFirst);
      if |sorted| == 0 then NotFound else Found(sorted[0])
  }

  method DeploymentPods(st: State, ref: Ref) returns (r: Option<(seq<Pod>, set<string>)>)
    ensures r == if Readable(st, ref) then Some((ListedPods(st, ref), OwnedReplicaSets(st, ref))) else None
  {
    if ref !in st.deployments || st.deployments[ref].spec.selector.None? {
      return None;
    }
    var d := st.deployments[ref];
    var replicaSets := ListReplicaSets(st, ref.namespace, d.spec.selector.value);
    var owned: set<string> := {};
    for i := 0 to |replicaSets|
      invariant owned == set rs <- replicaSets[..i] | IsControlledBy(rs, d) :: rs.uid
    {
      assert replicaSets[..i + 1] == replicaSets[..i] + [replicaSets[i]];
      if IsControlledBy(replicaSets[i], d) {
        owned := owned + {replicaSets[i].uid};
      }
    }
    assert replicaSets[..|replicaSets|] == replicaSets;
    return Some((ListPods(st, ref.namespace, d.spec.selector.value), owned));
  }

  lemma {:induction false} FilterSnoc<T(!new)>(s: seq<T>, x: T, keep: T -> bool)
    ensures Filter(s + [x], keep) == Filter(s, keep) + if keep(x) then [x] else []
  {
    if s != [] {
      assert (s + [x])[1..] == s[1..] + [x];
      FilterSnoc(s[1..], x, keep);
    }
  }

  lemma CandidatesSort(candidates: seq<Pod>)
    ensures |Sort(candidates, NewestFirst)| == |candidates|
  {
    NewestFirstOrders();
    SortKeepsElements(candidates, NewestFirst);
  }

  method Resolve(st: State, t: Target) returns (answer: Answer)
    requires t.preActionUids.Some?
    ensures answer == Resolved(st, t)
  {
    var read := DeploymentPods(st, t.deployment);
    if read.None? {
      return Broken;
    }
    var (pods, owned) := read.value;
    var candidates: seq<Pod> := [];
    for i := 0 to |pods|
      invariant candidates == Filter(pods[..i], (p: Pod) => EligibleDeploymentPod(p, owned, t))
    {
      assert pods[..i + 1] == pods[..i] + [pods[i]];
      FilterSnoc(pods[..i], pods[i], (p: Pod) => EligibleDeploymentPod(p, owned, t));
      if EligibleDeploymentPod(pods[i], owned, t) {
        candidates := candidates + [pods[i]];
      }
    }
    assert pods[..|pods|] == pods;
    CandidatesSort(candidates);
    if |candidates| == 0 {
      return NotFound;
    }
    var sorted := Sort(candidates, NewestFirst);
    return Found(sorted[0]);
  }

  function UidsOf(pods: seq<Pod>, owned: set<string>): set<string> {
    set p <- pods | p.controller.Some? && p.controller.value in owned && p.uid != "" :: p.uid
  }

  lemma UidsGrow(pods: seq<Pod>, p: Pod, owned: set<string>)
    ensures UidsOf(pods + [p], owned)
            == UidsOf(pods, owned) + if p.controller.Some? && p.controller.value in owned && p.uid != "" then {p.uid}
                else {}
  {
  }

  method CollectUids(pods: seq<Pod>, owned: set<string>) returns (uids: set<string>)
    ensures uids == UidsOf(pods, owned)
  {
    uids := {};
    for i := 0 to |pods|
      invariant uids == UidsOf(pods[..i], owned)
    {
      assert pods[..i + 1] == pods[..i] + [pods[i]];
      var p := pods[i];
      UidsGrow(pods[..i], p, owned);
      if p.controller.Some? && p.controller.value in owned && p.uid != "" {
        uids := uids + {p.uid};
      }
    }
    assert pods[..|pods|] == pods;
  }

  /** The identities that must never satisfy verification: every Pod the Deployment controls now. */
  method CapturePreActionPodUids(st: State, ref: Ref) returns (r: Option<set<string>>)
    ensures r == CapturedUids(st, ref)
  {
    var read := DeploymentPods(st, ref);
    if read.None? {
      return None;
    }
    var uids := CollectUids(read.value.0, read.value.1);
    r := Some(uids);
  }

  function CapturedUids(st: State, ref: Ref): Option<set<string>> {
    if !Readable(st, ref) then None
    else
      var owned := OwnedReplicaSets(st, ref);
      Some(UidsOf(ListedPods(st, ref), owned))
  }

  // ------------------------------------------------------------------ selection

  /** Resolve finds a Pod exactly when one is eligible, and the one it finds is eligible and no eligible Pod is
      newer, nor equally new with a greater name. */
  lemma ResolvedIsNewestEligible(st: State, t: Target)
    requires t.preActionUids.Some? && Readable(st, t.deployment)
    ensures Resolved(st, t) != Broken
    ensures Resolved(st, t) == NotFound <==> !exists p :: Eligible(st, t, p)
    ensures Resolved(st, t).Found? ==>
              && Eligible(st, t, Resolved(st, t).pod)
              && forall q | Eligible(st, t, q) :: NewestFirst(Resolved(st, t).pod, q)
  {
    var owned := OwnedReplicaSets(st, t.deployment);
    var candidates := Filter(ListedPods(st, t.deployment), (p: Pod) => EligibleDeploymentPod(p, owned, t));
    var sorted := Sort(candidates, NewestFirst);
    NewestFirstOrders();
    SortSorts(candidates, NewestFirst);
    SortKeepsElements(candidates, NewestFirst);
    forall p ensures p in sorted <==> Eligible(st, t, p) {
    }
    if |sorted| > 0 {
      assert sorted[0] in sorted;
      forall q | Eligible(st, t, q) ensures NewestFirst(sorted[0], q) {
        var k :| 0 <= k < |sorted| && sorted[k] == q;
        assert k == 0 || NewestFirst(sorted[0], sorted[k]);
        LexTotal(q.name, q.name);
      }
    }
  }

  /** Two states that differ at most in the order of their lists. */
  ghost predicate SameUpToOrder(st: State, other: State) {
    && other.deployments == st.deployments
    && (forall p :: p in other.pods <==> p in st.pods)
    && (forall rs :: rs in other.replicaSets <==> rs in st.replicaSets)
  }

  lemma SameOwners(st: State, other: State, ref: Ref)
    requires SameUpToOrder(st, other) && Readable(st, ref)
    ensures OwnedReplicaSets(other, ref) == OwnedReplicaSets(st, ref)
    ensures forall p :: p in ListedPods(other, ref) <==> p in ListedPods(st, ref)
  {
    var selector := st.deployments[ref].spec.selector.value;
    assert forall rs :: rs in ListReplicaSets(other, ref.namespace, selector) <==>
        rs in ListReplicaSets(st, ref.namespace, selector);
  }

  lemma CaptureIncluded(st: State, other: State, ref: Ref)
    requires Readable(st, ref) && Readable(other, ref) && OwnedReplicaSets(other, ref) == OwnedReplicaSets(st, ref)
    requires forall p :: p in ListedPods(other, ref) <==> p in ListedPods(st, ref)
    ensures CapturedUids(st, ref).value <= CapturedUids(other, ref).value
  {
    var owned := OwnedReplicaSets(st, ref);
    forall u | u in CapturedUids(st, ref).value ensures u in CapturedUids(other, ref).value {
      var p :| p in ListedPods(st, ref) && p.controller.Some? && p.controller.value in owned && p.uid != ""
          && p.uid == u;
      assert p in ListedPods(other, ref);
    }
  }

  lemma SameCapture(st: State, other: State, ref: Ref)
    requires SameUpToOrder(st, other)
    ensures CapturedUids(other, ref) == CapturedUids(st, ref)
  {
    if Readable(st, ref) {
      SameOwners(st, other, ref);
      CaptureIncluded(st, other, ref);
      CaptureIncluded(other, st, ref);
      assert CapturedUids(other, ref).value == CapturedUids(st, ref).value;
    }
  }

  /** The order in which the API server lists objects does not matter, as long as no two Pods of a namespace
      share a name. */
  lemma SelectionIgnoresListOrder(st: State, other: State, t: Target)
    requires t.preActionUids.Some? && SameUpToOrder(st, other)
    requires forall p, q | p in st.pods && q in st.pods && p.namespace == q.namespace && p.name == q.name :: p == q
    ensures Resolved(other, t) == Resolved(st, t)
    ensures CapturedUids(other, t.deployment) == CapturedUids(st, t.deployment)
  {
    SameCapture(st, other, t.deployment);
    if Readable(st, t.deployment) {
      SameOwners(st, other, t.deployment);
      forall p ensures Eligible(other, t, p) <==> Eligible(st, t, p) {
      }
      ResolvedIsNewestEligible(st, t);
      ResolvedIsNewestEligible(other, t);
      if Resolved(st, t).Found? {
        NewestIsUnique(st, t, Resolved(st, t).pod, Resolved(other, t).pod);
      }
    }
  }

  lemma NewestIsUnique(st: State, t: Target, a: Pod, b: Pod)
    requires t.preActionUids.Some? && Readable(st, t.deployment) && Eligible(st, t, a) && Eligible(st, t, b)
    requires forall p, q | p in st.pods && q in st.pods && p.namespace == q.namespace && p.name == q.name :: p == q
    requires NewestFirst(a, b) && NewestFirst(b, a)
    ensures a == b
  {
    LexTotal(a.name, b.name);
  }

  /** No Pod that existed before the action, the original included, can be selected after it. */
  lemma OldPodsNeverSelected(before: State, after: State, t: Target, p: Pod)
    requires t.preActionUids == CapturedUids(before, t.deployment) && t.preActionUids.Some?
    requires Readable(after, t.deployment) && Eligible(after, t, p) && p.uid != ""
    ensures forall q | OwnedPod(before, t.deployment, q) :: q.uid != p.uid
    ensures p.name != t.originalPod.name
  {
  }
}
