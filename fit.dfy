/**
 * The scale-out feasibility simulator of pkg/scheduler/fit.go (`TryScheduling`, lines 166-219).
 *
 * Proposed pods are tried in input order against the nodes of a cluster snapshot in snapshot
 * order. For every (pod, node) pair a fixed chain of filter plugins runs; the first node that
 * every plugin admits receives the pod, and that node is then marked unschedulable so that the
 * next proposed pods go elsewhere. The plugins are upstream kube-scheduler code: here each one is
 * a pair of functions (an optional PreFilter and a Filter) passed in by the caller.
 */
module Fit {
  import opened Wrappers
  import GoStrings

  /** Status codes of the scheduling framework; a nil status reads as `Success`. */
  datatype Code = Success | Error | Unschedulable | UnschedulableAndUnresolvable | Wait | Skip | Pending

  /** Resource requests or allocatable amounts: CPU in millicores and memory in bytes. */
  datatype Resources = Resources(milliCPU: int, memory: int)

  datatype Taint = Taint(key: string, value: string, effect: string)

  /** A toleration; an empty operator means "Equal", as in the Kubernetes API. */
  datatype Toleration = Toleration(key: string, operator: string, value: string, effect: string)

  /** One requirement of a node selector term or a label selector (`In`, `NotIn`, `Exists`, ...). */
  datatype Requirement = Requirement(key: string, operator: string, values: seq<string>)

  /** A required (anti-)affinity term: the pods its selector matches, within one topology domain. */
  datatype AffinityTerm = AffinityTerm(selector: seq<Requirement>, topologyKey: string)

  /**
   * The parts of a proposed pod that the scheduling plugins look at. `nodeAffinity` is the list
   * of required node selector terms when the pod has one (`None` when it has no required node
   * affinity).
   */
  datatype Pod = Pod(
    name: string,
    labels: map<string, string>,
    requests: Resources,
    tolerations: seq<Toleration>,
    nodeAffinity: Option<seq<seq<Requirement>>>,
    antiAffinity: seq<AffinityTerm>)

  /**
   * A node of the snapshot together with the pods the simulation has bound to it (the
   * scheduler framework's NodeInfo): its labels, taints, allocatable resources, the number of
   * pods it may hold and its `spec.unschedulable` flag.
   */
  datatype Node = Node(
    name: string,
    labels: map<string, string>,
    taints: seq<Taint>,
    allocatable: Resources,
    allowedPods: int,
    unschedulable: bool,
    pods: seq<Pod>)

  /**
   * A filter plugin. PreFilter sees the pod and the current snapshot; Filter additionally sees
   * the node under test. The CycleState that a PreFilter writes for its own Filter is part of
   * these functions: both are re-evaluated for every (pod, node) pair, as the source does.
   */
  datatype Plugin = Plugin(
    name: string,
    preFilter: Option<(Pod, seq<Node>) -> Code>,
    filter: (Pod, seq<Node>, Node) -> Code)

  /** The outcome of a run: every pod placed, a pod that fits nowhere, or a pod-info error. */
  datatype Verdict =
    | Feasible
    | Infeasible(requested: nat, schedulable: nat)
    | PodInfoFailed

  /**
   * One plugin's decision for `pod` on `node` (fit.go:184-203): a PreFilter code other than
   * Success or Skip rejects the node; Skip bypasses this plugin's Filter; otherwise the
   * Filter must return Success.
   */
  predicate Admits(p: Plugin, pod: Pod, snapshot: seq<Node>, node: Node)
  {
    match p.preFilter
    case None => p.filter(pod, snapshot, node) == Success
    case Some(pre) =>
      var c := pre(pod, snapshot);
      c == Skip || (c == Success && p.filter(pod, snapshot, node) == Success)
  }

  /** Every plugin of the chain admits `pod` on `node`. */
  predicate AllAdmit(chain: seq<Plugin>, pod: Pod, snapshot: seq<Node>, node: Node)
  {
    forall j :: 0 <= j < |chain| ==> Admits(chain[j], pod, snapshot, node)
  }

  /** The first node at index `from` or later that every plugin admits. */
  function FirstFit(chain: seq<Plugin>, pod: Pod, nodes: seq<Node>, from: nat): (r: Option<nat>)
    requires from <= |nodes|
    ensures r.Some? ==> from <= r.value < |nodes| && AllAdmit(chain, pod, nodes, nodes[r.value])
    ensures r.Some? ==> forall t :: from <= t < r.value ==> !AllAdmit(chain, pod, nodes, nodes[t])
    ensures r.None? ==> forall t :: from <= t < |nodes| ==> !AllAdmit(chain, pod, nodes, nodes[t])
    decreases |nodes| - from
  {
    if from == |nodes| then None
    else if AllAdmit(chain, pod, nodes, nodes[from]) then Some(from)
    else FirstFit(chain, pod, nodes, from + 1)
  }

  /** The node after the pod is bound to it: `node.AddPod(pod)` and `Spec.Unschedulable = true`. */
  function Bind(node: Node, pod: Pod): Node
  {
    node.(pods := node.pods + [pod], unschedulable := true)
  }

  /**
   * The specification of the placement loop: the verdict and the final snapshot when the pods
   * from index `k` on are placed into `nodes`, `k` pods having been placed already. The pod-info
   * check runs once per node visited, so it is only reached when the snapshot is not empty.
   */
  function Run(chain: seq<Plugin>, podInfoOk: Pod -> bool, pods: seq<Pod>, k: nat, nodes: seq<Node>): (r: (Verdict, seq<Node>))
    requires k <= |pods|
    ensures |r.1| == |nodes|
    ensures r.0.Infeasible? ==> r.0.requested == |pods| && k <= r.0.schedulable < |pods|
    decreases |pods| - k
  {
    if k == |pods| then (Feasible, nodes)
    else if |nodes| > 0 && !podInfoOk(pods[k]) then (PodInfoFailed, nodes)
    else match FirstFit(chain, pods[k], nodes, 0)
      case None => (Infeasible(|pods|, k), nodes)
      case Some(i) => Run(chain, podInfoOk, pods, k + 1, nodes[i := Bind(nodes[i], pods[k])])
  }

  /** The error the source returns for an `Infeasible` verdict (fit.go:217). */
  function InfeasibleMessage(requested: nat, schedulable: nat): string
  {
    "unable to schedule all the pods, requested: " + GoStrings.DecimalString(requested)
      + ", schedulable: " + GoStrings.DecimalString(schedulable)
  }

  /** The plugin loop of fit.go:184-204 for one (pod, node) pair. */
  method Fits(chain: seq<Plugin>, pod: Pod, snapshot: seq<Node>, node: Node) returns (ok: bool)
    ensures ok == AllAdmit(chain, pod, snapshot, node)
  {
    ok := true;
    var j := 0;
    while j < |chain| && ok
      invariant 0 <= j <= |chain|
      invariant ok == (forall t :: 0 <= t < j ==> Admits(chain[t], pod, snapshot, node))
    {
      var p := chain[j];
      var preStatus: Option<Code> := None;
      if p.preFilter.Some? {
        var c := p.preFilter.value(pod, snapshot);
        if c != Success && c != Skip {
          ok := false;  // continue NextNode
        }
        preStatus := Some(c);
      }
      if ok && preStatus != Some(Skip) {
        if p.filter(pod, snapshot, node) != Success {
          ok := false;  // continue NextNode
        }
      }
      j := j + 1;
    }
  }

  /**
   * `TryScheduling`'s placement loop over the snapshot `nodes`, updated in place. `podInfoOk`
   * stands for `framework.NewPodInfo` succeeding on a pod.
   */
  method TryScheduling(chain: seq<Plugin>, podInfoOk: Pod -> bool, proposed: seq<Pod>, nodes: array<Node>) returns (v: Verdict)
    modifies nodes
    ensures (v, nodes[..]) == Run(chain, podInfoOk, proposed, 0, old(nodes[..]))
  {
    var succeeded := 0;
    while succeeded < |proposed|
      invariant 0 <= succeeded <= |proposed|
      invariant Run(chain, podInfoOk, proposed, succeeded, nodes[..]) == Run(chain, podInfoOk, proposed, 0, old(nodes[..]))
    {
      var pod := proposed[succeeded];
      var found: Option<nat> := None;
      ghost var before := nodes[..];
      var i := 0;
      while i < nodes.Length
        invariant 0 <= i <= nodes.Length
        invariant nodes[..] == before
        invariant i > 0 ==> podInfoOk(pod)
        invariant FirstFit(chain, pod, nodes[..], i) == FirstFit(chain, pod, nodes[..], 0)
      {
        if !podInfoOk(pod) {
          return PodInfoFailed;
        }
        var ok := Fits(chain, pod, nodes[..], nodes[i]);
        if ok {
          found := Some(i);
          break;
        }
        i := i + 1;
      }
      assert found == FirstFit(chain, pod, nodes[..], 0);
      if found.None? {
        return Infeasible(|proposed|, succeeded);
      }
      var t := found.value;
      nodes[t] := Bind(nodes[t], pod);
      succeeded := succeeded + 1;
    }
    return Feasible;
  }

  /** The number of pods bound to the nodes of a snapshot. */
  function PodCount(nodes: seq<Node>): nat
  {
    if nodes == [] then 0 else PodCount(nodes[..|nodes| - 1]) + |nodes[|nodes| - 1].pods|
  }

  /** The number of nodes of a snapshot that are not marked unschedulable. */
  function FreeCount(nodes: seq<Node>): nat
  {
    if nodes == [] then 0 else FreeCount(nodes[..|nodes| - 1]) + (if nodes[|nodes| - 1].unschedulable then 0 else 1)
  }

  /** Binding one pod to node `i` adds one pod to the snapshot's count. */
  lemma {:induction false} PodCountBind(nodes: seq<Node>, i: nat, pod: Pod)
    requires i < |nodes|
    ensures PodCount(nodes[i := Bind(nodes[i], pod)]) == PodCount(nodes) + 1
    decreases |nodes|
  {
    var m := nodes[i := Bind(nodes[i], pod)];
    var n := |nodes| - 1;
    assert m[..n] == if i == n then nodes[..n] else nodes[..n][i := Bind(nodes[i], pod)];
    if i < n {
      PodCountBind(nodes[..n], i, pod);
    }
  }

  /** Binding one pod to a schedulable node `i` takes one node out of the free count. */
  lemma {:induction false} FreeCountBind(nodes: seq<Node>, i: nat, pod: Pod)
    requires i < |nodes| && !nodes[i].unschedulable
    ensures FreeCount(nodes[i := Bind(nodes[i], pod)]) + 1 == FreeCount(nodes)
    decreases |nodes|
  {
    var m := nodes[i := Bind(nodes[i], pod)];
    var n := |nodes| - 1;
    assert m[..n] == if i == n then nodes[..n] else nodes[..n][i := Bind(nodes[i], pod)];
    if i < n {
      FreeCountBind(nodes[..n], i, pod);
    }
  }

  /**
   * Every placement adds exactly one pod: on success the snapshot holds the proposed pods from
   * `k` on in addition to its own, and on failure the `schedulable` pods placed so far.
   */
  lemma {:induction false} RunCountsPlacements(chain: seq<Plugin>, podInfoOk: Pod -> bool, pods: seq<Pod>, k: nat, nodes: seq<Node>)
    requires k <= |pods|
    ensures var r := Run(chain, podInfoOk, pods, k, nodes);
      (r.0.Feasible? ==> PodCount(r.1) == PodCount(nodes) + |pods| - k)
      && (r.0.Infeasible? ==> PodCount(r.1) == PodCount(nodes) + r.0.schedulable - k)
    decreases |pods| - k
  {
    if k < |pods| && !(|nodes| > 0 && !podInfoOk(pods[k])) {
      var f := FirstFit(chain, pods[k], nodes, 0);
      if f.Some? {
        var i := f.value;
        PodCountBind(nodes, i, pods[k]);
        RunCountsPlacements(chain, podInfoOk, pods, k + 1, nodes[i := Bind(nodes[i], pods[k])]);
      }
    }
  }

  /**
   * A plugin that rejects every node marked unschedulable for each of the proposed pods, as the
   * nodeunschedulable plugin does for pods that do not tolerate the
   * `node.kubernetes.io/unschedulable` taint.
   */
  ghost predicate GuardsUnschedulable(p: Plugin, pods: seq<Pod>)
  {
    forall i: int, snapshot: seq<Node>, node: Node ::
      0 <= i < |pods| && node.unschedulable ==> !Admits(p, pods[i], snapshot, node)
  }

  /**
   * With such a plugin in the chain, every placement uses up one schedulable node, so a run can
   * place no more proposed pods than the snapshot has schedulable nodes: one pod per node.
   */
  lemma {:induction false} RunOnePodPerNode(chain: seq<Plugin>, podInfoOk: Pod -> bool, pods: seq<Pod>, k: nat, nodes: seq<Node>, u: nat)
    requires k <= |pods| && u < |chain| && GuardsUnschedulable(chain[u], pods)
    ensures var r := Run(chain, podInfoOk, pods, k, nodes);
      (r.0.Feasible? ==> FreeCount(r.1) + (|pods| - k) == FreeCount(nodes))
      && (r.0.Infeasible? ==> FreeCount(r.1) + (r.0.schedulable - k) == FreeCount(nodes))
    decreases |pods| - k
  {
    if k < |pods| && !(|nodes| > 0 && !podInfoOk(pods[k])) {
      var f := FirstFit(chain, pods[k], nodes, 0);
      if f.Some? {
        var i := f.value;
        assert Admits(chain[u], pods[k], nodes, nodes[i]);
        FreeCountBind(nodes, i, pods[k]);
        RunOnePodPerNode(chain, podInfoOk, pods, k + 1, nodes[i := Bind(nodes[i], pods[k])], u);
      }
    }
  }

  /**
   * With such a plugin in the chain, a run adds at most one pod to a schedulable node and none to
   * an unschedulable one.
   */
  lemma {:induction false} AtMostOnePodPerNode(chain: seq<Plugin>, podInfoOk: Pod -> bool, pods: seq<Pod>, k: nat, nodes: seq<Node>, u: nat)
    requires k <= |pods| && u < |chain| && GuardsUnschedulable(chain[u], pods)
    ensures var r := Run(chain, podInfoOk, pods, k, nodes);
      forall i :: 0 <= i < |nodes| ==> |r.1[i].pods| <= |nodes[i].pods| + (if nodes[i].unschedulable then 0 else 1)
    decreases |pods| - k
  {
    if k < |pods| && !(|nodes| > 0 && !podInfoOk(pods[k])) {
      var f := FirstFit(chain, pods[k], nodes, 0);
      if f.Some? {
        var j := f.value;
        assert Admits(chain[u], pods[k], nodes, nodes[j]);
        var next := nodes[j := Bind(nodes[j], pods[k])];
        AtMostOnePodPerNode(chain, podInfoOk, pods, k + 1, next, u);
        assert Run(chain, podInfoOk, pods, k, nodes) == Run(chain, podInfoOk, pods, k + 1, next);
        assert next[j].unschedulable && |next[j].pods| == |nodes[j].pods| + 1;
      }
    }
  }

  /** Corollary: a feasible run never proposes more pods than there are schedulable nodes. */
  lemma {:induction false} FeasibleWithinFreeNodes(chain: seq<Plugin>, podInfoOk: Pod -> bool, pods: seq<Pod>, nodes: seq<Node>, u: nat)
    requires u < |chain| && GuardsUnschedulable(chain[u], pods)
    requires Run(chain, podInfoOk, pods, 0, nodes).0.Feasible?
    ensures |pods| <= FreeCount(nodes)
  {
    RunOnePodPerNode(chain, podInfoOk, pods, 0, nodes, u);
  }

  /**
   * A node keeps everything but its pod list and its unschedulable flag, and its pod list only
   * grows: the nodes of `b` are the nodes of `a` with proposed pods appended.
   */
  predicate Extends(a: Node, b: Node)
  {
    b == a.(pods := b.pods, unschedulable := b.unschedulable)
    && |a.pods| <= |b.pods| && b.pods[..|a.pods|] == a.pods
    && (|b.pods| > |a.pods| ==> b.unschedulable)
    && (|b.pods| == |a.pods| ==> b.unschedulable == a.unschedulable)
  }

  predicate ExtendsAll(a: seq<Node>, b: seq<Node>)
  {
    |a| == |b| && forall i :: 0 <= i < |a| ==> Extends(a[i], b[i])
  }

  /**
   * The run only ever appends proposed pods to nodes and sets the flag of nodes it placed a pod
   * on; nothing else about the snapshot changes.
   */
  lemma {:induction false} RunOnlyAppends(chain: seq<Plugin>, podInfoOk: Pod -> bool, pods: seq<Pod>, k: nat, nodes: seq<Node>)
    requires k <= |pods|
    ensures ExtendsAll(nodes, Run(chain, podInfoOk, pods, k, nodes).1)
    decreases |pods| - k
  {
    var r := Run(chain, podInfoOk, pods, k, nodes);
    if k < |pods| && !(|nodes| > 0 && !podInfoOk(pods[k])) {
      var f := FirstFit(chain, pods[k], nodes, 0);
      if f.Some? {
        var i := f.value;
        var m := nodes[i := Bind(nodes[i], pods[k])];
        RunOnlyAppends(chain, podInfoOk, pods, k + 1, m);
        forall t | 0 <= t < |nodes|
          ensures Extends(nodes[t], r.1[t])
        {
          assert Extends(m[t], r.1[t]);
          if t == i {
            assert m[t].pods[..|nodes[t].pods|] == nodes[t].pods;
            assert r.1[t].pods[..|m[t].pods|] == m[t].pods;
            assert r.1[t].pods[..|nodes[t].pods|] == m[t].pods[..|nodes[t].pods|];
          }
        }
      }
    }
  }

  /** Node `i` is admitted by every plugin and no node before it is. */
  predicate IsFirstAdmitting(chain: seq<Plugin>, pod: Pod, nodes: seq<Node>, i: int)
  {
    0 <= i < |nodes| && AllAdmit(chain, pod, nodes, nodes[i])
    && forall t :: 0 <= t < i ==> !AllAdmit(chain, pod, nodes, nodes[t])
  }

  /** With no proposed pods the run succeeds and leaves the snapshot as it is. */
  lemma {:induction false} EmptyProposalSucceeds(chain: seq<Plugin>, podInfoOk: Pod -> bool, nodes: seq<Node>)
    ensures Run(chain, podInfoOk, [], 0, nodes) == (Feasible, nodes)
  {
  }

  /**
   * First fit, no backtracking: the pod at index `k` goes to the first node that every plugin
   * admits, given the snapshot as left by the earlier pods; a pod no node admits ends the run.
   */
  lemma {:induction false} FirstFitIsChosen(chain: seq<Plugin>, podInfoOk: Pod -> bool, pods: seq<Pod>, k: nat, nodes: seq<Node>)
    requires k < |pods| && |nodes| > 0 && podInfoOk(pods[k])
    ensures forall i :: IsFirstAdmitting(chain, pods[k], nodes, i) ==>
      Run(chain, podInfoOk, pods, k, nodes) == Run(chain, podInfoOk, pods, k + 1, nodes[i := Bind(nodes[i], pods[k])])
    ensures (forall i :: 0 <= i < |nodes| ==> !AllAdmit(chain, pods[k], nodes, nodes[i]))
        ==> Run(chain, podInfoOk, pods, k, nodes) == (Infeasible(|pods|, k), nodes)
  {
    forall i | IsFirstAdmitting(chain, pods[k], nodes, i)
      ensures FirstFit(chain, pods[k], nodes, 0) == Some(i)
    {
    }
  }
}
