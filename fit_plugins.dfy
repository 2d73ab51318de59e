/**
 * Simple versions of the five kube-scheduler filter plugins that pkg/scheduler/fit.go chains
 * (lines 166-172), enough to replay the smoke scenarios of pkg/scheduler/fit_test.go. The real
 * plugins are upstream code; these keep only the checks those scenarios exercise.
 */
module FitPlugins {
  import opened Wrappers
  import opened Fit

  /** The taint the nodeunschedulable plugin asks a pod to tolerate on an unschedulable node. */
  const UnschedulableTaint := Taint("node.kubernetes.io/unschedulable", "", "NoSchedule")

  /** The total requests of the pods bound to a node. */
  function Requested(pods: seq<Pod>): Resources
  {
    if pods == [] then Resources(0, 0)
    else
      var r := Requested(pods[..|pods| - 1]);
      var p := pods[|pods| - 1].requests;
      Resources(r.milliCPU + p.milliCPU, r.memory + p.memory)
  }

  /** noderesources Fit: room for one more pod, and the pod's requests fit what is left. */
  function ResourcesFilter(pod: Pod, snapshot: seq<Node>, node: Node): Code
  {
    var used := Requested(node.pods);
    if |node.pods| + 1 > node.allowedPods then Unschedulable
    else if pod.requests.milliCPU > 0 && pod.requests.milliCPU > node.allocatable.milliCPU - used.milliCPU then Unschedulable
    else if pod.requests.memory > 0 && pod.requests.memory > node.allocatable.memory - used.memory then Unschedulable
    else Success
  }

  /**
   * `Toleration.ToleratesTaint`: an empty effect or key matches any, an empty operator means
   * Equal, and an unknown operator tolerates nothing.
   */
  predicate Tolerates(t: Toleration, taint: Taint)
  {
    (t.effect == "" || t.effect == taint.effect)
    && (t.key == "" || t.key == taint.key)
    && (t.operator == "Exists" || ((t.operator == "" || t.operator == "Equal") && t.value == taint.value))
  }

  predicate Tolerated(pod: Pod, taint: Taint)
  {
    exists i :: 0 <= i < |pod.tolerations| && Tolerates(pod.tolerations[i], taint)
  }

  /** nodeunschedulable: an unschedulable node admits only pods tolerating its taint. */
  function UnschedulableFilter(pod: Pod, snapshot: seq<Node>, node: Node): Code
  {
    if !node.unschedulable || Tolerated(pod, UnschedulableTaint) then Success
    else UnschedulableAndUnresolvable
  }

  /** One requirement against a label set. */
  predicate Matches(labels: map<string, string>, r: Requirement)
  {
    match r.operator
    case "In" => r.key in labels && labels[r.key] in r.values
    case "NotIn" => r.key !in labels || labels[r.key] !in r.values
    case "Exists" => r.key in labels
    case "DoesNotExist" => r.key !in labels
    case _ => false
  }

  predicate MatchesAll(labels: map<string, string>, reqs: seq<Requirement>)
  {
    forall i :: 0 <= i < |reqs| ==> Matches(labels, reqs[i])
  }

  /** nodeaffinity PreFilter: nothing to check when the pod has no required node affinity. */
  function AffinityPreFilter(pod: Pod, snapshot: seq<Node>): Code
  {
    if pod.nodeAffinity.None? then Skip else Success
  }

  /** nodeaffinity Filter: some required node selector term matches the node's labels. */
  function AffinityFilter(pod: Pod, snapshot: seq<Node>, node: Node): Code
  {
    match pod.nodeAffinity
    case None => Success
    case Some(terms) =>
      if exists i :: 0 <= i < |terms| && MatchesAll(node.labels, terms[i]) then Success
      else UnschedulableAndUnresolvable
  }

  /** `node` and `other` are in the same topology domain for `key`. */
  predicate SameDomain(node: Node, other: Node, key: string)
  {
    key in node.labels && key in other.labels && node.labels[key] == other.labels[key]
  }

  /** A required anti-affinity term of `pod` forbids placing it next to `existing` on `node`. */
  predicate Repels(pod: Pod, existing: Pod, node: Node, other: Node)
  {
    exists i :: 0 <= i < |pod.antiAffinity|
      && MatchesAll(existing.labels, pod.antiAffinity[i].selector)
      && SameDomain(node, other, pod.antiAffinity[i].topologyKey)
  }

  predicate AnyAntiAffinity(snapshot: seq<Node>)
  {
    exists n, q :: 0 <= n < |snapshot| && 0 <= q < |snapshot[n].pods| && |snapshot[n].pods[q].antiAffinity| > 0
  }

  /** interpodaffinity PreFilter: nothing to check when no anti-affinity is involved. */
  function InterPodPreFilter(pod: Pod, snapshot: seq<Node>): Code
  {
    if |pod.antiAffinity| == 0 && !AnyAntiAffinity(snapshot) then Skip else Success
  }

  /** interpodaffinity Filter: no anti-affinity, of the pod or of a bound pod, is violated. */
  function InterPodFilter(pod: Pod, snapshot: seq<Node>, node: Node): Code
  {
    if exists n, q :: 0 <= n < |snapshot| && 0 <= q < |snapshot[n].pods|
        && (Repels(pod, snapshot[n].pods[q], node, snapshot[n]) || Repels(snapshot[n].pods[q], pod, snapshot[n], node))
    then Unschedulable
    else Success
  }

  /** tainttoleration: every NoSchedule or NoExecute taint of the node is tolerated. */
  function TaintFilter(pod: Pod, snapshot: seq<Node>, node: Node): Code
  {
    if forall i :: 0 <= i < |node.taints| && (node.taints[i].effect == "NoSchedule" || node.taints[i].effect == "NoExecute")
        ==> Tolerated(pod, node.taints[i])
    then Success
    else UnschedulableAndUnresolvable
  }

  /** The chain of fit.go:166-172, in its order. */
  function Chain(): seq<Plugin>
  {
    [ Plugin("NodeResourcesFit", Some((pod, snapshot) => Success), ResourcesFilter),
      Plugin("NodeUnschedulable", None, UnschedulableFilter),
      Plugin("NodeAffinity", Some(AffinityPreFilter), AffinityFilter),
      Plugin("InterPodAffinity", Some(InterPodPreFilter), InterPodFilter),
      Plugin("TaintToleration", None, TaintFilter) ]
  }

  /** The nodeunschedulable plugin of the chain guards unschedulable nodes against pods without tolerations. */
  lemma {:induction false} ChainGuardsUnschedulable(pods: seq<Pod>)
    requires forall i :: 0 <= i < |pods| ==> pods[i].tolerations == []
    ensures |Chain()| == 5 && GuardsUnschedulable(Chain()[1], pods)
  {
  }

  /** The chain admits a pod on a node exactly when each of the five plugins does. */
  lemma {:induction false} ChainAdmits(pod: Pod, snapshot: seq<Node>, node: Node)
    ensures AllAdmit(Chain(), pod, snapshot, node) <==>
      ResourcesFilter(pod, snapshot, node) == Success
      && UnschedulableFilter(pod, snapshot, node) == Success
      && (AffinityPreFilter(pod, snapshot) == Skip || AffinityFilter(pod, snapshot, node) == Success)
      && (InterPodPreFilter(pod, snapshot) == Skip || InterPodFilter(pod, snapshot, node) == Success)
      && TaintFilter(pod, snapshot, node) == Success
  {
    var c := Chain();
    assert Admits(c[0], pod, snapshot, node) <==> ResourcesFilter(pod, snapshot, node) == Success;
    assert Admits(c[2], pod, snapshot, node) <==>
      (AffinityPreFilter(pod, snapshot) == Skip || AffinityFilter(pod, snapshot, node) == Success);
    assert Admits(c[3], pod, snapshot, node) <==>
      (InterPodPreFilter(pod, snapshot) == Skip || InterPodFilter(pod, snapshot, node) == Success);
    if Admits(c[0], pod, snapshot, node) && Admits(c[1], pod, snapshot, node) && Admits(c[2], pod, snapshot, node)
      && Admits(c[3], pod, snapshot, node) && Admits(c[4], pod, snapshot, node)
    {
      forall j | 0 <= j < 5 ensures Admits(c[j], pod, snapshot, node) {
        if j == 0 {} else if j == 1 {} else if j == 2 {} else if j == 3 {} else {}
      }
    }
  }

  /** `makeResources(milliCPU, memory, pods)` of fit_test.go; the pod count is not a request. */
  function TestResources(milliCPU: int, memory: int): Resources
  {
    Resources(milliCPU, memory)
  }

  /** `makeNode`: 1000m CPU, 1000 bytes of memory and 100 pods allocatable, schedulable. */
  function TestNode(name: string): Node
  {
    Node(name, map[], [], TestResources(1000, 1000), 100, false, [])
  }

  function TestPod(name: string, requests: Resources): Pod
  {
    Pod(name, map[], requests, [], None, [])
  }

  const PurposeKey := "cassandra.datastax.com/node-purpose"

  /** Pod-info construction never fails for these pods. */
  function AlwaysOk(pod: Pod): bool
  {
    true
  }

  /** A pod that asks for nothing the chain checks is placed on the first schedulable node. */
  lemma {:induction false} PlainPodOnFreshNode(pod: Pod, node: Node)
    requires pod.nodeAffinity.None? && |pod.antiAffinity| == 0
    requires node.pods == [] && !node.unschedulable && node.taints == [] && node.allowedPods >= 1
    requires pod.requests.milliCPU <= node.allocatable.milliCPU && pod.requests.memory <= node.allocatable.memory
    ensures Run(Chain(), AlwaysOk, [pod], 0, [node]) == (Feasible, [Bind(node, pod)])
  {
    ChainAdmits(pod, [node], node);
    assert !AnyAntiAffinity([node]);
    assert FirstFit(Chain(), pod, [node], 0) == Some(0);
    assert [node][0 := Bind(node, pod)] == [Bind(node, pod)];
  }

  /** fit_test.go:17-34: a 100m/100 pod fits the test node, an 1100m/1100 pod does not. */
  lemma {:induction false} SmokeResources()
    ensures Run(Chain(), AlwaysOk, [TestPod("pod1", TestResources(100, 100))], 0, [TestNode("node1")]).0 == Feasible
    ensures Run(Chain(), AlwaysOk, [TestPod("pod1", TestResources(1100, 1100))], 0, [TestNode("node1")]).0 == Infeasible(1, 0)
  {
    PlainPodOnFreshNode(TestPod("pod1", TestResources(100, 100)), TestNode("node1"));
    var big := TestPod("pod1", TestResources(1100, 1100));
    var n := TestNode("node1");
    ChainAdmits(big, [n], n);
    assert ResourcesFilter(big, [n], n) != Success;
    assert FirstFit(Chain(), big, [n], 0) == None;
  }

  /** fit_test.go:36-67: a NoSchedule taint rejects the pod until it carries a matching toleration. */
  lemma {:induction false} SmokeTolerations()
    ensures var n := TestNode("node1").(taints := [Taint(PurposeKey, "database", "NoSchedule")]);
      var pod := TestPod("pod1", TestResources(100, 100));
      Run(Chain(), AlwaysOk, [pod], 0, [n]).0 == Infeasible(1, 0)
      && Run(Chain(), AlwaysOk, [pod.(tolerations := [Toleration(PurposeKey, "", "database", "")])], 0, [n]).0 == Feasible
  {
    var n := TestNode("node1").(taints := [Taint(PurposeKey, "database", "NoSchedule")]);
    var pod := TestPod("pod1", TestResources(100, 100));
    ChainAdmits(pod, [n], n);
    assert !Tolerated(pod, n.taints[0]);
    assert TaintFilter(pod, [n], n) != Success;
    assert FirstFit(Chain(), pod, [n], 0) == None;
    var tolerant := pod.(tolerations := [Toleration(PurposeKey, "", "database", "")]);
    ChainAdmits(tolerant, [n], n);
    assert Tolerates(tolerant.tolerations[0], n.taints[0]);
    assert !AnyAntiAffinity([n]);
    assert FirstFit(Chain(), tolerant, [n], 0) == Some(0);
  }

  /** fit_test.go:69-105: a required node affinity fails until the node carries the label. */
  lemma {:induction false} SmokeNodeAffinity()
    ensures var pod := TestPod("pod1", TestResources(100, 100)).(nodeAffinity := Some([[Requirement(PurposeKey, "In", ["database"])]]));
      var n := TestNode("node1");
      Run(Chain(), AlwaysOk, [pod], 0, [n]).0 == Infeasible(1, 0)
      && Run(Chain(), AlwaysOk, [pod], 0, [n.(labels := map[PurposeKey := "database"])]).0 == Feasible
  {
    var pod := TestPod("pod1", TestResources(100, 100)).(nodeAffinity := Some([[Requirement(PurposeKey, "In", ["database"])]]));
    var n := TestNode("node1");
    ChainAdmits(pod, [n], n);
    assert !MatchesAll(n.labels, pod.nodeAffinity.value[0]) by {
      assert !Matches(n.labels, pod.nodeAffinity.value[0][0]);
    }
    assert AffinityFilter(pod, [n], n) != Success;
    assert FirstFit(Chain(), pod, [n], 0) == None;
    var labelled := n.(labels := map[PurposeKey := "database"]);
    ChainAdmits(pod, [labelled], labelled);
    assert MatchesAll(labelled.labels, pod.nodeAffinity.value[0]);
    assert !AnyAntiAffinity([labelled]);
    assert FirstFit(Chain(), pod, [labelled], 0) == Some(0);
  }

  /**
   * fit_test.go:107-155: two pods with the same required anti-affinity cannot both go to the
   * single test node. With the node marked unschedulable after the first placement, the second
   * pod is already rejected by the nodeunschedulable plugin.
   */
  lemma {:induction false} SmokeInterPodAntiAffinity()
    ensures var term := AffinityTerm([Requirement("cassandra.datastax.com/cluster", "Exists", []),
                                      Requirement("cassandra.datastax.com/datacenter", "Exists", []),
                                      Requirement("cassandra.datastax.com/rack", "Exists", [])],
                                     "kubernetes.io/hostname");
      var pod1 := TestPod("pod1", TestResources(100, 100)).(antiAffinity := [term]);
      var pod2 := TestPod("pod2", TestResources(100, 100)).(antiAffinity := [term]);
      Run(Chain(), AlwaysOk, [pod1, pod2], 0, [TestNode("node1")]).0 != Feasible
  {
    var term := AffinityTerm([Requirement("cassandra.datastax.com/cluster", "Exists", []),
                              Requirement("cassandra.datastax.com/datacenter", "Exists", []),
                              Requirement("cassandra.datastax.com/rack", "Exists", [])],
                             "kubernetes.io/hostname");
    var pod1 := TestPod("pod1", TestResources(100, 100)).(antiAffinity := [term]);
    var pod2 := TestPod("pod2", TestResources(100, 100)).(antiAffinity := [term]);
    var pods := [pod1, pod2];
    var nodes := [TestNode("node1")];
    ChainGuardsUnschedulable(pods);
    if Run(Chain(), AlwaysOk, pods, 0, nodes).0.Feasible? {
      FeasibleWithinFreeNodes(Chain(), AlwaysOk, pods, nodes, 1);
      assert false;
    }
  }
}
