/**
 * `kubectl k8ssandra tools estimate` (cmd/kubectl-k8ssandra/tools/estimate.go): validate the
 * requested pod count, build that many identical pods and ask the scheduler simulation whether
 * they all fit the cluster.
 */
module Estimate {
  import opened Wrappers
  import Fit

  const ErrInvalidCount := "Count of pods must be higher than 0"

  /** A parsed `resource.Quantity`, by the two readings the command uses. */
  datatype Quantity = Quantity(milliValue: int, value: int)

  /** The outcome of `resource.ParseQuantity` on a command-line string. */
  datatype Parsed = Parsed(quantity: Quantity) | ParseError(message: string)

  /** A resource amount as built by `resource.NewMilliQuantity` or `resource.NewQuantity`. */
  datatype Amount = Milli(milli: int) | Plain(value: int)

  /** A container's resource requests (`corev1.ResourceList`). */
  type ResourceList = map<string, Amount>

  datatype Container = Container(requests: ResourceList)

  datatype ProposedPod = ProposedPod(name: string, containers: seq<Container>)

  /**
   * `Validate` (estimate.go:100-120): a negative count is refused; then the CPU and the memory
   * strings are parsed, in that order (the parse results are inputs here). A count of zero is
   * accepted although the error text asks for more than zero.
   */
  function Validate(count: int, cpu: Parsed, memory: Parsed): (r: Result<(Quantity, Quantity)>)
    ensures count < 0 ==> r == Err(ErrInvalidCount)
    ensures count >= 0 && cpu.ParseError? ==> r == Err(cpu.message)
    ensures count >= 0 && cpu.Parsed? && memory.ParseError? ==> r == Err(memory.message)
    ensures r.Ok? <==> count >= 0 && cpu.Parsed? && memory.Parsed?
    ensures r.Ok? ==> r.value == (cpu.quantity, memory.quantity)
    ensures !r.Panic?
  {
    if count < 0 then Err(ErrInvalidCount)
    else if cpu.ParseError? then Err(cpu.message)
    else if memory.ParseError? then Err(memory.message)
    else Ok((cpu.quantity, memory.quantity))
  }

  /** `makeResources` (estimate.go:166-171): CPU in millicores and memory in bytes, nothing else. */
  function MakeResources(milliCPU: int, memory: int): (r: ResourceList)
    ensures r.Keys == {"cpu", "memory"}
    ensures r["cpu"] == Milli(milliCPU) && r["memory"] == Plain(memory)
  {
    map["cpu" := Milli(milliCPU), "memory" := Plain(memory)]
  }

  /** The pod `makePods` puts in every slot: named "a", one container requesting `resources`. */
  function ProposedPodOf(resources: ResourceList): ProposedPod
  {
    ProposedPod("a", [Container(resources)])
  }

  /**
   * `makePods` (estimate.go:144-164): a slice of `count` pods filled by index. `make` with a
   * negative length panics in Go; the caller has already refused negative counts.
   */
  method MakePods(count: int, resources: ResourceList) returns (pods: seq<ProposedPod>)
    requires count >= 0
    ensures |pods| == count
    ensures forall i :: 0 <= i < count ==> pods[i].name == "a" && pods[i].containers == [Container(resources)]
  {
    var a := new ProposedPod[count](_ => ProposedPod("", []));
    var i := 0;
    while i < count
      invariant 0 <= i <= count
      invariant forall j :: 0 <= j < i ==> a[j] == ProposedPodOf(resources)
    {
      a[i] := ProposedPodOf(resources);
      i := i + 1;
    }
    pods := a[..];
  }

  function AmountMilli(a: Amount): int
  {
    match a
    case Milli(m) => m
    case Plain(v) => v * 1000
  }

  /** `Quantity.Value`: a milli amount is rounded up to a whole unit. */
  function AmountValue(a: Amount): int
  {
    match a
    case Milli(m) => (m + 999) / 1000
    case Plain(v) => v
  }

  /** The CPU (in millicores) and memory that a list of containers requests in total. */
  function TotalRequests(cs: seq<Container>): Fit.Resources
  {
    if cs == [] then Fit.Resources(0, 0)
    else
      var r := TotalRequests(cs[..|cs| - 1]);
      var q := cs[|cs| - 1].requests;
      Fit.Resources(
        r.milliCPU + (if "cpu" in q then AmountMilli(q["cpu"]) else 0),
        r.memory + (if "memory" in q then AmountValue(q["memory"]) else 0))
  }

  /** The scheduler's view of a proposed pod: no labels, tolerations or affinities. */
  function SchedulerPod(p: ProposedPod): Fit.Pod
  {
    Fit.Pod(p.name, map[], TotalRequests(p.containers), [], None, [])
  }

  /** Every generated pod asks the scheduler for exactly the requested CPU and memory. */
  lemma {:induction false} GeneratedPodRequests(milliCPU: int, memory: int)
    ensures SchedulerPod(ProposedPodOf(MakeResources(milliCPU, memory))).requests == Fit.Resources(milliCPU, memory)
  {
    var q := MakeResources(milliCPU, memory);
    var cs := [Container(q)];
    assert cs[..|cs| - 1] == [];
    assert cs[|cs| - 1].requests == q;
    assert AmountMilli(q["cpu"]) == milliCPU && AmountValue(q["memory"]) == memory;
    assert TotalRequests(cs) == Fit.Resources(0 + milliCPU, 0 + memory);
  }

  /**
   * `Validate` followed by `Run` (estimate.go:123-142) against the cluster snapshot `nodes`,
   * with the scheduler plugin chain `chain`; `podInfoError` is the text of a pod-info error.
   */
  method Estimate(count: int, cpu: Parsed, memory: Parsed,
                  chain: seq<Fit.Plugin>, podInfoOk: Fit.Pod -> bool, podInfoError: string,
                  nodes: array<Fit.Node>) returns (r: Result<()>)
    modifies nodes
    ensures Validate(count, cpu, memory).Err? ==> r == Err(Validate(count, cpu, memory).error) && nodes[..] == old(nodes[..])
    ensures Validate(count, cpu, memory).Ok? ==>
      var quantities := Validate(count, cpu, memory).value;
      var pod := SchedulerPod(ProposedPodOf(MakeResources(quantities.0.milliValue, quantities.1.value)));
      var run := Fit.Run(chain, podInfoOk, seq(count, _ => pod), 0, old(nodes[..]));
      nodes[..] == run.1
      && (run.0.Feasible? ==> r == Ok(()))
      && (run.0.Infeasible? ==> r == Err(Wrap(Fit.InfeasibleMessage(run.0.requested, run.0.schedulable), "Unable to schedule the pods")))
      && (run.0.PodInfoFailed? ==> r == Err(Wrap(podInfoError, "Unable to schedule the pods")))
  {
    var v := Validate(count, cpu, memory);
    if v.Err? {
      return Err(v.error);
    }
    var (cpuQuantity, memoryQuantity) := v.value;
    var resources := MakeResources(cpuQuantity.milliValue, memoryQuantity.value);
    var proposed := MakePods(count, resources);
    var pods := seq(count, i requires 0 <= i < count => SchedulerPod(proposed[i]));
    ghost var pod := SchedulerPod(ProposedPodOf(resources));
    assert pods == seq(count, _ => pod);
    var verdict := Fit.TryScheduling(chain, podInfoOk, pods, nodes);
    match verdict
    case Feasible => r := Ok(());
    case Infeasible(requested, schedulable) =>
      r := Err(Wrap(Fit.InfeasibleMessage(requested, schedulable), "Unable to schedule the pods"));
    case PodInfoFailed => r := Err(Wrap(podInfoError, "Unable to schedule the pods"));
  }

  /** A count of zero passes validation, and then nothing needs to be scheduled. */
  lemma {:induction false} ZeroCountAlwaysFits(cpu: Quantity, memory: Quantity, chain: seq<Fit.Plugin>, podInfoOk: Fit.Pod -> bool, pod: Fit.Pod, nodes: seq<Fit.Node>)
    ensures Validate(0, Parsed(cpu), Parsed(memory)) == Ok((cpu, memory))
    ensures Fit.Run(chain, podInfoOk, seq(0, _ => pod), 0, nodes).0 == Fit.Feasible
  {
  }
}
