/**
 * The configuration builder of `pkg/config/builder.go` outside the server-options files: the
 * builder's directories, the per-pod overrides folded into the configuration input, the content
 * of `cassandra-rackdc.properties` and `cassandra-env.sh`, the sequence of server-options files,
 * and the synthesis of `cassandra.yaml` (the boolean fix and the overrides the operator forces).
 */
module ConfigBuilder {
  import opened Wrappers
  import opened GoStrings
  import opened Json
  import ConfigGc
  import opened JvmOptions

  const DefaultInputDir := "/cassandra-base-config"
  const DefaultPodSpecificDir := "override"
  const DefaultOutputDir := "/config"

  /** `Builder`: where the base configuration is read, where the output goes, and the per-pod directory. */
  class Builder {
    var configInputDir: string
    var configOutputDir: string
    var podSpecificDir: string

    /** `NewBuilder`: each directory is its default unless a non-empty override is given. */
    constructor (overrideConfigInput: string, overrideConfigOutput: string, overridePodSpecificDir: string)
      ensures overrideConfigInput != "" ==> configInputDir == overrideConfigInput
      ensures overrideConfigInput == "" ==> configInputDir == DefaultInputDir
      ensures overrideConfigOutput != "" ==> configOutputDir == overrideConfigOutput
      ensures overrideConfigOutput == "" ==> configOutputDir == DefaultOutputDir
      ensures overridePodSpecificDir != "" ==> podSpecificDir == overridePodSpecificDir
      ensures overridePodSpecificDir == "" ==> podSpecificDir == DefaultPodSpecificDir
    {
      configInputDir := DefaultInputDir;
      configOutputDir := DefaultOutputDir;
      podSpecificDir := DefaultPodSpecificDir;
      if overrideConfigInput != "" {
        configInputDir := overrideConfigInput;
      }
      if overrideConfigOutput != "" {
        configOutputDir := overrideConfigOutput;
      }
      if overridePodSpecificDir != "" {
        podSpecificDir := overridePodSpecificDir;
      }
    }
  }

  // ---------------------------------------------------------------------------------------------
  // The configuration input

  datatype ClusterInfo = ClusterInfo(name: string, seeds: string)

  /** `CassandraEnvOptions`; the arena count is a Go `int`. */
  datatype CassandraEnvOptions = CassandraEnvOptions(mallocArenaMax: int, heapDumpDir: string, additionalOpts: seq<string>)

  /** `ConfigInput` as decoded from the operator's JSON (or a pod's override file). */
  datatype ConfigInput = ConfigInput(
    clusterInfo: ClusterInfo,
    datacenterName: string,
    cassYaml: map<string, Json>,
    serverOptions: map<string, Json>,
    serverOptions11: map<string, Json>,
    serverOptions17: map<string, Json>,
    serverOptions21: map<string, Json>,
    cassandraEnv: CassandraEnvOptions)

  /**
   * `NodeInfo`: the pod's name and rack, and its three addresses, each the canonical text of a
   * parsed IP or `None` where the Go field stays a nil `net.IP`.
   */
  datatype NodeInfo = NodeInfo(name: string, rack: string, listenIp: Option<string>, rpcIp: Option<string>,
                               broadcastIp: Option<string>)

  /**
   * `Build` lines 94-105: the pod's cassandra-env settings folded into the input. A positive arena
   * count and a non-empty heap-dump directory replace the input's; the pod's additional options are
   * appended to the input's. Nothing else of the input changes.
   */
  function ApplyPodOverrides(input: ConfigInput, pod: ConfigInput): (r: ConfigInput)
    ensures r.cassandraEnv.mallocArenaMax
      == if pod.cassandraEnv.mallocArenaMax > 0 then pod.cassandraEnv.mallocArenaMax else input.cassandraEnv.mallocArenaMax
    ensures r.cassandraEnv.heapDumpDir
      == if pod.cassandraEnv.heapDumpDir != "" then pod.cassandraEnv.heapDumpDir else input.cassandraEnv.heapDumpDir
    ensures r.cassandraEnv.additionalOpts == input.cassandraEnv.additionalOpts + pod.cassandraEnv.additionalOpts
    ensures r.(cassandraEnv := input.cassandraEnv) == input
  {
    var env := input.cassandraEnv;
    var podEnv := pod.cassandraEnv;
    var env1 := if podEnv.mallocArenaMax > 0 then env.(mallocArenaMax := podEnv.mallocArenaMax) else env;
    var env2 := if podEnv.heapDumpDir != "" then env1.(heapDumpDir := podEnv.heapDumpDir) else env1;
    var env3 := if |podEnv.additionalOpts| > 0 then env2.(additionalOpts := env2.additionalOpts + podEnv.additionalOpts) else env2;
    input.(cassandraEnv := env3)
  }

  /** An override file that sets none of the cassandra-env settings leaves the input as it was. */
  lemma {:induction false} PodOverridesWithoutEnv(input: ConfigInput, pod: ConfigInput)
    requires pod.cassandraEnv == CassandraEnvOptions(0, "", [])
    ensures ApplyPodOverrides(input, pod) == input
  {
    assert input.cassandraEnv.additionalOpts + [] == input.cassandraEnv.additionalOpts;
  }

  /**
   * Folding two pods' settings one after the other is folding a pod whose options are both
   * pods' options and whose scalar settings are the later pod's where it sets them.
   */
  lemma {:induction false} PodOverridesCompose(input: ConfigInput, p1: ConfigInput, p2: ConfigInput)
    ensures var both := p1.(cassandraEnv := CassandraEnvOptions(
              if p2.cassandraEnv.mallocArenaMax > 0 then p2.cassandraEnv.mallocArenaMax else p1.cassandraEnv.mallocArenaMax,
              if p2.cassandraEnv.heapDumpDir != "" then p2.cassandraEnv.heapDumpDir else p1.cassandraEnv.heapDumpDir,
              p1.cassandraEnv.additionalOpts + p2.cassandraEnv.additionalOpts));
      ApplyPodOverrides(ApplyPodOverrides(input, p1), p2) == ApplyPodOverrides(input, both)
  {
    var a := input.cassandraEnv.additionalOpts;
    var b := p1.cassandraEnv.additionalOpts;
    var c := p2.cassandraEnv.additionalOpts;
    assert (a + b) + c == a + (b + c);
  }

  // ---------------------------------------------------------------------------------------------
  // cassandra-rackdc.properties

  /** `createRackProperties` lines 201-227: the text the template writes. */
  function RackProperties(input: ConfigInput, node: NodeInfo): string
  {
    "dc=" + input.datacenterName + "\nrack=" + node.rack + "\n"
  }

  /**
   * The properties file holds two lines, the datacenter's and the rack's, and reading the values
   * back after the `dc=` and `rack=` keys gives the two names, when neither name holds a newline.
   */
  lemma {:induction false} RackPropertiesLines(input: ConfigInput, node: NodeInfo)
    requires '\n' !in input.datacenterName && '\n' !in node.rack
    ensures var lines := Split(RackProperties(input, node), '\n');
      |lines| == 3 && lines[2] == ""
      && HasPrefix(lines[0], "dc=") && lines[0][3..] == input.datacenterName
      && HasPrefix(lines[1], "rack=") && lines[1][5..] == node.rack
  {
    var parts := ["dc=" + input.datacenterName, "rack=" + node.rack, ""];
    assert '\n' !in parts[0] && '\n' !in parts[1];
    assert Join(parts, '\n') == RackProperties(input, node) by {
      assert Join(parts[2..], '\n') == "";
      assert Join(parts[1..], '\n') == "rack=" + node.rack + "\n";
    }
    SplitJoin(parts, '\n');
  }

  // ---------------------------------------------------------------------------------------------
  // cassandra-env.sh

  /** The line `createCassandraEnv` writes for one additional option. */
  function OptLine(opt: string): string
  {
    "JVM_OPTS=\"$JVM_OPTS " + opt + "\""
  }

  /** An option's line with its newline. */
  function OptText(opt: string): string
  {
    OptLine(opt) + "\n"
  }

  /** The lines written for the additional options, each followed by a newline, in order. */
  function OptLines(opts: seq<string>): string
  {
    if opts == [] then "" else OptLines(opts[..|opts| - 1]) + OptText(opts[|opts| - 1])
  }

  /** The line that exports the arena count. */
  function ArenaLine(mallocArenaMax: nat): string
  {
    "export MALLOC_ARENA_MAX=" + DecimalString(mallocArenaMax) + "\n"
  }

  /** The line that exports the heap-dump directory. */
  function HeapDumpLine(heapDumpDir: string): string
  {
    "export CASSANDRA_HEAPDUMP_DIR=" + heapDumpDir + "\n"
  }

  /** The export lines written before the base file. */
  function EnvHeader(env: CassandraEnvOptions): string
  {
    (if env.mallocArenaMax > 0 then ArenaLine(env.mallocArenaMax) else "")
    + (if env.heapDumpDir != "" then HeapDumpLine(env.heapDumpDir) else "")
  }

  /**
   * The text of `cassandra-env.sh`: the export lines, the base file, a newline and one line per
   * additional option.
   */
  function EnvText(env: CassandraEnvOptions, base: string): (r: string)
    ensures HasPrefix(r, EnvHeader(env) + base + "\n")
  {
    EnvHeader(env) + base + "\n" + OptLines(env.additionalOpts)
  }

  /** The option lines of two lists one after the other are the lines of the joined list. */
  lemma {:induction false} OptLinesAppend(a: seq<string>, b: seq<string>)
    ensures OptLines(a + b) == OptLines(a) + OptLines(b)
    decreases |b|
  {
    if b == [] {
      assert a + b == a;
    } else {
      var b' := b[..|b| - 1];
      assert (a + b)[..|a + b| - 1] == a + b';
      assert (a + b)[|a + b| - 1] == b[|b| - 1];
      OptLinesAppend(a, b');
      assert OptLines(a + b) == OptLines(a + b') + OptText(b[|b| - 1]);
      assert OptLines(b) == OptLines(b') + OptText(b[|b| - 1]);
    }
  }

  /**
   * Each additional option becomes exactly one line, in order, when no option holds a newline:
   * splitting the option lines at newlines gives the lines and a final empty part.
   */
  lemma {:induction false} OptLinesSplit(opts: seq<string>)
    requires forall i :: 0 <= i < |opts| ==> '\n' !in opts[i]
    ensures var parts := Split(OptLines(opts), '\n');
      |parts| == |opts| + 1 && parts[|opts|] == ""
      && forall i :: 0 <= i < |opts| ==> parts[i] == OptLine(opts[i])
  {
    var lines := OptLineSeq(opts);
    assert Split(OptLines(opts), '\n') == lines + [[]] by {
      OptLinesTerminated(opts);
      forall i | 0 <= i < |lines|
        ensures '\n' !in lines[i]
      {
        OptLineNoNewline(opts[i]);
      }
      SplitTerminated(lines, '\n');
    }
  }

  /** The lines of the options, one per option. */
  function OptLineSeq(opts: seq<string>): (lines: seq<string>)
    ensures |lines| == |opts| && forall i :: 0 <= i < |opts| ==> lines[i] == OptLine(opts[i])
  {
    seq(|opts|, i requires 0 <= i < |opts| => OptLine(opts[i]))
  }

  /** The option text is the option lines, each followed by a newline. */
  lemma {:induction false} OptLinesTerminated(opts: seq<string>)
    ensures OptLines(opts) == Terminated(OptLineSeq(opts), '\n')
    decreases |opts|
  {
    if opts != [] {
      var lines := OptLineSeq(opts);
      assert OptLines(opts) == OptLine(opts[0]) + ['\n'] + OptLines(opts[1..]) by {
        OptLinesCons(opts);
      }
      assert OptLines(opts[1..]) == Terminated(OptLineSeq(opts[1..]), '\n') by {
        OptLinesTerminated(opts[1..]);
      }
      assert lines[1..] == OptLineSeq(opts[1..]);
    }
  }

  /** The first option's line and newline come before the lines of the others. */
  lemma {:induction false} OptLinesCons(opts: seq<string>)
    requires opts != []
    ensures OptLines(opts) == OptLine(opts[0]) + ['\n'] + OptLines(opts[1..])
  {
    var o := opts[0];
    assert opts == [o] + opts[1..];
    OptLinesAppend([o], opts[1..]);
    assert OptLines([o]) == OptText(o) by {
      assert [o][..0] == [];
    }
  }

  lemma {:induction false} OptLineNoNewline(o: string)
    requires '\n' !in o
    ensures '\n' !in OptLine(o)
  {
    assert forall c :: c in OptLine(o) ==> c in "JVM_OPTS=\"$JVM_OPTS " || c in o || c == '"';
  }

  /**
   * After a pod override the env file carries the input's option lines and then the pod's, below
   * the base file.
   */
  lemma {:induction false} PodOptionsFollowInputOptions(input: ConfigInput, pod: ConfigInput, base: string)
    ensures var env := ApplyPodOverrides(input, pod).cassandraEnv;
      EnvText(env, base)
        == EnvHeader(env) + base + "\n" + OptLines(input.cassandraEnv.additionalOpts) + OptLines(pod.cassandraEnv.additionalOpts)
  {
    OptLinesAppend(input.cassandraEnv.additionalOpts, pod.cassandraEnv.additionalOpts);
  }

  /**
   * The env file starts with the arena export when the count is positive, else with the heap-dump
   * export when a directory is set, else with the base file.
   */
  lemma {:induction false} EnvTextStart(env: CassandraEnvOptions, base: string)
    ensures env.mallocArenaMax > 0 ==> HasPrefix(EnvText(env, base), ArenaLine(env.mallocArenaMax))
    ensures env.mallocArenaMax <= 0 && env.heapDumpDir != "" ==> HasPrefix(EnvText(env, base), HeapDumpLine(env.heapDumpDir))
    ensures env.mallocArenaMax <= 0 && env.heapDumpDir == "" ==> HasPrefix(EnvText(env, base), base + "\n")
  {
  }

  /** The writes of `createCassandraEnv` up to the base file and its newline. */
  method WriteEnvHeader(env: CassandraEnvOptions, base: string) returns (out: string)
    ensures out == EnvHeader(env) + base + "\n"
  {
    out := "";
    if env.mallocArenaMax > 0 {
      out := out + ArenaLine(env.mallocArenaMax);
    }
    if env.heapDumpDir != "" {
      out := out + HeapDumpLine(env.heapDumpDir);
    }
    out := out + base;
    out := out + "\n";
  }

  /** The loop of `createCassandraEnv` over the additional options: one line each, in order. */
  method WriteOptLines(header: string, opts: seq<string>) returns (out: string)
    ensures out == header + OptLines(opts)
  {
    out := header;
    for i := 0 to |opts|
      invariant out == header + OptLines(opts[..i])
    {
      assert opts[..i + 1][..i] == opts[..i];
      out := out + OptText(opts[i]);
    }
    assert opts[..|opts|] == opts;
  }

  /**
   * `createCassandraEnv` lines 229-271: the text appended to the output `cassandra-env.sh`, or the
   * error of reading the base file.
   */
  method CreateCassandraEnv(env: CassandraEnvOptions, baseFile: Result<string>) returns (r: Result<string>)
    ensures !baseFile.Ok? ==> r == baseFile
    ensures baseFile.Ok? ==> r == Ok(EnvText(env, baseFile.value))
  {
    if !baseFile.Ok? {
      return baseFile;
    }
    var header := WriteEnvHeader(env, baseFile.value);
    var out := WriteOptLines(header, env.additionalOpts);
    return Ok(out);
  }

  // ---------------------------------------------------------------------------------------------
  // The server-options files

  /** The four server-options files `createJVMOptions` writes, in the order it writes them. */
  /** The name of the i-th server-options file. */
  function ServerOptionsFile(i: nat): string
    requires i < 4
  {
    if i == 0 then "jvm-server.options"
    else if i == 1 then "jvm11-server.options"
    else if i == 2 then "jvm17-server.options"
    else "jvm21-server.options"
  }

  /** The options of `input` that go into the i-th file. */
  function ServerOptionsOf(input: ConfigInput, i: nat): map<string, Json>
    requires i < 4
  {
    if i == 0 then input.serverOptions
    else if i == 1 then input.serverOptions11
    else if i == 2 then input.serverOptions17
    else input.serverOptions21
  }

  /** The outcome the i-th file has for the given answers of the detection and the map order. */
  function FileOutcome(input: ConfigInput, pod: ConfigInput, files: seq<OptionsFile>, tables: OptionTables,
                       i: nat, detected: string, order: seq<string>): Result<Option<seq<string>>>
    requires |files| == 4 && i < 4
  {
    ServerJvmOptions(ServerOptionsOf(input, i), ServerOptionsOf(pod, i), ServerOptionsFile(i), files[i], tables,
                     detected, order)
  }

  /**
   * The first `|outcomes|` files were tried in order, each with answers its run may give, and the
   * outcome of each is that file's.
   */
  ghost predicate Tried(input: ConfigInput, pod: ConfigInput, files: seq<OptionsFile>, tables: OptionTables,
                        outcomes: seq<Result<Option<seq<string>>>>, detected: seq<string>, order: seq<seq<string>>)
  {
    |files| == 4 && |outcomes| <= 4 && |detected| == |outcomes| && |order| == |outcomes|
    && (forall i :: 0 <= i < |outcomes| ==> outcomes[i] == FileOutcome(input, pod, files, tables, i, detected[i], order[i]))
    && (forall i :: (0 <= i < |outcomes| && !files[i].Unreadable?
                     ==> ChoicesAllowed(ServerOptionsOf(input, i), ServerOptionsOf(pod, i), detected[i], order[i])))
  }

  lemma {:induction false} TriedStep(input: ConfigInput, pod: ConfigInput, files: seq<OptionsFile>, tables: OptionTables,
                  outcomes: seq<Result<Option<seq<string>>>>, detected: seq<string>, order: seq<seq<string>>,
                  r: Result<Option<seq<string>>>, d: string, o: seq<string>)
    requires Tried(input, pod, files, tables, outcomes, detected, order) && |outcomes| < 4
    requires r == FileOutcome(input, pod, files, tables, |outcomes|, d, o)
    requires !files[|outcomes|].Unreadable? ==> ChoicesAllowed(ServerOptionsOf(input, |outcomes|), ServerOptionsOf(pod, |outcomes|), d, o)
    ensures Tried(input, pod, files, tables, outcomes + [r], detected + [d], order + [o])
  {
    var n := |outcomes|;
    var rs, ds, os := outcomes + [r], detected + [d], order + [o];
    forall i | 0 <= i < n + 1
      ensures rs[i] == FileOutcome(input, pod, files, tables, i, ds[i], os[i])
    {
      if i < n {
        assert rs[i] == outcomes[i] && ds[i] == detected[i] && os[i] == order[i];
      }
    }
    forall i | 0 <= i < n + 1 && !files[i].Unreadable?
      ensures ChoicesAllowed(ServerOptionsOf(input, i), ServerOptionsOf(pod, i), ds[i], os[i])
    {
      if i < n {
        assert ds[i] == detected[i] && os[i] == order[i];
      }
    }
  }

  /** One iteration of `createJVMOptions`: the options file of the next JVM version is tried. */
  method TryFile(input: ConfigInput, pod: ConfigInput, files: seq<OptionsFile>, tables: OptionTables,
                 outcomes: seq<Result<Option<seq<string>>>>, ghost detected: seq<string>, ghost order: seq<seq<string>>)
    returns (r: Result<Option<seq<string>>>, ghost d: string, ghost o: seq<string>)
    requires Tried(input, pod, files, tables, outcomes, detected, order) && |outcomes| < 4
    ensures Tried(input, pod, files, tables, outcomes + [r], detected + [d], order + [o])
  {
    var i := |outcomes|;
    r, d, o := CreateServerJvmOptions(ServerOptionsOf(input, i), ServerOptionsOf(pod, i), ServerOptionsFile(i),
                                      files[i], tables);
    TriedStep(input, pod, files, tables, outcomes, detected, order, r, d, o);
  }

  /**
   * `createJVMOptions` lines 274-292: the outcome of each file tried, in order; the first file that
   * does not succeed ends the run and the later files are not tried. `files` are the base files.
   */
  method CreateJvmOptions(input: ConfigInput, pod: ConfigInput, files: seq<OptionsFile>, tables: OptionTables)
    returns (outcomes: seq<Result<Option<seq<string>>>>, ghost detected: seq<string>, ghost order: seq<seq<string>>)
    requires |files| == 4
    ensures 1 <= |outcomes| && Tried(input, pod, files, tables, outcomes, detected, order)
    ensures forall i :: 0 <= i < |outcomes| - 1 ==> outcomes[i].Ok?
    ensures |outcomes| < 4 ==> !outcomes[|outcomes| - 1].Ok?
  {
    outcomes, detected, order := [], [], [];
    var i := 0;
    while i < 4
      invariant 0 <= i <= 4 && |outcomes| == i
      invariant Tried(input, pod, files, tables, outcomes, detected, order)
      invariant forall j :: 0 <= j < i ==> outcomes[j].Ok?
    {
      var r, d, o := TryFile(input, pod, files, tables, outcomes, detected, order);
      outcomes, detected, order := outcomes + [r], detected + [d], order + [o];
      if !r.Ok? {
        return;
      }
      i := i + 1;
    }
  }

  // ---------------------------------------------------------------------------------------------
  // cassandra.yaml

  const SeedProviderKey := "seed_provider"
  const ListenAddressKey := "listen_address"
  const RpcAddressKey := "rpc_address"
  const BroadcastAddressKey := "broadcast_address"
  const BroadcastRpcAddressKey := "broadcast_rpc_address"
  const NodeProximityKey := "node_proximity"
  const InitialLocationProviderKey := "initial_location_provider"
  const EndpointSnitchKey := "endpoint_snitch"
  const ClusterNameKey := "cluster_name"

  const K8SeedProvider := "org.apache.cassandra.locator.K8SeedProvider"
  const NetworkTopologyProximity := "NetworkTopologyProximity"
  const RackDcFileLocationProvider := "RackDCFileLocationProvider"
  const GossipingPropertyFileSnitch := "GossipingPropertyFileSnitch"

  /** The keys `k8ssandraOverrides` may write or delete. */
  const ManagedKeys: set<string> := {SeedProviderKey, ListenAddressKey, RpcAddressKey, BroadcastAddressKey,
                                     BroadcastRpcAddressKey, InitialLocationProviderKey, EndpointSnitchKey, ClusterNameKey}

  /** The seed provider entry: the operator's seed provider class with the cluster's seeds. */
  function SeedProvider(seeds: string): Json
  {
    JArray([JObject(map["class_name" := JString(K8SeedProvider),
                        "parameters" := JArray([JObject(map["seeds" := JString(seeds)])])])])
  }

  /** `net.IP.String`: the address's text, and "<nil>" for a nil address. */
  function IpString(ip: Option<string>): string
  {
    if ip.Some? then ip.value else "<nil>"
  }

  /** The YAML text of a `net.IP` value, through its `MarshalText`: empty for a nil address. */
  function IpText(ip: Option<string>): string
  {
    if ip.Some? then ip.value else ""
  }

  /** `k` has the same presence and value in `a` and in `b`. */
  predicate Unchanged(a: map<string, Json>, b: map<string, Json>, k: string)
  {
    (k in a <==> k in b) && (k in a ==> a[k] == b[k])
  }

  /**
   * `k8ssandraOverrides` lines 682-710 on values: the seed provider, the listen, RPC and broadcast
   * RPC addresses and the cluster name are always written and `broadcast_address` is removed. The
   * snitch is written only when `node_proximity` is absent, and the location provider only when
   * it is "NetworkTopologyProximity". A present `node_proximity` that is not a string panics.
   * Every other key keeps its presence and value.
   */
  function Overridden(merged: map<string, Json>, cluster: ClusterInfo, node: NodeInfo): (r: Result<map<string, Json>>)
    ensures r.Panic? <==> NodeProximityKey in merged && !merged[NodeProximityKey].JString?
    ensures !r.Err?
    ensures r.Ok? ==> SeedProviderKey in r.value && r.value[SeedProviderKey] == SeedProvider(cluster.seeds)
    ensures r.Ok? ==> ListenAddressKey in r.value && r.value[ListenAddressKey] == JString(IpString(node.listenIp))
    ensures r.Ok? ==> RpcAddressKey in r.value && r.value[RpcAddressKey] == JString(IpString(node.rpcIp))
    ensures r.Ok? ==> BroadcastRpcAddressKey in r.value && r.value[BroadcastRpcAddressKey] == JString(IpText(node.broadcastIp))
    ensures r.Ok? ==> ClusterNameKey in r.value && r.value[ClusterNameKey] == JString(cluster.name)
    ensures r.Ok? ==> BroadcastAddressKey !in r.value
    ensures r.Ok? && NodeProximityKey !in merged
      ==> EndpointSnitchKey in r.value && r.value[EndpointSnitchKey] == JString(GossipingPropertyFileSnitch)
    ensures r.Ok? && NodeProximityKey in merged ==> Unchanged(merged, r.value, EndpointSnitchKey)
    ensures r.Ok? && NodeProximityKey in merged && merged[NodeProximityKey] == JString(NetworkTopologyProximity)
      ==> InitialLocationProviderKey in r.value && r.value[InitialLocationProviderKey] == JString(RackDcFileLocationProvider)
    ensures r.Ok? && !(NodeProximityKey in merged && merged[NodeProximityKey] == JString(NetworkTopologyProximity))
      ==> Unchanged(merged, r.value, InitialLocationProviderKey)
    ensures r.Ok? ==> forall k :: k in merged && k !in ManagedKeys ==> k in r.value && r.value[k] == merged[k]
    ensures r.Ok? ==> forall k :: k in r.value ==> k in merged || k in ManagedKeys
  {
    var m := (merged[SeedProviderKey := SeedProvider(cluster.seeds)]
                    [ListenAddressKey := JString(IpString(node.listenIp))]
                    [RpcAddressKey := JString(IpString(node.rpcIp))]
              - {BroadcastAddressKey})
             [BroadcastRpcAddressKey := JString(IpText(node.broadcastIp))];
    if NodeProximityKey in merged && !merged[NodeProximityKey].JString? then Panic(ConfigGc.NotAString)
    else
      var located :=
        if NodeProximityKey !in merged then m[EndpointSnitchKey := JString(GossipingPropertyFileSnitch)]
        else if merged[NodeProximityKey].s == NetworkTopologyProximity then
          m[InitialLocationProviderKey := JString(RackDcFileLocationProvider)]
        else m;
      Ok(located[ClusterNameKey := JString(cluster.name)])
  }

  /** `k8ssandraOverrides`: the writes and the delete made on the merged map in place. */
  method K8ssandraOverrides(merged: map<string, Json>, cluster: ClusterInfo, node: NodeInfo) returns (r: Result<map<string, Json>>)
    ensures r == Overridden(merged, cluster, node)
  {
    var m := merged;
    m := m[SeedProviderKey := SeedProvider(cluster.seeds)];
    m := m[ListenAddressKey := JString(IpString(node.listenIp))];
    m := m[RpcAddressKey := JString(IpString(node.rpcIp))];
    m := m - {BroadcastAddressKey};
    m := m[BroadcastRpcAddressKey := JString(IpText(node.broadcastIp))];
    var found := NodeProximityKey in m;
    if found && !m[NodeProximityKey].JString? {
      return Panic(ConfigGc.NotAString);
    }
    if found && m[NodeProximityKey].s == NetworkTopologyProximity {
      m := m[InitialLocationProviderKey := JString(RackDcFileLocationProvider)];
    } else if !found {
      m := m[EndpointSnitchKey := JString(GossipingPropertyFileSnitch)];
    }
    m := m[ClusterNameKey := JString(cluster.name)];
    return Ok(m);
  }

  /** The keys of `overrides` whose value is a boolean. */
  function BoolKeys(overrides: map<string, Json>): (ks: set<string>)
    ensures forall k :: k in ks <==> k in overrides && overrides[k].JBool?
  {
    set k | k in overrides && overrides[k].JBool?
  }

  /**
   * The boolean fix after a deep merge (lines 648-655 and 667-673): every boolean of `overrides`
   * is forced into the merged map, since the merge takes `false` for an unset value; every other
   * entry of the merged map stays, and nothing else is added.
   */
  function BoolFixed(merged: map<string, Json>, overrides: map<string, Json>): (r: map<string, Json>)
    ensures forall k :: k in overrides && overrides[k].JBool? ==> k in r && r[k] == overrides[k]
    ensures forall k :: k in merged && !(k in overrides && overrides[k].JBool?) ==> k in r && r[k] == merged[k]
    ensures forall k :: k in r ==> k in merged || (k in overrides && overrides[k].JBool?)
  {
    map k | k in merged.Keys + BoolKeys(overrides) :: if k in BoolKeys(overrides) then overrides[k] else merged[k]
  }

  /** Fixing the booleans a second time changes nothing. */
  lemma {:induction false} BoolFixedIdempotent(merged: map<string, Json>, overrides: map<string, Json>)
    ensures BoolFixed(BoolFixed(merged, overrides), overrides) == BoolFixed(merged, overrides)
  {
    var once := BoolFixed(merged, overrides);
    var twice := BoolFixed(once, overrides);
    assert twice.Keys == once.Keys;
    assert forall k :: k in twice ==> twice[k] == once[k];
  }

  /** The boolean fix with the keys of `overrides` in `done` handled so far. */
  ghost predicate FixedSoFar(m: map<string, Json>, merged: map<string, Json>, overrides: map<string, Json>, done: set<string>)
  {
    done <= overrides.Keys
    && (forall k :: k in m <==> k in merged || (k in done && overrides[k].JBool?))
    && (forall k :: k in m ==> m[k] == if k in done && overrides[k].JBool? then overrides[k] else merged[k])
  }

  lemma {:induction false} FixStep(m: map<string, Json>, merged: map<string, Json>, overrides: map<string, Json>, done: set<string>, k: string)
    requires FixedSoFar(m, merged, overrides, done) && k in overrides
    ensures FixedSoFar(if overrides[k].JBool? then m[k := overrides[k]] else m, merged, overrides, done + {k})
  {
  }

  lemma {:induction false} FixDone(m: map<string, Json>, merged: map<string, Json>, overrides: map<string, Json>)
    requires FixedSoFar(m, merged, overrides, overrides.Keys)
    ensures m == BoolFixed(merged, overrides)
  {
    var f := BoolFixed(merged, overrides);
    assert m.Keys == f.Keys;
    assert forall k :: k in m ==> m[k] == f[k];
  }

  /** The loop of the boolean fix: the map is updated in place, one override key at a time. */
  method FixBools(merged: map<string, Json>, overrides: map<string, Json>) returns (m: map<string, Json>)
    ensures m == BoolFixed(merged, overrides)
  {
    m := merged;
    var pending := overrides.Keys;
    ghost var done: set<string> := {};
    while pending != {}
      invariant pending <= overrides.Keys && done == overrides.Keys - pending
      invariant FixedSoFar(m, merged, overrides, done)
      decreases |pending|
    {
      var k :| k in pending;
      FixStep(m, merged, overrides, done, k);
      if overrides[k].JBool? {
        m := m[k := overrides[k]];
      }
      RemoveOne(overrides.Keys, pending, done, k);
      done := done + {k};
      pending := pending - {k};
    }
    FixDone(m, merged, overrides);
  }

  /** The deep merge of a map with a map of higher priority: its result, or its error. */
  type DeepMerge = (map<string, Json>, map<string, Json>) -> Result<map<string, Json>>

  /** A deep merge that keeps every key of both maps. */
  ghost predicate KeepsKeys(deepMerge: DeepMerge)
  {
    forall a, b :: deepMerge(a, b).Ok? ==> a.Keys + b.Keys <= deepMerge(a, b).value.Keys
  }

  /** A deep merge that leaves the entries of keys the map of higher priority does not hold. */
  ghost predicate KeepsUnmentioned(deepMerge: DeepMerge)
  {
    forall a, b :: deepMerge(a, b).Ok?
      ==> forall k :: k in a && k !in b ==> k in deepMerge(a, b).value && deepMerge(a, b).value[k] == a[k]
  }

  /** A deep merge in which the map of higher priority wins on every key it holds. */
  ghost predicate PriorityWins(deepMerge: DeepMerge)
  {
    forall a, b :: deepMerge(a, b).Ok? ==> forall k :: k in b ==> k in deepMerge(a, b).value && deepMerge(a, b).value[k] == b[k]
  }

  /** The base file `createCassandraYaml` reads: `cassandra_latest.yaml` when it exists. */
  function BaseConfigName(latestExists: bool): (name: string)
    ensures latestExists <==> name == "cassandra_latest.yaml"
  {
    if latestExists then "cassandra_latest.yaml" else "cassandra.yaml"
  }

  /** The final overrides applied last, when there are any: a deep merge and the boolean fix again. */
  function WithFinalOverrides(merged: map<string, Json>, finalOverrides: map<string, Json>, deepMerge: DeepMerge)
    : (r: Result<map<string, Json>>)
    ensures |finalOverrides| == 0 ==> r == Ok(merged)
    ensures |finalOverrides| > 0 && deepMerge(merged, finalOverrides).Ok?
      ==> r == Ok(BoolFixed(deepMerge(merged, finalOverrides).value, finalOverrides))
    ensures |finalOverrides| > 0 && !deepMerge(merged, finalOverrides).Ok? ==> r == deepMerge(merged, finalOverrides)
  {
    if |finalOverrides| == 0 then Ok(merged)
    else
      match deepMerge(merged, finalOverrides) {
        case Ok(m2) => Ok(BoolFixed(m2, finalOverrides))
        case Err(e) => Err(e)
        case Panic(e) => Panic(e)
      }
  }

  /**
   * `createCassandraYaml` lines 622-680 on values: the decoded base file merged with the input's
   * settings and their booleans, the operator's overrides, then the pod's final overrides.
   * `baseYaml` is the outcome of reading and decoding the base file.
   */
  function CassandraYaml(baseYaml: Result<map<string, Json>>, input: ConfigInput, node: NodeInfo,
                         finalOverrides: map<string, Json>, deepMerge: DeepMerge): (r: Result<map<string, Json>>)
    ensures !baseYaml.Ok? ==> r == baseYaml
    ensures baseYaml.Ok? && !deepMerge(baseYaml.value, input.cassYaml).Ok? ==> r == deepMerge(baseYaml.value, input.cassYaml)
  {
    match baseYaml {
      case Err(e) => Err(e)
      case Panic(e) => Panic(e)
      case Ok(cassandraYaml) =>
        match deepMerge(cassandraYaml, input.cassYaml) {
          case Err(e) => Err(e)
          case Panic(e) => Panic(e)
          case Ok(merged) =>
            match Overridden(BoolFixed(merged, input.cassYaml), input.clusterInfo, node) {
              case Ok(o) => WithFinalOverrides(o, finalOverrides, deepMerge)
              case Err(e) => Err(e)
              case Panic(e) => Panic(e)
            }
        }
    }
  }

  /** `createCassandraYaml`: the map written to the output `cassandra.yaml`, or the error. */
  method CreateCassandraYaml(baseYaml: Result<map<string, Json>>, input: ConfigInput, node: NodeInfo,
                             finalOverrides: map<string, Json>, deepMerge: DeepMerge) returns (r: Result<map<string, Json>>)
    ensures r == CassandraYaml(baseYaml, input, node, finalOverrides, deepMerge)
  {
    if !baseYaml.Ok? {
      return baseYaml;
    }
    var merged := deepMerge(baseYaml.value, input.cassYaml);
    if !merged.Ok? {
      return merged;
    }
    var fixed := FixBools(merged.value, input.cassYaml);
    var overridden := K8ssandraOverrides(fixed, input.clusterInfo, node);
    if !overridden.Ok? {
      return overridden;
    }
    if |finalOverrides| > 0 {
      var merged2 := deepMerge(overridden.value, finalOverrides);
      if !merged2.Ok? {
        return merged2;
      }
      var fixed2 := FixBools(merged2.value, finalOverrides);
      return Ok(fixed2);
    }
    return overridden;
  }

  /** The stages of a run that produced a file: the first merge, the operator's overrides, the last stage. */
  lemma {:induction false} Stages(baseYaml: Result<map<string, Json>>, input: ConfigInput, node: NodeInfo,
               finalOverrides: map<string, Json>, deepMerge: DeepMerge)
    returns (merged: map<string, Json>, overridden: map<string, Json>)
    requires CassandraYaml(baseYaml, input, node, finalOverrides, deepMerge).Ok?
    ensures baseYaml.Ok? && deepMerge(baseYaml.value, input.cassYaml) == Ok(merged)
    ensures Overridden(BoolFixed(merged, input.cassYaml), input.clusterInfo, node) == Ok(overridden)
    ensures CassandraYaml(baseYaml, input, node, finalOverrides, deepMerge) == WithFinalOverrides(overridden, finalOverrides, deepMerge)
  {
    merged := deepMerge(baseYaml.value, input.cassYaml).value;
    overridden := Overridden(BoolFixed(merged, input.cassYaml), input.clusterInfo, node).value;
  }

  /** What the last stage keeps of the operator's map, under the deep merge's hypotheses. */
  lemma {:induction false} FinalStage(overridden: map<string, Json>, finalOverrides: map<string, Json>, deepMerge: DeepMerge)
    requires WithFinalOverrides(overridden, finalOverrides, deepMerge).Ok?
    ensures var y := WithFinalOverrides(overridden, finalOverrides, deepMerge).value;
      (forall k :: k in finalOverrides && finalOverrides[k].JBool? ==> k in y && y[k] == finalOverrides[k])
      && (KeepsKeys(deepMerge) ==> overridden.Keys + finalOverrides.Keys <= y.Keys)
      && (KeepsUnmentioned(deepMerge) ==> forall k :: k in overridden && k !in finalOverrides ==> k in y && y[k] == overridden[k])
      && (PriorityWins(deepMerge) ==> forall k :: k in finalOverrides ==> k in y && y[k] == finalOverrides[k])
  {
    if |finalOverrides| > 0 {
      var m2 := deepMerge(overridden, finalOverrides);
      assert m2.Ok?;
    }
  }

  /**
   * Without final overrides, the operator's settings win over the input's own: the listen, RPC
   * and broadcast RPC addresses, the seed provider and the cluster name are the node's and the
   * cluster's whatever the input says, and `broadcast_address` is gone.
   */
  lemma {:induction false} ManagedKeysWin(baseYaml: Result<map<string, Json>>, input: ConfigInput, node: NodeInfo, deepMerge: DeepMerge)
    requires CassandraYaml(baseYaml, input, node, map[], deepMerge).Ok?
    ensures var y := CassandraYaml(baseYaml, input, node, map[], deepMerge).value;
      ClusterNameKey in y && y[ClusterNameKey] == JString(input.clusterInfo.name)
      && SeedProviderKey in y && y[SeedProviderKey] == SeedProvider(input.clusterInfo.seeds)
      && ListenAddressKey in y && y[ListenAddressKey] == JString(IpString(node.listenIp))
      && RpcAddressKey in y && y[RpcAddressKey] == JString(IpString(node.rpcIp))
      && BroadcastRpcAddressKey in y && y[BroadcastRpcAddressKey] == JString(IpText(node.broadcastIp))
      && BroadcastAddressKey !in y
  {
    var merged, overridden := Stages(baseYaml, input, node, map[], deepMerge);
  }

  /**
   * A boolean the input sets on a key the operator does not manage is written as the input says,
   * even where the deep merge lost it, unless the final overrides set that key.
   */
  lemma {:induction false} InputBooleansKept(baseYaml: Result<map<string, Json>>, input: ConfigInput, node: NodeInfo,
                          finalOverrides: map<string, Json>, deepMerge: DeepMerge, k: string)
    requires CassandraYaml(baseYaml, input, node, finalOverrides, deepMerge).Ok?
    requires KeepsUnmentioned(deepMerge)
    requires k in input.cassYaml && input.cassYaml[k].JBool? && k !in ManagedKeys && k !in finalOverrides
    ensures var y := CassandraYaml(baseYaml, input, node, finalOverrides, deepMerge).value;
      k in y && y[k] == input.cassYaml[k]
  {
    var merged, overridden := Stages(baseYaml, input, node, finalOverrides, deepMerge);
    var fixed := BoolFixed(merged, input.cassYaml);
    assert k in fixed && fixed[k] == input.cassYaml[k];
    assert k in overridden && overridden[k] == input.cassYaml[k];
    FinalStage(overridden, finalOverrides, deepMerge);
  }

  /** A boolean in the final overrides is always written as they say. */
  lemma {:induction false} FinalBooleansWin(baseYaml: Result<map<string, Json>>, input: ConfigInput, node: NodeInfo,
                         finalOverrides: map<string, Json>, deepMerge: DeepMerge, k: string)
    requires CassandraYaml(baseYaml, input, node, finalOverrides, deepMerge).Ok?
    requires k in finalOverrides && finalOverrides[k].JBool?
    ensures var y := CassandraYaml(baseYaml, input, node, finalOverrides, deepMerge).value;
      k in y && y[k] == finalOverrides[k]
  {
    var merged, overridden := Stages(baseYaml, input, node, finalOverrides, deepMerge);
    FinalStage(overridden, finalOverrides, deepMerge);
  }

  /**
   * With a deep merge that keeps keys, no key of the base file is lost except `broadcast_address`,
   * and every key the input or the final overrides set is present.
   */
  lemma {:induction false} NothingRemoved(baseYaml: Result<map<string, Json>>, input: ConfigInput, node: NodeInfo,
                       finalOverrides: map<string, Json>, deepMerge: DeepMerge)
    requires CassandraYaml(baseYaml, input, node, finalOverrides, deepMerge).Ok?
    requires KeepsKeys(deepMerge)
    ensures var y := CassandraYaml(baseYaml, input, node, finalOverrides, deepMerge).value;
      (forall k :: k in baseYaml.value && k != BroadcastAddressKey ==> k in y)
      && (forall k :: k in input.cassYaml && k != BroadcastAddressKey ==> k in y)
      && (forall k :: k in finalOverrides ==> k in y)
  {
    var merged, overridden := Stages(baseYaml, input, node, finalOverrides, deepMerge);
    assert baseYaml.value.Keys + input.cassYaml.Keys <= merged.Keys;
    var fixed := BoolFixed(merged, input.cassYaml);
    assert merged.Keys <= fixed.Keys;
    forall k | k in fixed && k != BroadcastAddressKey
      ensures k in overridden
    {
      if k !in ManagedKeys {
        assert k in overridden;
      }
    }
    FinalStage(overridden, finalOverrides, deepMerge);
  }

  /**
   * With a deep merge in which the higher priority wins, a final override of any kind, the
   * operator's keys included, is what is written.
   */
  lemma {:induction false} FinalOverridesWin(baseYaml: Result<map<string, Json>>, input: ConfigInput, node: NodeInfo,
                          finalOverrides: map<string, Json>, deepMerge: DeepMerge, k: string)
    requires CassandraYaml(baseYaml, input, node, finalOverrides, deepMerge).Ok?
    requires PriorityWins(deepMerge)
    requires k in finalOverrides
    ensures var y := CassandraYaml(baseYaml, input, node, finalOverrides, deepMerge).value;
      k in y && y[k] == finalOverrides[k]
  {
    var merged, overridden := Stages(baseYaml, input, node, finalOverrides, deepMerge);
    FinalStage(overridden, finalOverrides, deepMerge);
  }
}
