# k8ssandra-client core, modelled in Dafny

k8ssandra-client is a kubectl plugin and library for running Cassandra under the k8ssandra and
cass-operator operators. This project models its decision logic over in-memory values and proves
what that logic promises:

- **Scale-out feasibility check** (`pkg/scheduler/fit.go`, module `Fit`). A greedy first-fit
  placement runs over an array of node snapshots. A chain of five filter plugins judges each
  (pod, node) pair, and a node that receives a proposed pod becomes unschedulable.
  `FitPlugins` gives plain versions of the five plugins and the scenarios of the tests.
  `Estimate` models the `estimate` command, which validates the count, makes the pods and runs
  the placement (`cmd/kubectl-k8ssandra/tools/estimate.go`).
- **Configuration builder** (`pkg/config/builder.go`):
  - `ConfigGc`: the garbage-collector tables, the detection and filtering of collector flags,
    and the JVM version read from a file name.
  - `JvmOptions`: the line filter of a server-options file, and the option-map merge. It also
    covers collector detection, rendering, the collector swap and the key/prefix dedup of
    `createServerJVMOptions`.
  - `ConfigBuilder`: `NewBuilder` and the pod-override merge of `Build`, plus the rack
    properties and `cassandra-env.sh` text and the loop over the four server-options files.
    It also holds `k8ssandraOverrides`, the boolean fix after a deep merge and the stages of
    `createCassandraYaml`.
  - `JvmMetadata`: the generated table of JVM flags (`pkg/config/metadata/jvm_server_options.go`),
    its inversion and the `-Xss|-Xms|-Xmx` prefix matcher.
- **CRD upgrade** (`pkg/helmutil/crds.go`, module `HelmCrds`):
  - the filter that picks `crds` directories of the chart and of the selected subcharts;
  - the collection of CustomResourceDefinition documents;
  - the create-or-update choice per CRD, and the stored-versions rule.
- **Validators and builders**:
  - task arguments and task records (`Tasks`);
  - the DNS-1035 label repair of `CleanupForKubernetes` (`Sanitize`), where labels are as in
    section 2.3.1 of RFC 1035;
  - the token-to-kubeconfig builder, the kubeconfig location precedence, the host override and
    the context checks (`KubeConfig`);
  - the client-encryption lookup on the datacenter's JSON config (`CassdcConfig`) and the
    auth record built from the superuser secret (`CassdcSecrets`);
  - the nodetool command line (`Nodetool`).
- **Support modules**:
  - `GoStrings` and `GoPaths` model the parts of Go's `strings`, `strconv` and `path/filepath`
    that the code relies on;
  - `Wrappers` holds `Option` and `Result`, where `Result` also has a `Panic` case for the
    run-time panics of the Go code (failed type assertions, nil dereferences, index out of
    range);
  - `Json` holds the decoded JSON/YAML value tree;
  - `Seqs` defines the subsequence relation that the name repair and the line and flag filters
    are stated with.

The Go code mutates in place in these spots; the model uses classes, arrays and imperative
methods for them:
- the node snapshot of the placement loop;
- the `options` struct of the nodetool command;
- the maps and slices that `createServerJVMOptions`, `k8ssandraOverrides`, `findCRDDirs`,
  `parseChartCRDs` and `Upgrade` grow.

Each such method is proved equal to a specification function. The properties are proved about
that function.

Where the tests and the code disagree, the model follows the code:
- `builder_test.go` calls `NewBuilder` with two arguments and `createRackProperties` with three.
- `builder_test.go:349-350` expects an IPv6 `rpc_address`, but `k8ssandraOverrides` always
  writes the node's RPC address.
- `crds_unit_test.go:18` calls `findCRDDirs` with one argument, and expects subcharts to be kept
  with no selection.
- `pkg/config/types.go` declares a `NodeInfo` without the listen, broadcast and RPC addresses
  that `builder.go` reads.

A tidy description of the placement algorithm would say that a PreFilter failure aborts the
whole run. The code rejects only the current node (`fit.go:186-194`) and runs PreFilter again
for every (pod, node) pair. The model follows the code.

## Model

| member | source | states |
|---|---|---|
| Fit.FirstFit | pkg/scheduler/fit.go:176-215 | the chosen node index is one every plugin admits, and no node before it (from the start index) is admitted; `None` exactly when no node is admitted |
| Fit.Run | pkg/scheduler/fit.go:174-219 | placement keeps the number of nodes; an infeasible verdict reports requested = number of proposed pods and a schedulable count strictly below it |
| Fit.Fits | pkg/scheduler/fit.go:184-204 | the plugin loop accepts a node exactly when every plugin admits it: a PreFilter other than Success/Skip rejects it, Skip bypasses that plugin's Filter, otherwise Filter must succeed |
| Fit.TryScheduling | pkg/scheduler/fit.go:174-219 | the nested pod/node/plugin loops over the node array give the verdict and final snapshot of the specification `Run` |
| Fit.PodCountBind | pkg/scheduler/fit.go:209-211 | binding a pod to a node adds exactly one pod to the snapshot |
| Fit.FreeCountBind | pkg/scheduler/fit.go:209-211 | binding a pod to a schedulable node removes exactly one node from the schedulable count |
| Fit.RunCountsPlacements | pkg/scheduler/fit.go:209-217 | a feasible run adds every proposed pod to the snapshot; an infeasible one adds exactly the `schedulable` pods placed before the failure |
| Fit.RunOnePodPerNode | pkg/scheduler/fit.go:206-213 | with a plugin that rejects unschedulable nodes in the chain, every placement uses up one schedulable node: the schedulable count falls by exactly the number of pods placed |
| Fit.AtMostOnePodPerNode | pkg/scheduler/fit.go:206-213 | with such a plugin in the chain, a run adds at most one pod to each schedulable node and none to an unschedulable one |
| Fit.FeasibleWithinFreeNodes | pkg/scheduler/fit.go:206-213 | under that plugin a feasible run never proposes more pods than the snapshot has schedulable nodes |
| Fit.RunOnlyAppends | pkg/scheduler/fit.go:209-211 | the run only appends proposed pods to nodes and sets their unschedulable flag; nothing else in the snapshot changes |
| Fit.EmptyProposalSucceeds | pkg/scheduler/fit.go:174-219 | an empty proposal is feasible and leaves the snapshot unchanged |
| Fit.FirstFitIsChosen | pkg/scheduler/fit.go:176-217 | each pod goes to the first node every plugin admits, on the snapshot the earlier pods left, with no backtracking; a pod no node admits ends the run as infeasible with the pods placed so far |
| FitPlugins.ChainAdmits | pkg/scheduler/fit.go:166-172 | the chain admits a pod on a node exactly when resources-fit, unschedulable, node-affinity (unless skipped), inter-pod-affinity (unless skipped) and taint-toleration all succeed |
| FitPlugins.ChainGuardsUnschedulable | pkg/scheduler/fit.go:166-172 | the second plugin of the chain rejects unschedulable nodes for pods without tolerations |
| FitPlugins.PlainPodOnFreshNode | pkg/scheduler/fit.go:176-214 | a pod without affinities whose requests fit an empty, untainted, schedulable node is placed there |
| FitPlugins.SmokeResources | pkg/scheduler/fit_test.go:17-34 | a 100m/100 pod fits the 1000m/1000 node and an 1100m/1100 pod does not |
| FitPlugins.SmokeTolerations | pkg/scheduler/fit_test.go:36-67 | a NoSchedule taint rejects the pod until it carries a matching toleration |
| FitPlugins.SmokeNodeAffinity | pkg/scheduler/fit_test.go:69-105 | a required node affinity fails until the node has the label |
| FitPlugins.SmokeInterPodAntiAffinity | pkg/scheduler/fit_test.go:107-155 | two anti-affine pods cannot both be placed on the single node |
| Estimate.Validate | cmd/kubectl-k8ssandra/tools/estimate.go:100-120 | a negative count is refused with the count error, then a CPU and then a memory parse error; otherwise the two quantities; zero is accepted |
| Estimate.MakeResources | cmd/kubectl-k8ssandra/tools/estimate.go:166-171 | the resource list has exactly the cpu (milli) and memory keys |
| Estimate.MakePods | cmd/kubectl-k8ssandra/tools/estimate.go:144-164 | exactly `count` pods, each named "a" with one container requesting the given resources |
| Estimate.GeneratedPodRequests | cmd/kubectl-k8ssandra/tools/estimate.go:148-160 | each generated pod asks the scheduler for exactly the requested CPU and memory |
| Estimate.Estimate | cmd/kubectl-k8ssandra/tools/estimate.go:123-142 | a validation error is returned with the snapshot untouched; otherwise the placement run decides, and a failure is wrapped with "Unable to schedule the pods" |
| Estimate.ZeroCountAlwaysFits | cmd/kubectl-k8ssandra/tools/estimate.go:101-103 | a count of zero passes validation and its run is feasible |
| ConfigGc.GetGCOptions | pkg/config/builder.go:514-540 | an unknown collector gets no flags; from JVM 17 on no collector gets the experimental unlock and at most one flag |
| ConfigGc.GcOptionsSelectTheirCollector | pkg/config/builder.go:514-540 | the flags of a supported collector select that collector and no other, except CMS from JVM 17, which gets no flags |
| ConfigGc.G1FlagsSelectG1 | pkg/config/builder.go:463-479 | the G1 flag lists select G1 only |
| ConfigGc.CMSFlagsSelectCMS | pkg/config/builder.go:463-479 | the CMS defaults select CMS only |
| ConfigGc.ShenandoahFlagsSelectShenandoah | pkg/config/builder.go:463-479 | the Shenandoah flag selects Shenandoah only |
| ConfigGc.ZGCFlagsSelectZGC | pkg/config/builder.go:463-479 | both ZGC flag lists select ZGC only |
| ConfigGc.GcOptionsExamples | pkg/config/builder_test.go:615-628 | the collector flags for G1, CMS, Shenandoah and ZGC on JVM 11 and 17 are those of the test |
| ConfigGc.OptionsOfMembers | pkg/config/builder.go:505-512 | a line is among the flags of a list of collectors exactly when it is a flag of one of them |
| ConfigGc.AllGCOptionsMembers | pkg/config/builder.go:505-512 | a line is among all collector flags exactly when some supported collector uses it |
| ConfigGc.GetAllGCOptions | pkg/config/builder.go:505-512 | the loop collects the flags of every supported collector, in order |
| ConfigGc.DetectFrom | pkg/config/builder.go:481-491 | the scan never reports an error, and a successful scan allows at least one answer; a non-string option before any flag panics |
| ConfigGc.DetectSkips | pkg/config/builder.go:481-491 | a string option with no selecting flag is passed over |
| ConfigGc.DetectGarbageCollector | pkg/config/builder.go:481-491 | the method panics exactly when the specification does, and otherwise returns one of its allowed answers |
| ConfigGc.DetectedIsSupported | pkg/config/builder.go:481-491 | a detected collector is a supported one or the empty string |
| ConfigGc.DetectNothing | pkg/config/builder.go:481-491 | strings without selecting flags detect nothing: the answer is "" |
| ConfigGc.DetectFirstFlag | pkg/config/builder.go:481-491 | the first option holding a selecting flag decides the collector |
| ConfigGc.AsStrings | pkg/config/builder.go:494-503 | the values as strings exactly when all are strings, element by element |
| ConfigGc.RemoveGcFlags | pkg/config/builder.go:494-503 | keeps exactly the lines that are not exact collector-selecting flags, never more lines |
| ConfigGc.RemoveGcFlagsKeepsOrder | pkg/config/builder.go:494-503 | the kept lines keep their order and repeats: the result is a subsequence of the input, and each line occurs in it as often as in the input, or never if it is a selecting flag |
| ConfigGc.FilterGCOptions | pkg/config/builder.go:494-503 | panics exactly when some option is not a string; otherwise no selecting flag is left and every other option is kept, in order and as often as it occurs |
| ConfigGc.JvmVersion | pkg/config/builder.go:388-396 | the version is within Go's `int` range |
| ConfigGc.JvmVersionOfNumbered | pkg/config/builder.go:388-396 | `jvmN-server.options` is a server-options file for JVM N |
| ConfigGc.JvmVersionOfUnnumbered | pkg/config/builder.go:392 | `jvm-server.options` is a server-options file for JVM 8 |
| ConfigGc.NumberedIsServerOptionsFile | pkg/config/builder.go:388 | "jvm", digits and "-server.options" match the server-options pattern |
| ConfigGc.NumberedVersionAt | pkg/config/builder.go:391-395 | the match at the start of a numbered name reads the number back |
| ConfigGc.NoVersionedMatch | pkg/config/builder.go:394 | the unnumbered file has no numbered match at any index |
| JvmOptions.KeptLine | pkg/config/builder.go:570-574 | at most one line is kept from a raw line; it is trimmed and is neither empty nor a comment |
| JvmOptions.OptionLines | pkg/config/builder.go:569-575 | never more lines than read; every kept line is trimmed and neither empty nor a comment |
| JvmOptions.OptionLinesKeep | pkg/config/builder.go:570-574 | every raw line that is an option once trimmed is kept, trimmed |
| JvmOptions.OptionLinesFixed | pkg/config/builder.go:570-574 | lines that are already trimmed option lines are read back unchanged |
| JvmOptions.OptionLinesIdempotent | pkg/config/builder.go:569-575 | filtering the filtered lines changes nothing |
| JvmOptions.ReadJvmServerOptions | pkg/config/builder.go:551-582 | a missing file gives no lines, an unreadable one its error, a present one its kept lines |
| JvmOptions.MergedOptions | pkg/config/builder.go:314-342 | errors with "must be a list of strings" exactly when both maps hold the additional options and either value is not a list; otherwise base keys plus override keys except `garbage_collector`, with override values winning, additional options concatenated base first |
| JvmOptions.CollectorFromBaseOnly | pkg/config/builder.go:337-342 | `garbage_collector` is never taken from the override |
| JvmOptions.MergeOptions | pkg/config/builder.go:314-342 | the in-place build of the option map gives the merged options |
| JvmOptions.CopyBase | pkg/config/builder.go:314-317 | the copy loop gives exactly the base map |
| JvmOptions.CopyOverridesOnto | pkg/config/builder.go:337-342 | the loop writes every override entry but the two special keys over the map |
| JvmOptions.AdditionalTargets | pkg/config/builder.go:348-369 | a detected collector with none set is recorded and the emitted options are exactly what the collector-flag filter keeps of the additional options; otherwise every additional option is emitted; other keys untouched; a non-list panics |
| JvmOptions.PrepareAdditional | pkg/config/builder.go:348-369 | the detection and filter as run give the specified outcome for an answer the detection may give |
| JvmOptions.TableFor | pkg/config/builder.go:294-304 | file names other than `jvm-server.options` and `jvm11-server.options` have no table |
| JvmOptions.RenderedLines | pkg/config/builder.go:372-384 | at most one line per visited key |
| JvmOptions.RenderCovers | pkg/config/builder.go:372-384 | every renderable key of the map gives its line |
| JvmOptions.RenderSound | pkg/config/builder.go:372-384 | every rendered line is the line of some renderable key |
| JvmOptions.RenderOptions | pkg/config/builder.go:371-384 | the render loop visits every key once, in some order, and emits the lines the specification gives for that order |
| JvmOptions.DropLinesHolding | pkg/config/builder.go:398-406 | keeps exactly the lines holding none of the flags, never more lines |
| JvmOptions.DropLinesKeepsOrder | pkg/config/builder.go:398-406 | the kept lines keep their order and repeats: a subsequence of the input with the same count of each line holding no flag, and none of the others |
| JvmOptions.SwappedLines | pkg/config/builder.go:387-411 | for a server-options file with a collector set, the chosen collector's flags end the list and before them stand exactly the base lines mentioning no collector flag of that JVM; the kept base lines are in their order and with their repeats; otherwise the lines are unchanged |
| JvmOptions.SwapGarbageCollector | pkg/config/builder.go:387-411 | the swap as run gives the specified lines |
| JvmOptions.EqualsIndex | pkg/config/builder.go:414 | -1 exactly when the line has no '=', else the index of the first '=' |
| JvmOptions.ClashReflexive | pkg/config/builder.go:423-435 | every line suppresses itself, so a kept base line never repeats an earlier output line |
| JvmOptions.FoldedKeepsTargets | pkg/config/builder.go:412-438 | the generated lines come first, unchanged |
| JvmOptions.FoldedFromBase | pkg/config/builder.go:412-438 | every line after the generated ones is a base line |
| JvmOptions.FoldedNoClash | pkg/config/builder.go:412-438 | no appended base line is suppressed by an earlier line of the output |
| JvmOptions.FoldedDropsOnlySuppressed | pkg/config/builder.go:412-438 | a base line is left out only when some line of the final output suppresses it (which line of the output so far decides is stated by `FoldedSnoc`) |
| JvmOptions.FoldedSnoc | pkg/config/builder.go:412-438 | folding one more base line appends it exactly when no line folded so far, generated or earlier base, suppresses it; so base lines are taken in order and the earlier of two clashing lines is kept |
| JvmOptions.FoldBaseLines | pkg/config/builder.go:412-438 | the dedup loop with its labelled continue gives the specified folded lines |
| JvmOptions.FoldedShape | pkg/config/builder.go:412-443 | generated lines first, then only unsuppressed base lines, every dropped base line suppressed, and an empty result only without generated and base lines; line by line, base line k is appended exactly when the fold of the lines before it does not suppress it |
| JvmOptions.WrittenFromOptions | pkg/config/builder.go:344-443 | never an error, and never an empty file written |
| JvmOptions.ServerJvmOptions | pkg/config/builder.go:306-461 | errors exactly on an unreadable base file or a bad additional-options merge; never writes an empty file |
| JvmOptions.BuildLines | pkg/config/builder.go:344-443 | the lines as built equal the specification for the detection answer and map order of the run |
| JvmOptions.CreateServerJvmOptions | pkg/config/builder.go:306-461 | the outcome of the whole function equals the specification for choices the run may make |
| JvmOptions.CollectorFromAdditionalOptions | pkg/config/builder.go:348-368 | a collector found in the merged additional options while none is set becomes the file's collector, and the emitted options are what the collector-flag filter keeps of them |
| JvmOptions.FoldDropsSameKey | pkg/config/builder_test.go:567-570 | a base line setting the same key as a generated line is dropped, whatever the values |
| JvmOptions.FoldDropsSamePrefix | pkg/config/builder_test.go:555-556 | a base line with a -Xss/-Xms/-Xmx prefix is dropped when a generated line has that prefix |
| JvmMetadata.TableKeysDistinct | pkg/config/metadata/jvm_server_options.go:8-56 | no two flags of the table share a configuration key |
| JvmMetadata.ServerOptions | pkg/config/metadata/jvm_server_options.go:66-73 | the result maps each flag's key to the flag, holds nothing else and has as many entries as the table |
| JvmMetadata.Invert | pkg/config/metadata/jvm_server_options.go:68-72 | the inversion loop over a table with distinct keys yields its exact inverse, of the same size |
| JvmMetadata.PrefixParser | pkg/config/metadata/jvm_server_options.go:75-85 | true exactly when the input starts with -Xss, -Xms or -Xmx, with that prefix as key; false with "" otherwise |
| JvmMetadata.PrefixParserKey | pkg/config/metadata/jvm_server_options.go:77-81 | the returned key is the input's first four characters |
| ConfigBuilder.Builder.constructor | pkg/config/builder.go:47-67 | each directory is the override when a non-empty one is given and its default otherwise |
| ConfigBuilder.ApplyPodOverrides | pkg/config/builder.go:94-105 | a positive arena count and a non-empty heap-dump directory of the pod win; the pod's options follow the input's; nothing else changes |
| ConfigBuilder.PodOverridesWithoutEnv | pkg/config/builder.go:94-105 | an override without cassandra-env settings leaves the input unchanged |
| ConfigBuilder.PodOverridesCompose | pkg/config/builder.go:94-105 | two overrides one after the other act as one override combining both |
| ConfigBuilder.RackPropertiesLines | pkg/config/builder.go:201-227 | the properties file is exactly two lines, `dc=` with the datacenter name and `rack=` with the rack name |
| ConfigBuilder.EnvText | pkg/config/builder.go:229-271 | the env file starts with the export lines and the base file |
| ConfigBuilder.OptLinesSplit | pkg/config/builder.go:259-266 | each additional option becomes exactly one line, in order |
| ConfigBuilder.OptLineSeq | pkg/config/builder.go:259-266 | one line per additional option, in order |
| ConfigBuilder.PodOptionsFollowInputOptions | pkg/config/builder.go:94-105 | after a pod override the env file has the input's option lines, then the pod's |
| ConfigBuilder.EnvTextStart | pkg/config/builder.go:236-253 | the file starts with the arena export when the count is positive, else the heap-dump export when set, else the base file |
| ConfigBuilder.WriteEnvHeader | pkg/config/builder.go:236-257 | the writes before the options give the export lines and the base file |
| ConfigBuilder.WriteOptLines | pkg/config/builder.go:259-266 | the loop writes one line per option, in order |
| ConfigBuilder.CreateCassandraEnv | pkg/config/builder.go:229-271 | a read error of the base file is returned; otherwise the specified text |
| ConfigBuilder.TryFile | pkg/config/builder.go:278-290 | one iteration adds the outcome of the next server-options file |
| ConfigBuilder.CreateJvmOptions | pkg/config/builder.go:274-292 | files are tried in order; every file before the last one tried succeeded, and a run that stops early stops at a failure |
| ConfigBuilder.Overridden | pkg/config/builder.go:682-710 | seed provider, listen, RPC and broadcast RPC addresses and cluster name written, `broadcast_address` removed, snitch only without `node_proximity`, location provider only for NetworkTopologyProximity, a non-string `node_proximity` panics, other keys kept |
| ConfigBuilder.K8ssandraOverrides | pkg/config/builder.go:682-710 | the in-place writes and delete give the specified map |
| ConfigBuilder.BoolKeys | pkg/config/builder.go:650-655 | exactly the keys whose value is a boolean |
| ConfigBuilder.BoolFixed | pkg/config/builder.go:648-655 | every boolean of the overrides is forced into the map, every other entry stays, nothing else is added |
| ConfigBuilder.BoolFixedIdempotent | pkg/config/builder.go:648-655 | fixing the booleans twice changes nothing |
| ConfigBuilder.FixBools | pkg/config/builder.go:650-655 | the loop gives the specified fixed map |
| ConfigBuilder.BaseConfigName | pkg/config/builder.go:623-627 | `cassandra_latest.yaml` exactly when it exists |
| ConfigBuilder.WithFinalOverrides | pkg/config/builder.go:661-675 | no final overrides leave the map; otherwise the merge error, or the merge with its booleans fixed |
| ConfigBuilder.CassandraYaml | pkg/config/builder.go:622-680 | a read or decode error of the base file, or an error of the first merge, is returned |
| ConfigBuilder.CreateCassandraYaml | pkg/config/builder.go:622-680 | the method gives the specified map or error |
| ConfigBuilder.ManagedKeysWin | pkg/config/builder.go:657-659 | without final overrides the operator's listen, RPC and broadcast RPC addresses, seeds and cluster name win over the input, and `broadcast_address` is gone |
| ConfigBuilder.InputBooleansKept | pkg/config/builder.go:648-655 | an input boolean on an unmanaged key is written as the input says, unless a final override sets it |
| ConfigBuilder.FinalBooleansWin | pkg/config/builder.go:667-673 | a boolean final override is always written |
| ConfigBuilder.NothingRemoved | pkg/config/builder.go:622-680 | with a key-keeping merge no key of the base file or the input is lost except `broadcast_address`, and every final override key is present |
| ConfigBuilder.FinalOverridesWin | pkg/config/builder.go:661-675 | with a priority-respecting merge every final override is written as given |
| HelmCrds.ChartFilter | pkg/helmutil/crds.go:168-193 | the filter never reports an error |
| HelmCrds.PartsFilter | pkg/helmutil/crds.go:173-192 | panics exactly with fewer than two path elements; keeps a directory unless it is two below a `charts` element and neither "_" nor its chart is selected |
| HelmCrds.ChartFilterRule | pkg/helmutil/crds.go:168-193 | only directories named `crds` are kept; panic exactly on a one-element path; a subchart's `crds` is kept exactly when "_" or that chart is selected |
| HelmCrds.ChartFilterOnPlainPath | pkg/helmutil/crds.go:173-192 | on an absolute path the chart's own `crds` is kept and `charts/<name>/crds` only when "_" or `<name>` is selected |
| HelmCrds.ChartLayout | pkg/helmutil/crds_unit_test.go:16-33 | the chart's own directory is always kept and subchart `k8ssandra-operator` only when selected |
| HelmCrds.BareCrdsPanics | pkg/helmutil/crds.go:173-174 | a relative `crds` path with no parent panics in the filter |
| HelmCrds.CrdDirs | pkg/helmutil/crds.go:195-205 | the walk succeeds exactly when no visit failed and the callback never failed; a returned error is a visit's |
| HelmCrds.CrdDirsKept | pkg/helmutil/crds.go:199-201 | every collected directory is a visited path the callback keeps |
| HelmCrds.CrdDirsComplete | pkg/helmutil/crds.go:195-205 | a walk without error collects every directory the callback keeps |
| HelmCrds.ChartsList | pkg/helmutil/crds.go:163-166 | the set holds exactly the selected subcharts |
| HelmCrds.FindCrdDirs | pkg/helmutil/crds.go:162-206 | directories and walk status are those of the specified walk with the chart filter |
| HelmCrds.WalkCrdDirs | pkg/helmutil/crds.go:194-205 | the walk loop gives the specified directories and status |
| HelmCrds.DocumentCrds | pkg/helmutil/crds.go:239-254 | never more objects than documents |
| HelmCrds.DocumentCrdsMembers | pkg/helmutil/crds.go:239-254 | the collected objects are exactly the decoded CustomResourceDefinition documents |
| HelmCrds.DocumentCrdsAppend | pkg/helmutil/crds.go:239-254 | the CRDs of two runs of documents are those of the first followed by those of the second, so file order and repeats are kept |
| HelmCrds.DocumentCrdsSingle | pkg/helmutil/crds.go:240-252 | one document contributes its object exactly when it decodes to kind CustomResourceDefinition |
| HelmCrds.DirCrdsAreCrds | pkg/helmutil/crds.go:208-260 | every collected object decoded as a CustomResourceDefinition in a walked file |
| HelmCrds.AppendDocumentCrds | pkg/helmutil/crds.go:239-254 | the loop appends the file's CRDs in document order |
| HelmCrds.ParseChartCrds | pkg/helmutil/crds.go:208-260 | appends the directory's CRDs and returns the first error |
| HelmCrds.VersionNamesOf | pkg/helmutil/crds.go:116-119 | one name per version, in order |
| HelmCrds.VersionNames | pkg/helmutil/crds.go:116-119 | the loop collects the version names in order |
| HelmCrds.NewStoredVersions | pkg/helmutil/crds.go:128-151 | stored versions are replaced by exactly the new versions only when the lists differ and a stored version is gone |
| HelmCrds.SomeVersionRemoved | pkg/helmutil/crds.go:134-141 | true exactly when some stored version is missing from the new versions |
| HelmCrds.UpgradeOne | pkg/helmutil/crds.go:94-156 | a missing CRD is created; a fetch error is wrapped and nothing is written; a found CRD is never created, and without an error its writes end with an update of the chart's definition; a stored-versions write only happens for a found CRD, with the fetched resource version and the new version names |
| HelmCrds.UpgradeOneConversionErrors | pkg/helmutil/crds.go:110-126 | a chart or cluster definition that does not convert ends the upgrade with the wrapped error before any write |
| HelmCrds.UpgradeOneStatusRule | pkg/helmutil/crds.go:128-151 | for a found CRD whose definitions convert, the stored versions are written exactly when the stored-versions rule asks for it |
| HelmCrds.UpgradeOneVersionWithoutStatus | pkg/helmutil/crds.go:106-155 | without a status write, the only write is the update carrying the fetched resource version, and its error is wrapped |
| HelmCrds.UpgradeOneVersionAfterStatus | pkg/helmutil/crds.go:143-155 | after a status write, the update carries the resource version that write returned; a failed status write ends the upgrade with the wrapped error and no update |
| HelmCrds.UpgradeAllCreatesMissing | pkg/helmutil/crds.go:94-157 | a successful run creates exactly the chart CRDs that were missing |
| HelmCrds.UpgradeCrd | pkg/helmutil/crds.go:94-156 | the per-CRD loop body gives the specified writes and error |
| HelmCrds.CollectChartCrds | pkg/helmutil/crds.go:87-92 | the loop over directories gives the specified CRDs and first error |
| HelmCrds.UpgradeCrds | pkg/helmutil/crds.go:94-157 | the loop over CRDs gives the specified writes and error |
| HelmCrds.UpgradeOutcome | pkg/helmutil/crds.go:85-159 | a filter panic or a parse error writes nothing; a success returns the chart's CRDs after writing all of them |
| HelmCrds.Upgrade | pkg/helmutil/crds.go:51-160 | the method gives the specified result and writes |
| HelmCrds.StoredVersionsAcrossUpgrades | pkg/helmutil/crds_test.go:140-180 | serving v1alpha1, then also v1beta1, then v1beta1 alone leaves stored versions [v1alpha1], [v1alpha1, v1beta1], [v1beta1] |
| Tasks.RestartArguments | pkg/tasks/create.go:23-29 | only the rack is set |
| Tasks.ReplaceArguments | pkg/tasks/create.go:47-52 | an empty pod name is refused with its error; otherwise only the pod is set |
| Tasks.CommonArguments | pkg/tasks/create.go:188-193 | only rack and pod are set |
| Tasks.CompactionArguments | pkg/tasks/create.go:121-134 | errors exactly when tables come without a keyspace; rack, pod and keyspace copied; tables set exactly when there are some |
| Tasks.RebuildArguments | pkg/tasks/create.go:168-176 | errors exactly without a source datacenter; otherwise it, rack and pod are set |
| Tasks.CreateTask | pkg/tasks/create.go:195-225 | the record is sent once; the server's error is returned, otherwise the record |
| Tasks.TaskRecordShape | pkg/tasks/create.go:196-218 | one job with the command, named "<dc>-<command>", referring to the datacenter, with the arguments copied when given |
| Tasks.JobNamesDistinct | pkg/tasks/create.go:209 | different commands give their jobs different names |
| Tasks.CreateRestartTask | pkg/tasks/create.go:18-21 | sends the restart record with the rack |
| Tasks.CreateValidatedTask | pkg/tasks/create.go:38-45 | a validation error is returned before anything is sent |
| Tasks.CreateReplaceTask | pkg/tasks/create.go:38-45 | no pod name, no request; otherwise the replace record |
| Tasks.CreateCommonTask | pkg/tasks/create.go:65-68 | flush, cleanup, upgrade-sstables, scrub and garbage-collect send their record with rack and pod |
| Tasks.CreateCompactionTask | pkg/tasks/create.go:113-119 | tables without keyspace send nothing; otherwise the compaction record |
| Tasks.CreateRebuildTask | pkg/tasks/create.go:160-166 | no source datacenter, no request; otherwise the rebuild record |
| Tasks.CompactionExamples | pkg/tasks/create_test.go:221-235 | the compaction cases of the test |
| Sanitize.ToLowerChar | pkg/registration/sanitize_strings.go:18 | label characters are kept and ASCII capitals lowered |
| Sanitize.Prepare | pkg/registration/sanitize_strings.go:18-19 | same length; each '_' becomes '-' and every other rune is lowered |
| Sanitize.FindAll | pkg/registration/sanitize_strings.go:20 | every match is label-shaped |
| Sanitize.CleanupForKubernetes | pkg/registration/sanitize_strings.go:13-25 | a valid label is returned unchanged; any result is empty or label-shaped, and a valid label when short enough |
| Sanitize.ConcatShaped | pkg/registration/sanitize_strings.go:21 | joining label-shaped matches gives a label-shaped string |
| Sanitize.RepairIsSubsequence | pkg/registration/sanitize_strings.go:18-21 | a repaired name is a subsequence of the lowered, dashed input |
| Sanitize.CleanupIdempotent | pkg/registration/sanitize_strings.go:13-25 | cleaning a cleaned name again changes nothing, whatever its length |
| Sanitize.CleanupLowersAndDashes | pkg/registration/sanitize_strings.go:18-19 | "A_b" becomes "a-b" |
| Sanitize.CleanupDropsDots | pkg/registration/sanitize_strings.go:20-21 | "a.b" becomes "ab" |
| KubeConfig.TokenToKubeconfig | pkg/registration/token_to_kubeconfig.go:10-37 | error exactly when "ca.crt" or "token" is missing; otherwise one cluster, user and context named "cluster", with the server, CA and token |
| KubeConfig.TokenKubeconfigResolves | pkg/registration/token_to_kubeconfig.go:17-35 | the built kubeconfig resolves through context "cluster" to its server, CA and token |
| KubeConfig.KubeconfigFileLocation | pkg/registration/kubeconfig.go:52-64 | the argument, else KUBECONFIG even if empty, else `<home>/.kube/config`, with the home-dir error otherwise |
| KubeConfig.DefaultLocation | pkg/registration/kubeconfig.go:62 | the default location is `<home>/.kube/config` |
| KubeConfig.KubeconfigToHost | pkg/registration/kubeconfig.go:66-93 | both overrides give "https://ip:port"; otherwise a location or load error is returned, an empty context name gives the current context's default host, a missing named context is an error, an existing one gives its cluster's server, and a context naming a missing cluster panics |
| KubeConfig.GetClient | pkg/registration/kubeconfig.go:14-50 | a location or load error is returned; an empty context name gives the current context; a missing named context is an error; an existing one gives its cluster and user, and panics when either is missing |
| KubeConfig.WellFormedNeverPanics | pkg/registration/kubeconfig.go:32-39 | on a well-formed kubeconfig a named context never panics |
| CassdcConfig.Search | pkg/cassdcutil/config.go:14-15 | the empty path finds the node itself |
| CassdcConfig.SearchAppend | pkg/cassdcutil/config.go:33 | searching a path is searching its first part, then the rest from there |
| CassdcConfig.ClientEncryptionEnabled | pkg/cassdcutil/config.go:8-21 | false on a parse error or a missing section; true exactly when `enabled` is true; panic exactly when the section exists and `enabled` is not a boolean |
| CassdcConfig.SubSectionOfCassYaml | pkg/cassdcutil/config.go:23-34 | empty on a parse error or missing cassandra-yaml; otherwise the children of the section, or empty when it is not an object |
| CassdcSecrets.TrimmedOption | pkg/cassdcutil/secrets.go:36-39 | the trimmed string exactly when the key holds a string, a panic otherwise |
| CassdcSecrets.CassandraAuthDetails | pkg/cassdcutil/secrets.go:23-43 | the fetch error is returned; user and password from the secret; the store fields empty without encryption and trimmed from the section with it |
| Nodetool.AuthParameters | cmd/kubectl-k8ssandra/nodetool/nodetool.go:127-140 | the user and password flags first; the six SSL flags exactly when a keystore is set |
| Nodetool.AuthParametersOf | cmd/kubectl-k8ssandra/nodetool/nodetool.go:127-140 | four entries without a keystore, ten with one |
| Nodetool.Options.constructor | cmd/kubectl-k8ssandra/nodetool/nodetool.go:31-36 | the options start with no pod, parameters or command |
| Nodetool.Options.Complete | cmd/kubectl-k8ssandra/nodetool/nodetool.go:67-96 | fewer than two arguments is the parameters error with the options unchanged; then the exec-options, REST and client errors, in that order; the first argument becomes the pod, and on success the rest become the parameters |
| Nodetool.Options.Run | cmd/kubectl-k8ssandra/nodetool/nodetool.go:106-125 | a lookup or auth error is returned with the command unchanged; otherwise the command is "nodetool", the auth flags and the parameters |
| Nodetool.Options.BuildCommand | cmd/kubectl-k8ssandra/nodetool/nodetool.go:118-122 | the command is "nodetool", the auth flags and the parameters |
| Nodetool.CommandShape | cmd/kubectl-k8ssandra/nodetool/nodetool.go:118-122 | "nodetool" first, the credentials next, the parameters last and unchanged |
| Nodetool.NoKeystoreNoSsl | cmd/kubectl-k8ssandra/nodetool/nodetool.go:130-137 | without a keystore the command carries no SSL flag |
| GoStrings.TrimSpace | pkg/cassdcutil/secrets.go:36-39 | the middle of the string left after removing leading and trailing spaces |
| GoStrings.TrimSpaceIdempotent | pkg/config/builder.go:570 | trimming twice changes nothing |
| GoStrings.Index | pkg/config/builder.go:414 | the first occurrence, or -1 exactly when there is none |
| GoStrings.Atoi | pkg/config/builder.go:395 | the decimal value, capped at Go's largest `int` |
| GoStrings.DecimalRoundTrip | pkg/config/builder.go:395 | reading back printed digits gives the number |
| GoStrings.Split | pkg/helmutil/crds.go:173 | at least one part; one exactly without a separator; no part holds one |
| GoStrings.SplitJoin | pkg/helmutil/crds.go:173 | splitting joined separator-free parts gives the parts |
| GoStrings.JoinSplit | pkg/helmutil/crds.go:173 | joining the split parts gives the string |
| GoPaths.Clean | pkg/helmutil/crds.go:173 | never empty, and rooted paths stay rooted |
| GoPaths.CleanPlain | pkg/helmutil/crds.go:173 | a relative path of plain segments is already clean |
| GoPaths.Base | pkg/helmutil/crds.go:169 | never empty, and "/" or slash-free |
| GoPaths.BaseOfChild | pkg/helmutil/crds.go:169 | the base of `dir/name` is `name` |
| GoPaths.Join | pkg/registration/kubeconfig.go:62 | empty exactly when all elements are empty |

## Left out

- Client and informer setup of `TryScheduling` (fit.go:102-164): the node and pod listings, the informer factory and the cache sync. The snapshot is an input array.
- Scheduler plugin internals: the five kube-scheduler plugins are abstract predicates. `FitPlugins` gives plain versions (resource fit, unschedulable, node affinity, a required anti-affinity check, taint toleration) to state the scenarios of the tests.
- That later plugins are not run after a rejection is not observable, because the plugins are pure here.
- `framework.NewPodInfo` failing is the parameter `podInfoOk`. The `fmt.Printf` logging of rejections is left out.
- Fit.RunOnePodPerNode, Fit.AtMostOnePodPerNode: one pod per node is proved under a hypothesis on the chain's unschedulable plugin. The real plugin admits a pod tolerating the `node.kubernetes.io/unschedulable` taint.
- Monotonicity in nodes or requests is not proved. It depends on the plugins, and for inter-pod anti-affinity it does not hold in general.
- Estimate.MakePods: requires a non-negative count. Go's `make` panics on a negative length, and the caller has refused negative counts already.
- The REST configuration and client errors of `estimate` Run, and the quantity parsing, which are inputs.
- The prefix regex `gentypes.JvmServerOptionsPrefixExp` used by `prefixMatcher` (builder.go:542-549) is not part of this model. It is taken to be the generated `^-Xss|^-Xms|^-Xmx` (jvm_server_options.go:59).
- The file-name regexes `jvm.*-server\.options` and `jvm(\d+)-server\.options` are modelled by their prefix, digits and suffix.
- The definitions-parser `Output` of the metadata is an abstract format: one value per key, with a kind.
- `TemplateValue` entries are skipped, as the source does.
- `fmt.Sprintf("%v")` of arrays and objects renders as the empty string in the model.
- Go map iteration order (builder.go:372, 484) becomes ghost parameters: the render order and the detection answer. Every statement holds for any order a run may take.
- `goalesce.DeepMerge` is a parameter. The statements about the final map assume the hypotheses they name (`KeepsKeys`, `KeepsUnmentioned`, `PriorityWins`).
- YAML and JSON decoding and encoding, YAML document splitting, and `writeYaml`. Files are inputs as line lists, texts and maps.
- The file I/O of `createCassandraEnv`, `createRackProperties`, `readPodOverrides`, `copyFiles` and `copyFile`, and the `Fprintf` write errors. Scanner errors are folded into an unreadable file.
- `readPodOverrides` and `parseConfigInput` are left out: the pod's override is an input. `readPodOverrides` never returns nil, so `Build` always applies it.
- `parseNodeInfo` and `net.ParseIP`: node addresses are optional strings, printed as `net.IP.String` does.
- `Build`'s orchestration is left out. Its in-place update of the config input is the function `ApplyPodOverrides`.
- ConfigBuilder.CassandraYaml: its contract states only the error cases. What the written map holds is stated by the lemmas beside it.
- Chart download, extraction and stat in `Upgrade` (fetch.go). The `filepath.Walk` visits of the chart directory and of each `crds` directory are inputs.
- The Kubernetes API calls of `Upgrade` are abstract effects: a fetch outcome, and the error of a create or update.
- In `Upgrade`, `SetResourceVersion` on a range copy shares metadata with the parsed list. The model returns the parsed CRDs unchanged.
- The text of panic messages.
- Kubeconfig loading by clientcmd, the environment and the home directory are parameters. So is the default host of the current context.
- `GetClient` stops at the REST configuration target; building the client is left out. `pkg/registration/get_client_from_kubeconfig.go` is not part of this model.
- The superuser secret of `CassdcSecrets` is a map of strings: its bytes are read as strings.
- gabs path lookup is modelled on the JSON tree without wildcards, without the "~1"/"~0" segment escapes, and with array indices read as plain digit strings (gabs uses `strconv.Atoi`, which also accepts a sign). Every path the source looks up is a literal with none of these.
- `strings.ToLower` is modelled for ASCII, U+0130 and U+212A, the only runes whose lower case can be a label character. Any other rune is kept, and the label regex drops it anyway.
- `pkg/tasks/cluster.go` is not part of this model: the task's object name is a parameter. The cass-operator command strings are constants, and the API create call is an abstract error.
- The exec of `nodetool`, the exec-options and client construction of `Complete`, and the datacenter lookup of `Run` are parameters.
