/**
 * Creating cass-operator `CassandraTask` objects (pkg/tasks/create.go): the job arguments each
 * command accepts, with their validation, and the task record sent to the API server. The API
 * server's answer to the create call and the generated object name are inputs.
 */
module Tasks {
  import opened Wrappers

  /** The cass-operator commands the package creates tasks for. */
  datatype Command = Restart | ReplaceNode | Flush | Cleanup | UpgradeSSTables | Scrub | Compaction | GarbageCollect | Rebuild

  /** The `CassandraCommand` string of each command, as cass-operator defines it. */
  function CommandName(c: Command): string
  {
    match c
    case Restart => "restart"
    case ReplaceNode => "replacenode"
    case Flush => "flush"
    case Cleanup => "cleanup"
    case UpgradeSSTables => "upgradesstables"
    case Scrub => "scrub"
    case Compaction => "compaction"
    case GarbageCollect => "garbagecollect"
    case Rebuild => "rebuild"
  }

  /** Different commands have different names. */
  lemma {:induction false} CommandNamesDistinct(a: Command, b: Command)
    ensures CommandName(a) == CommandName(b) <==> a == b
  {
  }

  /**
   * `controlapi.JobArguments`, restricted to the fields this package sets; `tables` is `None`
   * where Go leaves the slice nil.
   */
  datatype JobArguments = JobArguments(
    rackName: string,
    podName: string,
    keyspaceName: string,
    sourceDatacenter: string,
    tables: Option<seq<string>>)

  /** The zero value of `JobArguments`. */
  const NoArguments := JobArguments("", "", "", "", None)

  const ErrPodNameRequired := "podName must be specified"
  const ErrKeyspaceRequired := "keyspace must be specified when tables are specified"
  const ErrSourceDatacenterRequired := "sourceDatacenter must be specified"

  /** `restartArguments` (create.go:23-29): only the rack. */
  function RestartArguments(rackName: string): (r: JobArguments)
    ensures r.rackName == rackName
    ensures r.podName == "" && r.keyspaceName == "" && r.sourceDatacenter == "" && r.tables.None?
  {
    NoArguments.(rackName := rackName)
  }

  /** `replaceArguments` (create.go:47-52): the pod to replace is required, and is all that is set. */
  function ReplaceArguments(podName: string): (r: Result<JobArguments>)
    ensures r.Err? <==> podName == ""
    ensures r.Err? ==> r.error == ErrPodNameRequired
    ensures !r.Panic?
    ensures r.Ok? ==> (r.value.podName == podName && r.value.rackName == "" && r.value.keyspaceName == ""
      && r.value.sourceDatacenter == "" && r.value.tables.None?)
  {
    if podName == "" then Err(ErrPodNameRequired) else Ok(NoArguments.(podName := podName))
  }

  /** `commonArguments` (create.go:188-193): the rack and the pod, nothing else. */
  function CommonArguments(rackName: string, podName: string): (r: JobArguments)
    ensures r.rackName == rackName && r.podName == podName
    ensures r.keyspaceName == "" && r.sourceDatacenter == "" && r.tables.None?
  {
    JobArguments(rackName, podName, "", "", None)
  }

  /**
   * `compactionArguments` (create.go:121-134): tables need a keyspace; the tables are attached
   * only when there are some, so an empty list leaves the field unset.
   */
  function CompactionArguments(rackName: string, podName: string, keyspaceName: string, tables: seq<string>): (r: Result<JobArguments>)
    ensures r.Err? <==> keyspaceName == "" && |tables| > 0
    ensures r.Err? ==> r.error == ErrKeyspaceRequired
    ensures !r.Panic?
    ensures r.Ok? ==> (r.value.rackName == rackName && r.value.podName == podName
      && r.value.keyspaceName == keyspaceName && r.value.sourceDatacenter == "")
    ensures r.Ok? ==> (r.value.tables.Some? <==> |tables| > 0)
    ensures r.Ok? && r.value.tables.Some? ==> r.value.tables.value == tables
  {
    var args := CommonArguments(rackName, podName).(keyspaceName := keyspaceName);
    if keyspaceName == "" && |tables| > 0 then Err(ErrKeyspaceRequired)
    else if |tables| > 0 then Ok(args.(tables := Some(tables)))
    else Ok(args)
  }

  /** `rebuildArguments` (create.go:168-176): the source datacenter is required. */
  function RebuildArguments(rackName: string, podName: string, sourceDatacenter: string): (r: Result<JobArguments>)
    ensures r.Err? <==> sourceDatacenter == ""
    ensures r.Err? ==> r.error == ErrSourceDatacenterRequired
    ensures !r.Panic?
    ensures r.Ok? ==> (r.value.rackName == rackName && r.value.podName == podName
      && r.value.sourceDatacenter == sourceDatacenter && r.value.keyspaceName == "" && r.value.tables.None?)
  {
    var args := CommonArguments(rackName, podName);
    if sourceDatacenter == "" then Err(ErrSourceDatacenterRequired)
    else Ok(args.(sourceDatacenter := sourceDatacenter))
  }

  /** The name and namespace of a `CassandraDatacenter`. */
  datatype Datacenter = Datacenter(name: string, namespace: string)

  /** `corev1.ObjectReference`, by name and namespace. */
  datatype ObjectReference = ObjectReference(name: string, namespace: string)

  /** `controlapi.CassandraJob`. */
  datatype Job = Job(name: string, command: Command, arguments: JobArguments)

  /** `controlapi.CassandraTask`, by the fields `CreateTask` fills. */
  datatype Task = Task(name: string, namespace: string, datacenter: ObjectReference, jobs: seq<Job>)

  /** The name of the one job of a task: the datacenter's name, a dash and the command. */
  function JobName(dcName: string, command: Command): string
  {
    dcName + "-" + CommandName(command)
  }

  /**
   * The task `CreateTask` sends: named `name` (from `createName`, which is not part of this model)
   * in the datacenter's namespace, referring to the datacenter, with one job that carries the
   * arguments when there are any and zero arguments otherwise.
   */
  function TaskRecord(command: Command, dc: Datacenter, args: Option<JobArguments>, name: string): Task
  {
    Task(name, dc.namespace, ObjectReference(dc.name, dc.namespace),
         [Job(JobName(dc.name, command), command, if args.Some? then args.value else NoArguments)])
  }

  /**
   * `CreateTask` (create.go:195-225): the record is built with empty arguments, the arguments are
   * then copied into its job, and it is sent to the API server; `createError` is the server's
   * refusal. `requests` lists the objects sent.
   */
  method CreateTask(command: Command, dc: Datacenter, args: Option<JobArguments>, name: string, createError: Option<string>)
    returns (r: Result<Task>, requests: seq<Task>)
    ensures requests == [TaskRecord(command, dc, args, name)]
    ensures r.Err? <==> createError.Some?
    ensures createError.Some? ==> r == Err(createError.value)
    ensures r.Ok? ==> r.value == TaskRecord(command, dc, args, name)
    ensures !r.Panic?
  {
    var task := Task(name, dc.namespace, ObjectReference(dc.name, dc.namespace),
                     [Job(dc.name + "-" + CommandName(command), command, NoArguments)]);
    if args.Some? {
      task := task.(jobs := task.jobs[0 := task.jobs[0].(arguments := args.value)]);
      assert task.jobs == [Job(JobName(dc.name, command), command, args.value)];
    }
    requests := [task];
    if createError.Some? {
      r := Err(createError.value);
    } else {
      r := Ok(task);
    }
  }

  /** The task record holds exactly one job, with the command, its name and the arguments given. */
  lemma {:induction false} TaskRecordShape(command: Command, dc: Datacenter, args: Option<JobArguments>, name: string)
    ensures var t := TaskRecord(command, dc, args, name);
      |t.jobs| == 1 && t.jobs[0].command == command
      && t.jobs[0].name == dc.name + "-" + CommandName(command)
      && t.datacenter == ObjectReference(dc.name, dc.namespace) && t.namespace == dc.namespace && t.name == name
      && (args.Some? ==> t.jobs[0].arguments == args.value)
      && (args.None? ==> t.jobs[0].arguments == NoArguments)
  {
  }

  /** Two tasks for the same datacenter with different commands have differently named jobs. */
  lemma {:induction false} JobNamesDistinct(dcName: string, a: Command, b: Command)
    requires a != b
    ensures JobName(dcName, a) != JobName(dcName, b)
  {
    var p := dcName + "-";
    CommandNamesDistinct(a, b);
    assert JobName(dcName, a)[|p|..] == CommandName(a);
    assert JobName(dcName, b)[|p|..] == CommandName(b);
  }

  /** `CreateRestartTask` (create.go:18-21). */
  method CreateRestartTask(dc: Datacenter, rackName: string, name: string, createError: Option<string>)
    returns (r: Result<Task>, requests: seq<Task>)
    ensures requests == [TaskRecord(Restart, dc, Some(RestartArguments(rackName)), name)]
    ensures r == (if createError.Some? then Err(createError.value) else Ok(requests[0]))
  {
    r, requests := CreateTask(Restart, dc, Some(RestartArguments(rackName)), name, createError);
  }

  /**
   * Validated arguments, then the create call: a validation error is returned before anything
   * is sent (create.go:38-45, 113-119, 160-166).
   */
  method CreateValidatedTask(command: Command, dc: Datacenter, args: Result<JobArguments>, name: string, createError: Option<string>)
    returns (r: Result<Task>, requests: seq<Task>)
    requires !args.Panic?
    ensures args.Err? ==> r == Err(args.error) && requests == []
    ensures args.Ok? ==> (requests == [TaskRecord(command, dc, Some(args.value), name)]
      && r == (if createError.Some? then Err(createError.value) else Ok(requests[0])))
  {
    if args.Err? {
      return Err(args.error), [];
    }
    r, requests := CreateTask(command, dc, Some(args.value), name, createError);
  }

  /** `CreateReplaceTask` (create.go:38-45): no pod name, no request. */
  method CreateReplaceTask(dc: Datacenter, podName: string, name: string, createError: Option<string>)
    returns (r: Result<Task>, requests: seq<Task>)
    ensures podName == "" ==> r == Err(ErrPodNameRequired) && requests == []
    ensures podName != "" ==> (requests == [TaskRecord(ReplaceNode, dc, Some(NoArguments.(podName := podName)), name)]
      && r == (if createError.Some? then Err(createError.value) else Ok(requests[0])))
  {
    r, requests := CreateValidatedTask(ReplaceNode, dc, ReplaceArguments(podName), name, createError);
  }

  /**
   * `CreateFlushTask`, `CreateCleanupTask`, `CreateUpgradeSSTablesTask`, `CreateScrubTask` and
   * `CreateGCTask` (create.go:65-68, 77-80, 89-92, 101-104, 148-151): the common arguments and
   * the command each of them names.
   */
  method CreateCommonTask(command: Command, dc: Datacenter, rackName: string, podName: string, name: string, createError: Option<string>)
    returns (r: Result<Task>, requests: seq<Task>)
    requires command in {Flush, Cleanup, UpgradeSSTables, Scrub, GarbageCollect}
    ensures requests == [TaskRecord(command, dc, Some(CommonArguments(rackName, podName)), name)]
    ensures r == (if createError.Some? then Err(createError.value) else Ok(requests[0]))
  {
    r, requests := CreateTask(command, dc, Some(CommonArguments(rackName, podName)), name, createError);
  }

  /** `CreateCompactionTask` (create.go:113-119): tables without a keyspace send nothing. */
  method CreateCompactionTask(dc: Datacenter, rackName: string, podName: string, keyspaceName: string, tables: seq<string>,
                              name: string, createError: Option<string>)
    returns (r: Result<Task>, requests: seq<Task>)
    ensures keyspaceName == "" && |tables| > 0 ==> r == Err(ErrKeyspaceRequired) && requests == []
    ensures !(keyspaceName == "" && |tables| > 0) ==>
      requests == [TaskRecord(Compaction, dc, Some(CompactionArguments(rackName, podName, keyspaceName, tables).value), name)]
      && r == (if createError.Some? then Err(createError.value) else Ok(requests[0]))
  {
    r, requests := CreateValidatedTask(Compaction, dc, CompactionArguments(rackName, podName, keyspaceName, tables), name, createError);
  }

  /** `CreateRebuildTask` (create.go:160-166): no source datacenter, no request. */
  method CreateRebuildTask(dc: Datacenter, rackName: string, podName: string, sourceDatacenter: string,
                           name: string, createError: Option<string>)
    returns (r: Result<Task>, requests: seq<Task>)
    ensures sourceDatacenter == "" ==> r == Err(ErrSourceDatacenterRequired) && requests == []
    ensures sourceDatacenter != "" ==>
      requests == [TaskRecord(Rebuild, dc, Some(JobArguments(rackName, podName, "", sourceDatacenter, None)), name)]
      && r == (if createError.Some? then Err(createError.value) else Ok(requests[0]))
  {
    r, requests := CreateValidatedTask(Rebuild, dc, RebuildArguments(rackName, podName, sourceDatacenter), name, createError);
  }

  /** The compaction cases of create_test.go:221-235: tables need a keyspace, and neither is accepted. */
  lemma {:induction false} CompactionExamples()
    ensures CompactionArguments("rack1", "pod1", "test-keyspace", ["table1", "table2"])
      == Ok(JobArguments("rack1", "pod1", "test-keyspace", "", Some(["table1", "table2"])))
    ensures CompactionArguments("rack1", "pod1", "", ["table1", "table2"]) == Err(ErrKeyspaceRequired)
    ensures CompactionArguments("rack1", "pod1", "", []) == Ok(CommonArguments("rack1", "pod1"))
  {
  }
}
