/**
 * The generated metadata of `jvm-server.options` (pkg/config/metadata/jvm_server_options.go):
 * the table from JVM flags to configuration keys, its inversion and the flag-prefix matcher.
 */
module JvmMetadata {
  import GoStrings

  /** `Metadata`: the configuration key of a flag, how its value is rendered, and its default ("" when none). */
  datatype Metadata = Metadata(key: string, builderType: string, defaultValue: string)

  /** The entries of jvm_server_options.go:9-11. */
  const Chunk1: map<string, Metadata> := map[
      "-XX:+UnlockDiagnosticVMOptions" := Metadata("unlock-diagnostic-vm-options", "boolean", "true"),
      "-Dcassandra.available_processors" := Metadata("cassandra_available_processors", "int", ""),
      "-Dcassandra.config" := Metadata("cassandra_config_directory", "string", "")
    ]

  /** The entries of jvm_server_options.go:12-14. */
  const Chunk2: map<string, Metadata> := map[
      "-Dcassandra.initial_token" := Metadata("cassandra_initial_token", "string", ""),
      "-Dcassandra.join_ring" := Metadata("cassandra_join_ring", "boolean", "true"),
      "-Dcassandra.load_ring_state" := Metadata("cassandra_load_ring_state", "boolean", "true")
    ]

  /** The entries of jvm_server_options.go:15-17. */
  const Chunk3: map<string, Metadata> := map[
      "-Dcassandra.metricsReporterConfigFile" := Metadata("cassandra_metrics_reporter_config_file", "string", ""),
      "-Dcassandra.replace_address" := Metadata("cassandra_replace_address", "string", ""),
      "-Ddse.consistent_replace" := Metadata("dse_consistent_replace", "string", "")
    ]

  /** The entries of jvm_server_options.go:18-20. */
  const Chunk4: map<string, Metadata> := map[
      "-Ddse.consistent_replace.parallelism" := Metadata("dse_consistent_replace_parallelism", "string", ""),
      "-Ddse.consistent_replace.retries" := Metadata("dse_consistent_replace_retries", "string", ""),
      "-Ddse.consistent_replace.whitelist" := Metadata("dse_consistent_replace_whitelist", "string", "")
    ]

  /** The entries of jvm_server_options.go:21-23. */
  const Chunk5: map<string, Metadata> := map[
      "-Dcassandra.replayList" := Metadata("cassandra_replay_list", "string", ""),
      "-Dcassandra.ring_delay_ms" := Metadata("cassandra_ring_delay_ms", "int", ""),
      "-Dcassandra.triggers_dir" := Metadata("cassandra_triggers_dir", "string", "")
    ]

  /** The entries of jvm_server_options.go:24-26. */
  const Chunk6: map<string, Metadata> := map[
      "-Dcassandra.write_survey" := Metadata("cassandra_write_survey", "boolean", "false"),
      "-Dcassandra.disable_auth_caches_remote_configuration" := Metadata("cassandra_disable_auth_caches_remote_configuration", "boolean", "false"),
      "-Dcassandra.force_default_indexing_page_size" := Metadata("cassandra_force_default_indexing_page_size", "boolean", "false")
    ]

  /** The entries of jvm_server_options.go:27-29. */
  const Chunk7: map<string, Metadata> := map[
      "-Dcassandra.maxHintTTL" := Metadata("cassandra_max_hint_ttl", "string", ""),
      "-XX:+UseThreadPriorities" := Metadata("use_thread_priorities", "boolean", "true"),
      "-XX:+HeapDumpOnOutOfMemoryError" := Metadata("heap_dump_on_out_of_memory_error", "boolean", "true")
    ]

  /** The entries of jvm_server_options.go:30-32. */
  const Chunk8: map<string, Metadata> := map[
      "-Xss" := Metadata("per_thread_stack_size", "string", "256k"),
      "-XX:StringTableSize" := Metadata("string_table_size", "string", "1000003"),
      "-XX:+AlwaysPreTouch" := Metadata("always_pre_touch", "boolean", "true")
    ]

  /** The entries of jvm_server_options.go:33-35. */
  const Chunk9: map<string, Metadata> := map[
      "-XX:+UseTLAB" := Metadata("use_tlb", "boolean", "true"),
      "-XX:+ResizeTLAB" := Metadata("resize_tlb", "boolean", "true"),
      "-XX:+UseNUMA" := Metadata("use_numa", "boolean", "true")
    ]

  /** The entries of jvm_server_options.go:36-38. */
  const Chunk10: map<string, Metadata> := map[
      "-XX:+PerfDisableSharedMem" := Metadata("perf_disable_shared_mem", "boolean", "true"),
      "-Djava.net.preferIPv4Stack" := Metadata("java_net_prefer_ipv4_stack", "boolean", "true"),
      "-Dsun.nio.PageAlignDirectMemory" := Metadata("page-align-direct-memory", "boolean", "true")
    ]

  /** The entries of jvm_server_options.go:39-41. */
  const Chunk11: map<string, Metadata> := map[
      "-XX:-RestrictContended" := Metadata("restrict-contended", "boolean", "true"),
      "-XX:GuaranteedSafepointInterval" := Metadata("guaranteed-safepoint-interval", "string", "300000"),
      "-XX:-UseBiasedLocking" := Metadata("use-biased-locking", "boolean", "true")
    ]

  /** The entries of jvm_server_options.go:42-44. */
  const Chunk12: map<string, Metadata> := map[
      "-XX:+DebugNonSafepoints" := Metadata("debug-non-safepoints", "boolean", "true"),
      "-XX:+PreserveFramePointer" := Metadata("preserve-frame-pointer", "boolean", "true"),
      "-XX:+UnlockCommercialFeatures" := Metadata("unlock_commercial_features", "boolean", "false")
    ]

  /** The entries of jvm_server_options.go:45-47. */
  const Chunk13: map<string, Metadata> := map[
      "-XX:+FlightRecorder" := Metadata("flight_recorder", "boolean", "false"),
      "-XX:+LogCompilation" := Metadata("log_compilation", "boolean", "false"),
      "-Xms" := Metadata("initial_heap_size", "string", "")
    ]

  /** The entries of jvm_server_options.go:48-50. */
  const Chunk14: map<string, Metadata> := map[
      "-Xmx" := Metadata("max_heap_size", "string", ""),
      "-Djdk.nio.maxCachedBufferSize" := Metadata("jdk_nio_maxcachedbuffersize", "int", "1048576"),
      "-Dcassandra.expiration_date_overflow_policy" := Metadata("cassandra_expiration_date_overflow_policy", "string", "")
    ]

  /** The entries of jvm_server_options.go:51-53. */
  const Chunk15: map<string, Metadata> := map[
      "-Dio.netty.eventLoop.maxPendingTasks" := Metadata("io_netty_eventloop_maxpendingtasks", "int", "65536"),
      "-XX:+CrashOnOutOfMemoryError" := Metadata("crash_on_out_of_memory_error", "boolean", "false"),
      "-XX:MaxDirectMemorySize" := Metadata("max_direct_memory", "string", "")
    ]

  /** The entries of jvm_server_options.go:54-55. */
  const Chunk16: map<string, Metadata> := map[
      "-Dcassandra.printHeapHistogramOnOutOfMemoryError" := Metadata("print_heap_histogram_on_out_of_memory_error", "boolean", "false"),
      "-XX:+ExitOnOutOfMemoryError" := Metadata("exit_on_out_of_memory_error", "boolean", "false")
    ]

  /** `jvm_server_options`: the parts together. */
  const Table: map<string, Metadata> :=
    Chunk1 + Chunk2 + Chunk3 + Chunk4 + Chunk5 + Chunk6 + Chunk7 + Chunk8
    + Chunk9 + Chunk10 + Chunk11 + Chunk12 + Chunk13 + Chunk14 + Chunk15 + Chunk16

  /** The first k chunks, for the proof that the keys are distinct. */
  const Upto2: map<string, Metadata> := Chunk1 + Chunk2
  const Upto3: map<string, Metadata> := Upto2 + Chunk3
  const Upto4: map<string, Metadata> := Upto3 + Chunk4
  const Upto5: map<string, Metadata> := Upto4 + Chunk5
  const Upto6: map<string, Metadata> := Upto5 + Chunk6
  const Upto7: map<string, Metadata> := Upto6 + Chunk7
  const Upto8: map<string, Metadata> := Upto7 + Chunk8
  const Upto9: map<string, Metadata> := Upto8 + Chunk9
  const Upto10: map<string, Metadata> := Upto9 + Chunk10
  const Upto11: map<string, Metadata> := Upto10 + Chunk11
  const Upto12: map<string, Metadata> := Upto11 + Chunk12
  const Upto13: map<string, Metadata> := Upto12 + Chunk13
  const Upto14: map<string, Metadata> := Upto13 + Chunk14
  const Upto15: map<string, Metadata> := Upto14 + Chunk15
  const Upto16: map<string, Metadata> := Upto15 + Chunk16

  /** No two flags of `m` share a configuration key. */
  predicate KeysDistinct(m: map<string, Metadata>)
  {
    forall f, g :: f in m && g in m && f != g ==> m[f].key != m[g].key
  }

  /** No flag of `a` has the configuration key of a flag of `b`. */
  predicate KeysApart(a: map<string, Metadata>, b: map<string, Metadata>)
  {
    forall f, g :: f in a && g in b ==> a[f].key != b[g].key
  }

  /** Joining two tables whose keys are distinct and apart keeps the keys distinct. */
  lemma {:induction false} UnionDistinct(a: map<string, Metadata>, b: map<string, Metadata>)
    requires KeysDistinct(a) && KeysDistinct(b) && KeysApart(a, b)
    ensures KeysDistinct(a + b)
  {
  }

  lemma {:induction false} UnionApart(a: map<string, Metadata>, b: map<string, Metadata>, c: map<string, Metadata>)
    requires KeysApart(a, c) && KeysApart(b, c)
    ensures KeysApart(a + b, c)
  {
  }

  lemma {:induction false} Chunk1Distinct()
    ensures KeysDistinct(Chunk1)
  {
  }

  lemma {:induction false} Chunk2Distinct()
    ensures KeysDistinct(Chunk2)
  {
  }

  lemma {:induction false} Chunk3Distinct()
    ensures KeysDistinct(Chunk3)
  {
  }

  lemma {:induction false} Chunk4Distinct()
    ensures KeysDistinct(Chunk4)
  {
  }

  lemma {:induction false} Chunk5Distinct()
    ensures KeysDistinct(Chunk5)
  {
  }

  lemma {:induction false} Chunk6Distinct()
    ensures KeysDistinct(Chunk6)
  {
  }

  lemma {:induction false} Chunk7Distinct()
    ensures KeysDistinct(Chunk7)
  {
  }

  lemma {:induction false} Chunk8Distinct()
    ensures KeysDistinct(Chunk8)
  {
  }

  lemma {:induction false} Chunk9Distinct()
    ensures KeysDistinct(Chunk9)
  {
  }

  lemma {:induction false} Chunk10Distinct()
    ensures KeysDistinct(Chunk10)
  {
  }

  lemma {:induction false} Chunk11Distinct()
    ensures KeysDistinct(Chunk11)
  {
  }

  lemma {:induction false} Chunk12Distinct()
    ensures KeysDistinct(Chunk12)
  {
  }

  lemma {:induction false} Chunk13Distinct()
    ensures KeysDistinct(Chunk13)
  {
  }

  lemma {:induction false} Chunk14Distinct()
    ensures KeysDistinct(Chunk14)
  {
  }

  lemma {:induction false} Chunk15Distinct()
    ensures KeysDistinct(Chunk15)
  {
  }

  lemma {:induction false} Chunk16Distinct()
    ensures KeysDistinct(Chunk16)
  {
  }

  lemma {:induction false} ChunksApart1_2()
    ensures KeysApart(Chunk1, Chunk2)
  {
  }

  lemma {:induction false} ChunksApart1_3()
    ensures KeysApart(Chunk1, Chunk3)
  {
  }

  lemma {:induction false} ChunksApart1_4()
    ensures KeysApart(Chunk1, Chunk4)
  {
  }

  lemma {:induction false} ChunksApart1_5()
    ensures KeysApart(Chunk1, Chunk5)
  {
  }

  lemma {:induction false} ChunksApart1_6()
    ensures KeysApart(Chunk1, Chunk6)
  {
  }

  lemma {:induction false} ChunksApart1_7()
    ensures KeysApart(Chunk1, Chunk7)
  {
  }

  lemma {:induction false} ChunksApart1_8()
    ensures KeysApart(Chunk1, Chunk8)
  {
  }

  lemma {:induction false} ChunksApart1_9()
    ensures KeysApart(Chunk1, Chunk9)
  {
  }

  lemma {:induction false} ChunksApart1_10()
    ensures KeysApart(Chunk1, Chunk10)
  {
  }

  lemma {:induction false} ChunksApart1_11()
    ensures KeysApart(Chunk1, Chunk11)
  {
  }

  lemma {:induction false} ChunksApart1_12()
    ensures KeysApart(Chunk1, Chunk12)
  {
  }

  lemma {:induction false} ChunksApart1_13()
    ensures KeysApart(Chunk1, Chunk13)
  {
  }

  lemma {:induction false} ChunksApart1_14()
    ensures KeysApart(Chunk1, Chunk14)
  {
  }

  lemma {:induction false} ChunksApart1_15()
    ensures KeysApart(Chunk1, Chunk15)
  {
  }

  lemma {:induction false} ChunksApart1_16()
    ensures KeysApart(Chunk1, Chunk16)
  {
  }

  lemma {:induction false} ChunksApart2_3()
    ensures KeysApart(Chunk2, Chunk3)
  {
  }

  lemma {:induction false} ChunksApart2_4()
    ensures KeysApart(Chunk2, Chunk4)
  {
  }

  lemma {:induction false} ChunksApart2_5()
    ensures KeysApart(Chunk2, Chunk5)
  {
  }

  lemma {:induction false} ChunksApart2_6()
    ensures KeysApart(Chunk2, Chunk6)
  {
  }

  lemma {:induction false} ChunksApart2_7()
    ensures KeysApart(Chunk2, Chunk7)
  {
  }

  lemma {:induction false} ChunksApart2_8()
    ensures KeysApart(Chunk2, Chunk8)
  {
  }

  lemma {:induction false} ChunksApart2_9()
    ensures KeysApart(Chunk2, Chunk9)
  {
  }

  lemma {:induction false} ChunksApart2_10()
    ensures KeysApart(Chunk2, Chunk10)
  {
  }

  lemma {:induction false} ChunksApart2_11()
    ensures KeysApart(Chunk2, Chunk11)
  {
  }

  lemma {:induction false} ChunksApart2_12()
    ensures KeysApart(Chunk2, Chunk12)
  {
  }

  lemma {:induction false} ChunksApart2_13()
    ensures KeysApart(Chunk2, Chunk13)
  {
  }

  lemma {:induction false} ChunksApart2_14()
    ensures KeysApart(Chunk2, Chunk14)
  {
  }

  lemma {:induction false} ChunksApart2_15()
    ensures KeysApart(Chunk2, Chunk15)
  {
  }

  lemma {:induction false} ChunksApart2_16()
    ensures KeysApart(Chunk2, Chunk16)
  {
  }

  lemma {:induction false} ChunksApart3_4()
    ensures KeysApart(Chunk3, Chunk4)
  {
  }

  lemma {:induction false} ChunksApart3_5()
    ensures KeysApart(Chunk3, Chunk5)
  {
  }

  lemma {:induction false} ChunksApart3_6()
    ensures KeysApart(Chunk3, Chunk6)
  {
  }

  lemma {:induction false} ChunksApart3_7()
    ensures KeysApart(Chunk3, Chunk7)
  {
  }

  lemma {:induction false} ChunksApart3_8()
    ensures KeysApart(Chunk3, Chunk8)
  {
  }

  lemma {:induction false} ChunksApart3_9()
    ensures KeysApart(Chunk3, Chunk9)
  {
  }

  lemma {:induction false} ChunksApart3_10()
    ensures KeysApart(Chunk3, Chunk10)
  {
  }

  lemma {:induction false} ChunksApart3_11()
    ensures KeysApart(Chunk3, Chunk11)
  {
  }

  lemma {:induction false} ChunksApart3_12()
    ensures KeysApart(Chunk3, Chunk12)
  {
  }

  lemma {:induction false} ChunksApart3_13()
    ensures KeysApart(Chunk3, Chunk13)
  {
  }

  lemma {:induction false} ChunksApart3_14()
    ensures KeysApart(Chunk3, Chunk14)
  {
  }

  lemma {:induction false} ChunksApart3_15()
    ensures KeysApart(Chunk3, Chunk15)
  {
  }

  lemma {:induction false} ChunksApart3_16()
    ensures KeysApart(Chunk3, Chunk16)
  {
  }

  lemma {:induction false} ChunksApart4_5()
    ensures KeysApart(Chunk4, Chunk5)
  {
  }

  lemma {:induction false} ChunksApart4_6()
    ensures KeysApart(Chunk4, Chunk6)
  {
  }

  lemma {:induction false} ChunksApart4_7()
    ensures KeysApart(Chunk4, Chunk7)
  {
  }

  lemma {:induction false} ChunksApart4_8()
    ensures KeysApart(Chunk4, Chunk8)
  {
  }

  lemma {:induction false} ChunksApart4_9()
    ensures KeysApart(Chunk4, Chunk9)
  {
  }

  lemma {:induction false} ChunksApart4_10()
    ensures KeysApart(Chunk4, Chunk10)
  {
  }

  lemma {:induction false} ChunksApart4_11()
    ensures KeysApart(Chunk4, Chunk11)
  {
  }

  lemma {:induction false} ChunksApart4_12()
    ensures KeysApart(Chunk4, Chunk12)
  {
  }

  lemma {:induction false} ChunksApart4_13()
    ensures KeysApart(Chunk4, Chunk13)
  {
  }

  lemma {:induction false} ChunksApart4_14()
    ensures KeysApart(Chunk4, Chunk14)
  {
  }

  lemma {:induction false} ChunksApart4_15()
    ensures KeysApart(Chunk4, Chunk15)
  {
  }

  lemma {:induction false} ChunksApart4_16()
    ensures KeysApart(Chunk4, Chunk16)
  {
  }

  lemma {:induction false} ChunksApart5_6()
    ensures KeysApart(Chunk5, Chunk6)
  {
  }

  lemma {:induction false} ChunksApart5_7()
    ensures KeysApart(Chunk5, Chunk7)
  {
  }

  lemma {:induction false} ChunksApart5_8()
    ensures KeysApart(Chunk5, Chunk8)
  {
  }

  lemma {:induction false} ChunksApart5_9()
    ensures KeysApart(Chunk5, Chunk9)
  {
  }

  lemma {:induction false} ChunksApart5_10()
    ensures KeysApart(Chunk5, Chunk10)
  {
  }

  lemma {:induction false} ChunksApart5_11()
    ensures KeysApart(Chunk5, Chunk11)
  {
  }

  lemma {:induction false} ChunksApart5_12()
    ensures KeysApart(Chunk5, Chunk12)
  {
  }

  lemma {:induction false} ChunksApart5_13()
    ensures KeysApart(Chunk5, Chunk13)
  {
  }

  lemma {:induction false} ChunksApart5_14()
    ensures KeysApart(Chunk5, Chunk14)
  {
  }

  lemma {:induction false} ChunksApart5_15()
    ensures KeysApart(Chunk5, Chunk15)
  {
  }

  lemma {:induction false} ChunksApart5_16()
    ensures KeysApart(Chunk5, Chunk16)
  {
  }

  lemma {:induction false} ChunksApart6_7()
    ensures KeysApart(Chunk6, Chunk7)
  {
  }

  lemma {:induction false} ChunksApart6_8()
    ensures KeysApart(Chunk6, Chunk8)
  {
  }

  lemma {:induction false} ChunksApart6_9()
    ensures KeysApart(Chunk6, Chunk9)
  {
  }

  lemma {:induction false} ChunksApart6_10()
    ensures KeysApart(Chunk6, Chunk10)
  {
  }

  lemma {:induction false} ChunksApart6_11()
    ensures KeysApart(Chunk6, Chunk11)
  {
  }

  lemma {:induction false} ChunksApart6_12()
    ensures KeysApart(Chunk6, Chunk12)
  {
  }

  lemma {:induction false} ChunksApart6_13()
    ensures KeysApart(Chunk6, Chunk13)
  {
  }

  lemma {:induction false} ChunksApart6_14()
    ensures KeysApart(Chunk6, Chunk14)
  {
  }

  lemma {:induction false} ChunksApart6_15()
    ensures KeysApart(Chunk6, Chunk15)
  {
  }

  lemma {:induction false} ChunksApart6_16()
    ensures KeysApart(Chunk6, Chunk16)
  {
  }

  lemma {:induction false} ChunksApart7_8()
    ensures KeysApart(Chunk7, Chunk8)
  {
  }

  lemma {:induction false} ChunksApart7_9()
    ensures KeysApart(Chunk7, Chunk9)
  {
  }

  lemma {:induction false} ChunksApart7_10()
    ensures KeysApart(Chunk7, Chunk10)
  {
  }

  lemma {:induction false} ChunksApart7_11()
    ensures KeysApart(Chunk7, Chunk11)
  {
  }

  lemma {:induction false} ChunksApart7_12()
    ensures KeysApart(Chunk7, Chunk12)
  {
  }

  lemma {:induction false} ChunksApart7_13()
    ensures KeysApart(Chunk7, Chunk13)
  {
  }

  lemma {:induction false} ChunksApart7_14()
    ensures KeysApart(Chunk7, Chunk14)
  {
  }

  lemma {:induction false} ChunksApart7_15()
    ensures KeysApart(Chunk7, Chunk15)
  {
  }

  lemma {:induction false} ChunksApart7_16()
    ensures KeysApart(Chunk7, Chunk16)
  {
  }

  lemma {:induction false} ChunksApart8_9()
    ensures KeysApart(Chunk8, Chunk9)
  {
  }

  lemma {:induction false} ChunksApart8_10()
    ensures KeysApart(Chunk8, Chunk10)
  {
  }

  lemma {:induction false} ChunksApart8_11()
    ensures KeysApart(Chunk8, Chunk11)
  {
  }

  lemma {:induction false} ChunksApart8_12()
    ensures KeysApart(Chunk8, Chunk12)
  {
  }

  lemma {:induction false} ChunksApart8_13()
    ensures KeysApart(Chunk8, Chunk13)
  {
  }

  lemma {:induction false} ChunksApart8_14()
    ensures KeysApart(Chunk8, Chunk14)
  {
  }

  lemma {:induction false} ChunksApart8_15()
    ensures KeysApart(Chunk8, Chunk15)
  {
  }

  lemma {:induction false} ChunksApart8_16()
    ensures KeysApart(Chunk8, Chunk16)
  {
  }

  lemma {:induction false} ChunksApart9_10()
    ensures KeysApart(Chunk9, Chunk10)
  {
  }

  lemma {:induction false} ChunksApart9_11()
    ensures KeysApart(Chunk9, Chunk11)
  {
  }

  lemma {:induction false} ChunksApart9_12()
    ensures KeysApart(Chunk9, Chunk12)
  {
  }

  lemma {:induction false} ChunksApart9_13()
    ensures KeysApart(Chunk9, Chunk13)
  {
  }

  lemma {:induction false} ChunksApart9_14()
    ensures KeysApart(Chunk9, Chunk14)
  {
  }

  lemma {:induction false} ChunksApart9_15()
    ensures KeysApart(Chunk9, Chunk15)
  {
  }

  lemma {:induction false} ChunksApart9_16()
    ensures KeysApart(Chunk9, Chunk16)
  {
  }

  lemma {:induction false} ChunksApart10_11()
    ensures KeysApart(Chunk10, Chunk11)
  {
  }

  lemma {:induction false} ChunksApart10_12()
    ensures KeysApart(Chunk10, Chunk12)
  {
  }

  lemma {:induction false} ChunksApart10_13()
    ensures KeysApart(Chunk10, Chunk13)
  {
  }

  lemma {:induction false} ChunksApart10_14()
    ensures KeysApart(Chunk10, Chunk14)
  {
  }

  lemma {:induction false} ChunksApart10_15()
    ensures KeysApart(Chunk10, Chunk15)
  {
  }

  lemma {:induction false} ChunksApart10_16()
    ensures KeysApart(Chunk10, Chunk16)
  {
  }

  lemma {:induction false} ChunksApart11_12()
    ensures KeysApart(Chunk11, Chunk12)
  {
  }

  lemma {:induction false} ChunksApart11_13()
    ensures KeysApart(Chunk11, Chunk13)
  {
  }

  lemma {:induction false} ChunksApart11_14()
    ensures KeysApart(Chunk11, Chunk14)
  {
  }

  lemma {:induction false} ChunksApart11_15()
    ensures KeysApart(Chunk11, Chunk15)
  {
  }

  lemma {:induction false} ChunksApart11_16()
    ensures KeysApart(Chunk11, Chunk16)
  {
  }

  lemma {:induction false} ChunksApart12_13()
    ensures KeysApart(Chunk12, Chunk13)
  {
  }

  lemma {:induction false} ChunksApart12_14()
    ensures KeysApart(Chunk12, Chunk14)
  {
  }

  lemma {:induction false} ChunksApart12_15()
    ensures KeysApart(Chunk12, Chunk15)
  {
  }

  lemma {:induction false} ChunksApart12_16()
    ensures KeysApart(Chunk12, Chunk16)
  {
  }

  lemma {:induction false} ChunksApart13_14()
    ensures KeysApart(Chunk13, Chunk14)
  {
  }

  lemma {:induction false} ChunksApart13_15()
    ensures KeysApart(Chunk13, Chunk15)
  {
  }

  lemma {:induction false} ChunksApart13_16()
    ensures KeysApart(Chunk13, Chunk16)
  {
  }

  lemma {:induction false} ChunksApart14_15()
    ensures KeysApart(Chunk14, Chunk15)
  {
  }

  lemma {:induction false} ChunksApart14_16()
    ensures KeysApart(Chunk14, Chunk16)
  {
  }

  lemma {:induction false} ChunksApart15_16()
    ensures KeysApart(Chunk15, Chunk16)
  {
  }

  /** The chunks before chunk 2 have no key of chunk 2. */
  lemma {:induction false} BeforeApart2()
    ensures KeysApart(Chunk1, Chunk2)
  {
    ChunksApart1_2();
  }

  /** The chunks before chunk 3 have no key of chunk 3. */
  lemma {:induction false} BeforeApart3()
    ensures KeysApart(Upto2, Chunk3)
  {
    ChunksApart1_3();
    ChunksApart2_3();
    UnionApart(Chunk1, Chunk2, Chunk3);
  }

  /** The chunks before chunk 4 have no key of chunk 4. */
  lemma {:induction false} BeforeApart4()
    ensures KeysApart(Upto3, Chunk4)
  {
    ChunksApart1_4();
    ChunksApart2_4();
    UnionApart(Chunk1, Chunk2, Chunk4);
    ChunksApart3_4();
    UnionApart(Upto2, Chunk3, Chunk4);
  }

  /** The chunks before chunk 5 have no key of chunk 5. */
  lemma {:induction false} BeforeApart5()
    ensures KeysApart(Upto4, Chunk5)
  {
    ChunksApart1_5();
    ChunksApart2_5();
    UnionApart(Chunk1, Chunk2, Chunk5);
    ChunksApart3_5();
    UnionApart(Upto2, Chunk3, Chunk5);
    ChunksApart4_5();
    UnionApart(Upto3, Chunk4, Chunk5);
  }

  /** The chunks before chunk 6 have no key of chunk 6. */
  lemma {:induction false} BeforeApart6()
    ensures KeysApart(Upto5, Chunk6)
  {
    ChunksApart1_6();
    ChunksApart2_6();
    UnionApart(Chunk1, Chunk2, Chunk6);
    ChunksApart3_6();
    UnionApart(Upto2, Chunk3, Chunk6);
    ChunksApart4_6();
    UnionApart(Upto3, Chunk4, Chunk6);
    ChunksApart5_6();
    UnionApart(Upto4, Chunk5, Chunk6);
  }

  /** The chunks before chunk 7 have no key of chunk 7. */
  lemma {:induction false} BeforeApart7()
    ensures KeysApart(Upto6, Chunk7)
  {
    ChunksApart1_7();
    ChunksApart2_7();
    UnionApart(Chunk1, Chunk2, Chunk7);
    ChunksApart3_7();
    UnionApart(Upto2, Chunk3, Chunk7);
    ChunksApart4_7();
    UnionApart(Upto3, Chunk4, Chunk7);
    ChunksApart5_7();
    UnionApart(Upto4, Chunk5, Chunk7);
    ChunksApart6_7();
    UnionApart(Upto5, Chunk6, Chunk7);
  }

  /** The chunks before chunk 8 have no key of chunk 8. */
  lemma {:induction false} BeforeApart8()
    ensures KeysApart(Upto7, Chunk8)
  {
    ChunksApart1_8();
    ChunksApart2_8();
    UnionApart(Chunk1, Chunk2, Chunk8);
    ChunksApart3_8();
    UnionApart(Upto2, Chunk3, Chunk8);
    ChunksApart4_8();
    UnionApart(Upto3, Chunk4, Chunk8);
    ChunksApart5_8();
    UnionApart(Upto4, Chunk5, Chunk8);
    ChunksApart6_8();
    UnionApart(Upto5, Chunk6, Chunk8);
    ChunksApart7_8();
    UnionApart(Upto6, Chunk7, Chunk8);
  }

  /** The chunks before chunk 9 have no key of chunk 9. */
  lemma {:induction false} BeforeApart9()
    ensures KeysApart(Upto8, Chunk9)
  {
    ChunksApart1_9();
    ChunksApart2_9();
    UnionApart(Chunk1, Chunk2, Chunk9);
    ChunksApart3_9();
    UnionApart(Upto2, Chunk3, Chunk9);
    ChunksApart4_9();
    UnionApart(Upto3, Chunk4, Chunk9);
    ChunksApart5_9();
    UnionApart(Upto4, Chunk5, Chunk9);
    ChunksApart6_9();
    UnionApart(Upto5, Chunk6, Chunk9);
    ChunksApart7_9();
    UnionApart(Upto6, Chunk7, Chunk9);
    ChunksApart8_9();
    UnionApart(Upto7, Chunk8, Chunk9);
  }

  /** The chunks before chunk 10 have no key of chunk 10. */
  lemma {:induction false} BeforeApart10()
    ensures KeysApart(Upto9, Chunk10)
  {
    ChunksApart1_10();
    ChunksApart2_10();
    UnionApart(Chunk1, Chunk2, Chunk10);
    ChunksApart3_10();
    UnionApart(Upto2, Chunk3, Chunk10);
    ChunksApart4_10();
    UnionApart(Upto3, Chunk4, Chunk10);
    ChunksApart5_10();
    UnionApart(Upto4, Chunk5, Chunk10);
    ChunksApart6_10();
    UnionApart(Upto5, Chunk6, Chunk10);
    ChunksApart7_10();
    UnionApart(Upto6, Chunk7, Chunk10);
    ChunksApart8_10();
    UnionApart(Upto7, Chunk8, Chunk10);
    ChunksApart9_10();
    UnionApart(Upto8, Chunk9, Chunk10);
  }

  /** The chunks before chunk 11 have no key of chunk 11. */
  lemma {:induction false} BeforeApart11()
    ensures KeysApart(Upto10, Chunk11)
  {
    ChunksApart1_11();
    ChunksApart2_11();
    UnionApart(Chunk1, Chunk2, Chunk11);
    ChunksApart3_11();
    UnionApart(Upto2, Chunk3, Chunk11);
    ChunksApart4_11();
    UnionApart(Upto3, Chunk4, Chunk11);
    ChunksApart5_11();
    UnionApart(Upto4, Chunk5, Chunk11);
    ChunksApart6_11();
    UnionApart(Upto5, Chunk6, Chunk11);
    ChunksApart7_11();
    UnionApart(Upto6, Chunk7, Chunk11);
    ChunksApart8_11();
    UnionApart(Upto7, Chunk8, Chunk11);
    ChunksApart9_11();
    UnionApart(Upto8, Chunk9, Chunk11);
    ChunksApart10_11();
    UnionApart(Upto9, Chunk10, Chunk11);
  }

  /** The chunks before chunk 12 have no key of chunk 12. */
  lemma {:induction false} BeforeApart12()
    ensures KeysApart(Upto11, Chunk12)
  {
    ChunksApart1_12();
    ChunksApart2_12();
    UnionApart(Chunk1, Chunk2, Chunk12);
    ChunksApart3_12();
    UnionApart(Upto2, Chunk3, Chunk12);
    ChunksApart4_12();
    UnionApart(Upto3, Chunk4, Chunk12);
    ChunksApart5_12();
    UnionApart(Upto4, Chunk5, Chunk12);
    ChunksApart6_12();
    UnionApart(Upto5, Chunk6, Chunk12);
    ChunksApart7_12();
    UnionApart(Upto6, Chunk7, Chunk12);
    ChunksApart8_12();
    UnionApart(Upto7, Chunk8, Chunk12);
    ChunksApart9_12();
    UnionApart(Upto8, Chunk9, Chunk12);
    ChunksApart10_12();
    UnionApart(Upto9, Chunk10, Chunk12);
    ChunksApart11_12();
    UnionApart(Upto10, Chunk11, Chunk12);
  }

  /** The chunks before chunk 13 have no key of chunk 13. */
  lemma {:induction false} BeforeApart13()
    ensures KeysApart(Upto12, Chunk13)
  {
    ChunksApart1_13();
    ChunksApart2_13();
    UnionApart(Chunk1, Chunk2, Chunk13);
    ChunksApart3_13();
    UnionApart(Upto2, Chunk3, Chunk13);
    ChunksApart4_13();
    UnionApart(Upto3, Chunk4, Chunk13);
    ChunksApart5_13();
    UnionApart(Upto4, Chunk5, Chunk13);
    ChunksApart6_13();
    UnionApart(Upto5, Chunk6, Chunk13);
    ChunksApart7_13();
    UnionApart(Upto6, Chunk7, Chunk13);
    ChunksApart8_13();
    UnionApart(Upto7, Chunk8, Chunk13);
    ChunksApart9_13();
    UnionApart(Upto8, Chunk9, Chunk13);
    ChunksApart10_13();
    UnionApart(Upto9, Chunk10, Chunk13);
    ChunksApart11_13();
    UnionApart(Upto10, Chunk11, Chunk13);
    ChunksApart12_13();
    UnionApart(Upto11, Chunk12, Chunk13);
  }

  /** The chunks before chunk 14 have no key of chunk 14. */
  lemma {:induction false} BeforeApart14()
    ensures KeysApart(Upto13, Chunk14)
  {
    ChunksApart1_14();
    ChunksApart2_14();
    UnionApart(Chunk1, Chunk2, Chunk14);
    ChunksApart3_14();
    UnionApart(Upto2, Chunk3, Chunk14);
    ChunksApart4_14();
    UnionApart(Upto3, Chunk4, Chunk14);
    ChunksApart5_14();
    UnionApart(Upto4, Chunk5, Chunk14);
    ChunksApart6_14();
    UnionApart(Upto5, Chunk6, Chunk14);
    ChunksApart7_14();
    UnionApart(Upto6, Chunk7, Chunk14);
    ChunksApart8_14();
    UnionApart(Upto7, Chunk8, Chunk14);
    ChunksApart9_14();
    UnionApart(Upto8, Chunk9, Chunk14);
    ChunksApart10_14();
    UnionApart(Upto9, Chunk10, Chunk14);
    ChunksApart11_14();
    UnionApart(Upto10, Chunk11, Chunk14);
    ChunksApart12_14();
    UnionApart(Upto11, Chunk12, Chunk14);
    ChunksApart13_14();
    UnionApart(Upto12, Chunk13, Chunk14);
  }

  /** The chunks before chunk 15 have no key of chunk 15. */
  lemma {:induction false} BeforeApart15()
    ensures KeysApart(Upto14, Chunk15)
  {
    ChunksApart1_15();
    ChunksApart2_15();
    UnionApart(Chunk1, Chunk2, Chunk15);
    ChunksApart3_15();
    UnionApart(Upto2, Chunk3, Chunk15);
    ChunksApart4_15();
    UnionApart(Upto3, Chunk4, Chunk15);
    ChunksApart5_15();
    UnionApart(Upto4, Chunk5, Chunk15);
    ChunksApart6_15();
    UnionApart(Upto5, Chunk6, Chunk15);
    ChunksApart7_15();
    UnionApart(Upto6, Chunk7, Chunk15);
    ChunksApart8_15();
    UnionApart(Upto7, Chunk8, Chunk15);
    ChunksApart9_15();
    UnionApart(Upto8, Chunk9, Chunk15);
    ChunksApart10_15();
    UnionApart(Upto9, Chunk10, Chunk15);
    ChunksApart11_15();
    UnionApart(Upto10, Chunk11, Chunk15);
    ChunksApart12_15();
    UnionApart(Upto11, Chunk12, Chunk15);
    ChunksApart13_15();
    UnionApart(Upto12, Chunk13, Chunk15);
    ChunksApart14_15();
    UnionApart(Upto13, Chunk14, Chunk15);
  }

  /** The chunks before chunk 16 have no key of chunk 16. */
  lemma {:induction false} BeforeApart16()
    ensures KeysApart(Upto15, Chunk16)
  {
    ChunksApart1_16();
    ChunksApart2_16();
    UnionApart(Chunk1, Chunk2, Chunk16);
    ChunksApart3_16();
    UnionApart(Upto2, Chunk3, Chunk16);
    ChunksApart4_16();
    UnionApart(Upto3, Chunk4, Chunk16);
    ChunksApart5_16();
    UnionApart(Upto4, Chunk5, Chunk16);
    ChunksApart6_16();
    UnionApart(Upto5, Chunk6, Chunk16);
    ChunksApart7_16();
    UnionApart(Upto6, Chunk7, Chunk16);
    ChunksApart8_16();
    UnionApart(Upto7, Chunk8, Chunk16);
    ChunksApart9_16();
    UnionApart(Upto8, Chunk9, Chunk16);
    ChunksApart10_16();
    UnionApart(Upto9, Chunk10, Chunk16);
    ChunksApart11_16();
    UnionApart(Upto10, Chunk11, Chunk16);
    ChunksApart12_16();
    UnionApart(Upto11, Chunk12, Chunk16);
    ChunksApart13_16();
    UnionApart(Upto12, Chunk13, Chunk16);
    ChunksApart14_16();
    UnionApart(Upto13, Chunk14, Chunk16);
    ChunksApart15_16();
    UnionApart(Upto14, Chunk15, Chunk16);
  }

  /** The first 2 chunks have distinct keys. */
  lemma {:induction false} Prefix2Distinct()
    ensures KeysDistinct(Upto2)
  {
    Chunk1Distinct();
    Chunk2Distinct();
    BeforeApart2();
    UnionDistinct(Chunk1, Chunk2);
  }

  /** The first 3 chunks have distinct keys. */
  lemma {:induction false} Prefix3Distinct()
    ensures KeysDistinct(Upto3)
  {
    Prefix2Distinct();
    Chunk3Distinct();
    BeforeApart3();
    UnionDistinct(Upto2, Chunk3);
  }

  /** The first 4 chunks have distinct keys. */
  lemma {:induction false} Prefix4Distinct()
    ensures KeysDistinct(Upto4)
  {
    Prefix3Distinct();
    Chunk4Distinct();
    BeforeApart4();
    UnionDistinct(Upto3, Chunk4);
  }

  /** The first 5 chunks have distinct keys. */
  lemma {:induction false} Prefix5Distinct()
    ensures KeysDistinct(Upto5)
  {
    Prefix4Distinct();
    Chunk5Distinct();
    BeforeApart5();
    UnionDistinct(Upto4, Chunk5);
  }

  /** The first 6 chunks have distinct keys. */
  lemma {:induction false} Prefix6Distinct()
    ensures KeysDistinct(Upto6)
  {
    Prefix5Distinct();
    Chunk6Distinct();
    BeforeApart6();
    UnionDistinct(Upto5, Chunk6);
  }

  /** The first 7 chunks have distinct keys. */
  lemma {:induction false} Prefix7Distinct()
    ensures KeysDistinct(Upto7)
  {
    Prefix6Distinct();
    Chunk7Distinct();
    BeforeApart7();
    UnionDistinct(Upto6, Chunk7);
  }

  /** The first 8 chunks have distinct keys. */
  lemma {:induction false} Prefix8Distinct()
    ensures KeysDistinct(Upto8)
  {
    Prefix7Distinct();
    Chunk8Distinct();
    BeforeApart8();
    UnionDistinct(Upto7, Chunk8);
  }

  /** The first 9 chunks have distinct keys. */
  lemma {:induction false} Prefix9Distinct()
    ensures KeysDistinct(Upto9)
  {
    Prefix8Distinct();
    Chunk9Distinct();
    BeforeApart9();
    UnionDistinct(Upto8, Chunk9);
  }

  /** The first 10 chunks have distinct keys. */
  lemma {:induction false} Prefix10Distinct()
    ensures KeysDistinct(Upto10)
  {
    Prefix9Distinct();
    Chunk10Distinct();
    BeforeApart10();
    UnionDistinct(Upto9, Chunk10);
  }

  /** The first 11 chunks have distinct keys. */
  lemma {:induction false} Prefix11Distinct()
    ensures KeysDistinct(Upto11)
  {
    Prefix10Distinct();
    Chunk11Distinct();
    BeforeApart11();
    UnionDistinct(Upto10, Chunk11);
  }

  /** The first 12 chunks have distinct keys. */
  lemma {:induction false} Prefix12Distinct()
    ensures KeysDistinct(Upto12)
  {
    Prefix11Distinct();
    Chunk12Distinct();
    BeforeApart12();
    UnionDistinct(Upto11, Chunk12);
  }

  /** The first 13 chunks have distinct keys. */
  lemma {:induction false} Prefix13Distinct()
    ensures KeysDistinct(Upto13)
  {
    Prefix12Distinct();
    Chunk13Distinct();
    BeforeApart13();
    UnionDistinct(Upto12, Chunk13);
  }

  /** The first 14 chunks have distinct keys. */
  lemma {:induction false} Prefix14Distinct()
    ensures KeysDistinct(Upto14)
  {
    Prefix13Distinct();
    Chunk14Distinct();
    BeforeApart14();
    UnionDistinct(Upto13, Chunk14);
  }

  /** The first 15 chunks have distinct keys. */
  lemma {:induction false} Prefix15Distinct()
    ensures KeysDistinct(Upto15)
  {
    Prefix14Distinct();
    Chunk15Distinct();
    BeforeApart15();
    UnionDistinct(Upto14, Chunk15);
  }

  /** Every flag of the table has its own configuration key. */
  lemma {:induction false} TableKeysDistinct()
    ensures KeysDistinct(Table)
  {
    Prefix15Distinct();
    Chunk16Distinct();
    BeforeApart16();
    UnionDistinct(Upto15, Chunk16);
  }

  /**
   * `ServerOptions` (jvm_server_options.go:66-73): the table inverted, from configuration key to
   * flag. Go visits the table in no fixed order; since the keys are distinct the result does not
   * depend on it.
   */
  method ServerOptions() returns (m: map<string, string>)
    ensures forall f :: f in Table ==> Table[f].key in m && m[Table[f].key] == f
    ensures forall k :: k in m ==> m[k] in Table && Table[m[k]].key == k
    ensures |m| == |Table|
  {
    TableKeysDistinct();
    m := Invert(Table);
  }

  /** `m` inverts the part `done` of `t`. */
  predicate InvertsPart(t: map<string, Metadata>, m: map<string, string>, done: set<string>)
  {
    done <= t.Keys
    && (forall f :: f in done ==> t[f].key in m && m[t[f].key] == f)
    && (forall k :: k in m ==> m[k] in done && t[m[k]].key == k)
    && |m| == |done|
  }

  lemma {:induction false} InvertStep(t: map<string, Metadata>, m: map<string, string>, done: set<string>, f: string)
    requires KeysDistinct(t) && InvertsPart(t, m, done) && f in t && f !in done
    ensures InvertsPart(t, m[t[f].key := f], done + {f})
  {
    var k := t[f].key;
    InvertFresh(t, m, done, f);
    assert |m[k := f]| == |m| + 1;
    StepCovers(t, m, done, f, k);
    StepSound(t, m, done, f, k, m[k := f]);
  }

  lemma {:induction false} StepCovers(t: map<string, Metadata>, m: map<string, string>, done: set<string>, f: string, k: string)
    requires f in t && k == t[f].key && done <= t.Keys
    requires forall g :: g in done ==> t[g].key in m && m[t[g].key] == g
    requires k !in m
    ensures forall g :: g in done + {f} ==> t[g].key in m[k := f] && m[k := f][t[g].key] == g
  {
  }

  lemma {:induction false} StepSound(t: map<string, Metadata>, m: map<string, string>, done: set<string>, f: string, k: string, m': map<string, string>)
    requires f in t && k == t[f].key && done <= t.Keys && m' == m[k := f]
    requires forall j :: j in m ==> m[j] in done && t[m[j]].key == j
    ensures forall j :: j in m' ==> m'[j] in done + {f} && t[m'[j]].key == j
  {
  }

  lemma {:induction false} InvertFresh(t: map<string, Metadata>, m: map<string, string>, done: set<string>, f: string)
    requires KeysDistinct(t) && InvertsPart(t, m, done) && f in t && f !in done
    ensures t[f].key !in m
  {
    assert forall k :: k in m ==> m[k] != f;
  }

  /** The loop of `ServerOptions` over any table whose keys are distinct. */
  method Invert(t: map<string, Metadata>) returns (m: map<string, string>)
    requires KeysDistinct(t)
    ensures forall f :: f in t ==> t[f].key in m && m[t[f].key] == f
    ensures forall k :: k in m ==> m[k] in t && t[m[k]].key == k
    ensures |m| == |t|
  {
    m := map[];
    var rest := t.Keys;
    ghost var done: set<string> := {};
    while rest != {}
      invariant rest <= t.Keys && done <= t.Keys && (forall g :: g in t ==> (g in done <==> g !in rest))
      invariant InvertsPart(t, m, done)
      decreases |rest|
    {
      var f :| f in rest;
      m := InvertOne(t, m, done, f);
      done := done + {f};
      rest := rest - {f};
    }
    assert done == t.Keys;
    InvertsWhole(t, m, done);
  }

  /** One iteration of the loop: the flag `f` is filed under its key. */
  method InvertOne(t: map<string, Metadata>, m: map<string, string>, ghost done: set<string>, f: string)
    returns (m': map<string, string>)
    requires KeysDistinct(t) && InvertsPart(t, m, done) && f in t && f !in done
    ensures m' == m[t[f].key := f] && InvertsPart(t, m', done + {f})
  {
    InvertStep(t, m, done, f);
    m' := m[t[f].key := f];
  }

  /** Once every flag is done the map inverts the whole table. */
  lemma {:induction false} InvertsWhole(t: map<string, Metadata>, m: map<string, string>, done: set<string>)
    requires InvertsPart(t, m, done) && done == t.Keys
    ensures forall f :: f in t ==> t[f].key in m && m[t[f].key] == f
    ensures forall k :: k in m ==> m[k] in t && t[m[k]].key == k
    ensures |m| == |t|
  {
    assert |t| == |t.Keys|;
  }

  /** The alternatives of `jvm_server_optionsPrefixExp` (jvm_server_options.go:59), in order. */
  const Prefixes: seq<string> := ["-Xss", "-Xms", "-Xmx"]

  /**
   * `PrefixParser` (jvm_server_options.go:75-85): whether the input starts with one of the
   * prefixes, and which; the leftmost alternative wins, though at most one can match.
   */
  function PrefixParser(input: string): (r: (bool, string))
    ensures r.0 <==> GoStrings.HasPrefix(input, "-Xss") || GoStrings.HasPrefix(input, "-Xms") || GoStrings.HasPrefix(input, "-Xmx")
    ensures r.0 ==> r.1 in Prefixes && GoStrings.HasPrefix(input, r.1)
    ensures !r.0 ==> r.1 == ""
  {
    if GoStrings.HasPrefix(input, "-Xss") then (true, "-Xss")
    else if GoStrings.HasPrefix(input, "-Xms") then (true, "-Xms")
    else if GoStrings.HasPrefix(input, "-Xmx") then (true, "-Xmx")
    else (false, "")
  }

  /** The key `PrefixParser` returns is the input's first four characters. */
  lemma {:induction false} PrefixParserKey(input: string)
    requires PrefixParser(input).0
    ensures |input| >= 4 && PrefixParser(input).1 == input[..4]
  {
  }
}
