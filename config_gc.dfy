/**
 * The garbage-collector side of the JVM server-options synthesis: the flags each supported
 * collector needs on a given JVM major version, the flags that reveal a collector inside
 * additional JVM options, and the JVM major version named by an options file name.
 */
module ConfigGc {
  import opened Wrappers
  import opened GoStrings
  import opened Json
  import opened Seqs

  /** The panic of a failed `.(string)` type assertion. */
  const NotAString := "interface conversion: interface {} is not string"

  const G1GC := "G1GC"
  const CMS := "CMS"
  const Shenandoah := "Shenandoah"
  const ZGC := "ZGC"

  /** The collectors the builder knows, in the order their flags are collected. */
  const SupportedGCs: seq<string> := [G1GC, CMS, Shenandoah, ZGC]

  /** The G1 tuning used below JVM 17 (pkg/config/types.go:70-78). */
  const DefaultG1Settings: seq<string> := [
    "-XX:+UseG1GC",
    "-XX:+ParallelRefProcEnabled",
    "-XX:MaxTenuringThreshold=1",
    "-XX:G1HeapRegionSize=16m",
    "-XX:G1RSetUpdatingPauseTimePercent=5",
    "-XX:MaxGCPauseMillis=300",
    "-XX:InitiatingHeapOccupancyPercent=70"
  ]

  /** The CMS tuning used below JVM 17 (pkg/config/types.go:80-91). */
  const DefaultCMSSettings: seq<string> := [
    "-XX:+UseConcMarkSweepGC",
    "-XX:+CMSParallelRemarkEnabled",
    "-XX:SurvivorRatio=8",
    "-XX:MaxTenuringThreshold=1",
    "-XX:CMSInitiatingOccupancyFraction=75",
    "-XX:+UseCMSInitiatingOccupancyOnly",
    "-XX:CMSWaitDuration=10000",
    "-XX:+CMSParallelInitialMarkEnabled",
    "-XX:+CMSEdenChunksRecordAlways",
    "-XX:+CMSClassUnloadingEnabled"
  ]

  const UnlockExperimental := "-XX:+UnlockExperimentalVMOptions"

  /** The flags that select a collector, each mapped to the collector it selects. */
  const GcOptionMapping: map<string, string> := map[
    "-XX:+UseG1GC" := G1GC,
    "-XX:+UseConcMarkSweepGC" := CMS,
    "-XX:+UseCMS" := CMS,
    "-XX:+UseShenandoahGC" := Shenandoah,
    "-XX:+UseZGC" := ZGC
  ]

  /** The lines that configure collector `gcName` on JVM major version `jvmMajor`. */
  function GetGCOptions(gcName: string, jvmMajor: int): (r: seq<string>)
    ensures gcName !in SupportedGCs ==> r == []
    ensures jvmMajor >= 17 ==> UnlockExperimental !in r && |r| <= 1
  {
    if gcName == G1GC then (if jvmMajor < 17 then DefaultG1Settings else ["-XX:+UseG1GC"])
    else if gcName == CMS then (if jvmMajor < 17 then DefaultCMSSettings else [])
    else if gcName == Shenandoah then ["-XX:+UseShenandoahGC"]
    else if gcName == ZGC then (if jvmMajor < 17 then [UnlockExperimental] else []) + ["-XX:+UseZGC"]
    else []
  }

  /** `flags` holds exactly one collector-selecting flag, the one selecting `gcName`. */
  predicate SelectsOnly(flags: seq<string>, gcName: string)
  {
    (exists i :: 0 <= i < |flags| && flags[i] in GcOptionMapping)
    && forall i :: 0 <= i < |flags| && flags[i] in GcOptionMapping ==> GcOptionMapping[flags[i]] == gcName
  }

  /** `flags` holds no collector-selecting flag. */
  predicate SelectsNone(flags: seq<string>)
  {
    forall i :: 0 <= i < |flags| ==> flags[i] !in GcOptionMapping
  }

  lemma {:induction false} G1FlagsSelectG1()
    ensures SelectsOnly(DefaultG1Settings, G1GC) && SelectsOnly(["-XX:+UseG1GC"], G1GC)
  {
    assert DefaultG1Settings[0] in GcOptionMapping;
    assert ["-XX:+UseG1GC"][0] in GcOptionMapping;
  }

  lemma {:induction false} CMSFlagsSelectCMS()
    ensures SelectsOnly(DefaultCMSSettings, CMS)
  {
    assert DefaultCMSSettings[0] in GcOptionMapping;
  }

  lemma {:induction false} ShenandoahFlagsSelectShenandoah()
    ensures SelectsOnly(["-XX:+UseShenandoahGC"], Shenandoah)
  {
    assert ["-XX:+UseShenandoahGC"][0] in GcOptionMapping;
  }

  lemma {:induction false} ZGCFlagsSelectZGC()
    ensures SelectsOnly([UnlockExperimental, "-XX:+UseZGC"], ZGC) && SelectsOnly(["-XX:+UseZGC"], ZGC)
  {
    assert [UnlockExperimental, "-XX:+UseZGC"][1] in GcOptionMapping;
    assert ["-XX:+UseZGC"][0] in GcOptionMapping;
  }

  /**
   * The flags chosen for a collector select that collector and no other, so reading them back
   * through the selecting-flag table names the collector again; the only supported collector
   * that gets no flags is CMS from JVM 17 on, where it no longer exists.
   */
  lemma {:induction false} GcOptionsSelectTheirCollector(gcName: string, jvmMajor: int)
    ensures gcName in SupportedGCs && !(gcName == CMS && jvmMajor >= 17)
      ==> SelectsOnly(GetGCOptions(gcName, jvmMajor), gcName)
    ensures !(gcName in SupportedGCs && !(gcName == CMS && jvmMajor >= 17))
      ==> GetGCOptions(gcName, jvmMajor) == []
  {
    var r := GetGCOptions(gcName, jvmMajor);
    if gcName == G1GC {
      G1FlagsSelectG1();
      assert r == if jvmMajor < 17 then DefaultG1Settings else ["-XX:+UseG1GC"];
    } else if gcName == CMS {
      CMSFlagsSelectCMS();
      assert jvmMajor < 17 ==> r == DefaultCMSSettings;
    } else if gcName == Shenandoah {
      ShenandoahFlagsSelectShenandoah();
      assert r == ["-XX:+UseShenandoahGC"];
    } else if gcName == ZGC {
      ZGCFlagsSelectZGC();
      assert r == if jvmMajor < 17 then [UnlockExperimental, "-XX:+UseZGC"] else ["-XX:+UseZGC"];
    }
  }

  /** The collector flags of the test expectations in pkg/config/builder_test.go:615-628. */
  lemma {:induction false} GcOptionsExamples()
    ensures GetGCOptions("G1GC", 11) == DefaultG1Settings
    ensures GetGCOptions("G1GC", 17) == ["-XX:+UseG1GC"]
    ensures GetGCOptions("CMS", 11) == DefaultCMSSettings
    ensures GetGCOptions("CMS", 17) == []
    ensures GetGCOptions("Shenandoah", 11) == ["-XX:+UseShenandoahGC"]
    ensures GetGCOptions("Shenandoah", 17) == ["-XX:+UseShenandoahGC"]
    ensures GetGCOptions("ZGC", 11) == ["-XX:+UnlockExperimentalVMOptions", "-XX:+UseZGC"]
    ensures GetGCOptions("ZGC", 17) == ["-XX:+UseZGC"]
  {
  }

  /** The flags of the collectors `gcs`, one collector after another. */
  function OptionsOf(gcs: seq<string>, jvmMajor: int): (r: seq<string>)
  {
    if gcs == [] then [] else GetGCOptions(gcs[0], jvmMajor) + OptionsOf(gcs[1..], jvmMajor)
  }

  /** Every line of the flags of the collectors `gcs` is a line of one of them, and back. */
  lemma {:induction false} OptionsOfMembers(gcs: seq<string>, jvmMajor: int, x: string)
    ensures x in OptionsOf(gcs, jvmMajor)
      <==> exists k :: 0 <= k < |gcs| && x in GetGCOptions(gcs[k], jvmMajor)
    decreases |gcs|
  {
    if gcs != [] {
      OptionsOfMembers(gcs[1..], jvmMajor, x);
      if x in GetGCOptions(gcs[0], jvmMajor) {
        assert 0 <= 0 < |gcs| && x in GetGCOptions(gcs[0], jvmMajor);
      }
      assert (exists k :: 1 <= k < |gcs| && x in GetGCOptions(gcs[k], jvmMajor))
        <==> (exists k :: 0 <= k < |gcs[1..]| && x in GetGCOptions(gcs[1..][k], jvmMajor)) by {
        forall k | 1 <= k < |gcs| ensures gcs[k] == gcs[1..][k - 1] { }
      }
    }
  }

  /** The flags of every supported collector on JVM major version `jvmMajor`. */
  function AllGCOptions(jvmMajor: int): seq<string>
  {
    OptionsOf(SupportedGCs, jvmMajor)
  }

  /** A line is among all collector flags exactly when some supported collector uses it. */
  lemma {:induction false} AllGCOptionsMembers(jvmMajor: int, x: string)
    ensures x in AllGCOptions(jvmMajor) <==> exists gcName :: gcName in SupportedGCs && x in GetGCOptions(gcName, jvmMajor)
  {
    OptionsOfMembers(SupportedGCs, jvmMajor, x);
    if exists gcName :: gcName in SupportedGCs && x in GetGCOptions(gcName, jvmMajor) {
      var gcName :| gcName in SupportedGCs && x in GetGCOptions(gcName, jvmMajor);
      var k :| 0 <= k < |SupportedGCs| && SupportedGCs[k] == gcName;
      assert x in GetGCOptions(SupportedGCs[k], jvmMajor);
    }
  }

  /** `getAllGCOptions`: the collector flags collected in a loop over the supported collectors. */
  method GetAllGCOptions(jvmMajor: int) returns (gcOpts: seq<string>)
    ensures gcOpts == AllGCOptions(jvmMajor)
  {
    gcOpts := [];
    var i := 0;
    while i < |SupportedGCs|
      invariant 0 <= i <= |SupportedGCs|
      invariant gcOpts + OptionsOf(SupportedGCs[i..], jvmMajor) == AllGCOptions(jvmMajor)
    {
      OptionsOfStep(SupportedGCs, i, jvmMajor, gcOpts);
      gcOpts := gcOpts + GetGCOptions(SupportedGCs[i], jvmMajor);
      i := i + 1;
    }
  }

  /** One step of the collecting loop: the flags of collector `i` move from the rest to the front. */
  lemma {:induction false} OptionsOfStep(gcs: seq<string>, i: nat, jvmMajor: int, front: seq<string>)
    requires i < |gcs|
    ensures front + OptionsOf(gcs[i..], jvmMajor)
      == (front + GetGCOptions(gcs[i], jvmMajor)) + OptionsOf(gcs[i + 1..], jvmMajor)
  {
    var rest := gcs[i..];
    assert rest[0] == gcs[i] && rest[1..] == gcs[i + 1..];
    assert OptionsOf(rest, jvmMajor) == GetGCOptions(rest[0], jvmMajor) + OptionsOf(rest[1..], jvmMajor);
  }

  /** The collectors whose selecting flag occurs somewhere in `opt`. */
  function GcTypesIn(opt: string): set<string>
  {
    set f | f in GcOptionMapping && Contains(opt, f) :: GcOptionMapping[f]
  }

  /**
   * What `detectGarbageCollector` may return for the options from index `i` on: it walks the
   * options in order, stops with a panic at the first one that is not a string, and at the first
   * string holding a selecting flag returns the collector of one of the flags found there. Which
   * one, when a single option holds flags of two collectors, depends on Go's map order, so the
   * outcome is the set of possible answers; the empty string means no collector was found.
   */
  function DetectFrom(opts: seq<Json>, i: nat): (r: Result<set<string>>)
    requires i <= |opts|
    ensures !r.Err?
    ensures r.Ok? ==> r.value != {}
    decreases |opts| - i
  {
    if i == |opts| then Ok({""})
    else if !opts[i].JString? then Panic(NotAString)
    else if GcTypesIn(opts[i].s) != {} then Ok(GcTypesIn(opts[i].s))
    else DetectFrom(opts, i + 1)
  }

  /** The scan passes over a string option that holds no selecting flag. */
  lemma {:induction false} DetectSkips(opts: seq<Json>, i: nat)
    requires i < |opts| && opts[i].JString?
    requires forall f :: f in GcOptionMapping ==> !Contains(opts[i].s, f)
    ensures DetectFrom(opts, i) == DetectFrom(opts, i + 1)
  {
    assert GcTypesIn(opts[i].s) == {};
  }

  /**
   * `detectGarbageCollector`: the collector of the first selecting flag found in the options,
   * trying the flags of each option in an arbitrary order, or the empty string.
   */
  method DetectGarbageCollector(opts: seq<Json>) returns (r: Result<string>)
    ensures r.Panic? <==> DetectFrom(opts, 0).Panic?
    ensures r.Ok? ==> DetectFrom(opts, 0).Ok? && r.value in DetectFrom(opts, 0).value
    ensures !r.Err?
  {
    var i := 0;
    while i < |opts|
      invariant 0 <= i <= |opts|
      invariant DetectFrom(opts, i) == DetectFrom(opts, 0)
    {
      if !opts[i].JString? {
        return Panic(NotAString);
      }
      var optStr := opts[i].s;
      var pending := GcOptionMapping.Keys;
      while pending != {}
        invariant pending <= GcOptionMapping.Keys
        invariant forall f :: f in GcOptionMapping && f !in pending ==> !Contains(optStr, f)
        decreases |pending|
      {
        var flagPattern :| flagPattern in pending;
        if Contains(optStr, flagPattern) {
          assert GcOptionMapping[flagPattern] in GcTypesIn(optStr);
          return Ok(GcOptionMapping[flagPattern]);
        }
        pending := pending - {flagPattern};
      }
      DetectSkips(opts, i);
      i := i + 1;
    }
    return Ok("");
  }

  /** A detected collector is one of the supported collectors, or none. */
  lemma {:induction false} DetectedIsSupported(opts: seq<Json>, i: nat, gcName: string)
    requires i <= |opts| && DetectFrom(opts, i).Ok? && gcName in DetectFrom(opts, i).value
    ensures gcName == "" || gcName in SupportedGCs
    decreases |opts| - i
  {
    if i < |opts| && GcTypesIn(opts[i].s) == {} {
      DetectedIsSupported(opts, i + 1, gcName);
    }
  }

  /** With only strings and no selecting flag anywhere, no collector is detected. */
  lemma {:induction false} DetectNothing(opts: seq<Json>, i: nat)
    requires i <= |opts|
    requires forall j :: i <= j < |opts| ==> opts[j].JString? && GcTypesIn(opts[j].s) == {}
    ensures DetectFrom(opts, i) == Ok({""})
    decreases |opts| - i
  {
    if i < |opts| {
      DetectNothing(opts, i + 1);
    }
  }

  /** When the first flag-bearing option holds the flag of one collector, that collector is detected. */
  lemma {:induction false} DetectFirstFlag(opts: seq<Json>, i: nat, k: nat, f: string)
    requires i <= k < |opts|
    requires forall j :: i <= j < k ==> opts[j].JString? && GcTypesIn(opts[j].s) == {}
    requires opts[k].JString? && f in GcOptionMapping && Contains(opts[k].s, f)
    ensures DetectFrom(opts, i).Ok? && GcOptionMapping[f] in DetectFrom(opts, i).value
    decreases k - i
  {
    if i < k {
      DetectFirstFlag(opts, i + 1, k, f);
    } else {
      assert GcOptionMapping[f] in GcTypesIn(opts[k].s);
    }
  }

  /** The strings of `vs`, or `None` when one of its values is not a string. */
  function AsStrings(vs: seq<Json>): (r: Option<seq<string>>)
    ensures r.Some? <==> forall i :: 0 <= i < |vs| ==> vs[i].JString?
    ensures r.Some? ==> |r.value| == |vs| && forall i :: 0 <= i < |vs| ==> r.value[i] == vs[i].s
  {
    if vs == [] then Some([])
    else if !vs[0].JString? then None
    else match AsStrings(vs[1..]) {
      case None => None
      case Some(rest) => Some([vs[0].s] + rest)
    }
  }

  /** The lines of `ss` that are not collector-selecting flags, in order. */
  function RemoveGcFlags(ss: seq<string>): (r: seq<string>)
    ensures |r| <= |ss|
    ensures forall x :: x in r <==> x in ss && x !in GcOptionMapping
  {
    if ss == [] then []
    else if ss[0] in GcOptionMapping then RemoveGcFlags(ss[1..])
    else [ss[0]] + RemoveGcFlags(ss[1..])
  }

  /**
   * The filter keeps order and repeats: its result is a subsequence of the lines, and each line
   * occurs in it as often as among the lines, or never if it is a selecting flag.
   */
  lemma {:induction false} RemoveGcFlagsKeepsOrder(ss: seq<string>)
    ensures Subsequence(RemoveGcFlags(ss), ss)
    ensures forall x :: multiset(RemoveGcFlags(ss))[x] == if x in GcOptionMapping then 0 else multiset(ss)[x]
  {
    if ss != [] {
      RemoveGcFlagsKeepsOrder(ss[1..]);
      var rest := RemoveGcFlags(ss[1..]);
      assert ss == [ss[0]] + ss[1..];
      if ss[0] in GcOptionMapping {
        SubsequenceDrop(ss[0], rest, ss[1..]);
      } else {
        SubsequenceKeep(ss[0], rest, ss[1..]);
      }
    }
  }

  /**
   * `filterGCOptions`: the options without the exact collector-selecting flags; it panics when
   * some option is not a string.
   */
  function FilterGCOptions(opts: seq<Json>): (r: Result<seq<string>>)
    ensures r.Panic? <==> exists i :: 0 <= i < |opts| && !opts[i].JString?
    ensures !r.Err?
    ensures r.Ok? ==> |r.value| <= |opts| && SelectsNone(r.value)
    ensures r.Ok? ==> AsStrings(opts).Some? && Subsequence(r.value, AsStrings(opts).value)
    ensures r.Ok? && AsStrings(opts).Some? ==>
      forall x :: multiset(r.value)[x] == if x in GcOptionMapping then 0 else multiset(AsStrings(opts).value)[x]
    ensures r.Ok? ==> forall i :: 0 <= i < |opts| && opts[i].s !in GcOptionMapping ==> opts[i].s in r.value
  {
    match AsStrings(opts) {
      case None => Panic(NotAString)
      case Some(ss) =>
        var kept := RemoveGcFlags(ss);
        RemoveGcFlagsKeepsOrder(ss);
        assert forall i :: 0 <= i < |opts| ==> ss[i] == opts[i].s;
        Ok(kept)
    }
  }

  const JvmPrefix := "jvm"
  const ServerOptionsSuffix := "-server.options"

  /** The number of decimal digits at the start of `s`. */
  function DigitRun(s: string): (n: nat)
    ensures n <= |s| && AllDigits(s[..n]) && (n == |s| || !IsDigit(s[n]))
  {
    if |s| > 0 && IsDigit(s[0]) then
      var n := 1 + DigitRun(s[1..]);
      assert s[..n] == [s[0]] + s[1..][..n - 1];
      n
    else 0
  }

  /**
   * The version that `jvm(\d+)-server\.options` reads when its match starts at index `i`: the
   * digits after "jvm" must be followed directly by the suffix.
   */
  function VersionAt(f: string, i: nat): (r: Option<nat>)
    requires i <= |f|
    ensures r.Some? ==> r.value <= MaxInt
  {
    if !OccursAt(f, JvmPrefix, i) then None
    else
      var n := DigitRun(f[i + 3..]);
      assert f[i + 3..][..n] == f[i + 3..i + 3 + n];
      if n > 0 && OccursAt(f, ServerOptionsSuffix, i + 3 + n) then Some(Atoi(f[i + 3..i + 3 + n]))
      else None
  }

  /** The version read by the leftmost match at index `i` or later. */
  function VersionFrom(f: string, i: nat): (r: Option<nat>)
    requires i <= |f|
    ensures r.Some? ==> r.value <= MaxInt
    decreases |f| - i
  {
    if i == |f| then None
    else if VersionAt(f, i).Some? then VersionAt(f, i)
    else VersionFrom(f, i + 1)
  }

  /** The file name matches `jvm.*-server\.options`: "jvm" and, somewhere after it, the suffix. */
  predicate IsServerOptionsFile(f: string)
  {
    var i := Index(f, JvmPrefix);
    i != -1 && Contains(f[i + 3..], ServerOptionsSuffix)
  }

  /** The JVM major version a server-options file is for: the number after "jvm", or 8. */
  function JvmVersion(f: string): (v: nat)
    ensures v <= MaxInt
  {
    match VersionFrom(f, 0) {
      case Some(n) => n
      case None => 8
    }
  }

  /** The numbered file of JVM `n` yields `n` again. */
  lemma {:induction false} JvmVersionOfNumbered(n: nat)
    requires n <= MaxInt
    ensures JvmVersion(JvmPrefix + DecimalString(n) + ServerOptionsSuffix) == n
    ensures IsServerOptionsFile(JvmPrefix + DecimalString(n) + ServerOptionsSuffix)
  {
    var d := DecimalString(n);
    var f := JvmPrefix + d + ServerOptionsSuffix;
    assert VersionAt(f, 0) == Some(n) by {
      NumberedVersionAt(n, d, f);
    }
    assert VersionFrom(f, 0) == Some(n);
    NumberedIsServerOptionsFile(d, f);
  }

  /** A name "jvm", digits, "-server.options" matches the server-options pattern. */
  lemma {:induction false} NumberedIsServerOptionsFile(d: string, f: string)
    requires f == JvmPrefix + d + ServerOptionsSuffix
    ensures IsServerOptionsFile(f)
  {
    assert Index(f, JvmPrefix) == 0 by {
      assert OccursAt(f, JvmPrefix, 0);
    }
    assert f[3..] == d + ServerOptionsSuffix;
    assert OccursAt(f[3..], ServerOptionsSuffix, |d|) by {
      assert (d + ServerOptionsSuffix)[|d|..] == ServerOptionsSuffix;
    }
  }

  /** The match at index 0 of a numbered file name reads the number back. */
  lemma {:induction false} NumberedVersionAt(n: nat, d: string, f: string)
    requires n <= MaxInt && d == DecimalString(n) && f == JvmPrefix + d + ServerOptionsSuffix
    ensures VersionAt(f, 0) == Some(n)
  {
    assert OccursAt(f, JvmPrefix, 0);
    assert f[3..] == d + ServerOptionsSuffix;
    assert DigitRun(f[3..]) == |d| by {
      assert ServerOptionsSuffix[0] == '-';
      DigitsThenStop(d, ServerOptionsSuffix);
    }
    assert f[3..3 + |d|] == d;
    assert OccursAt(f, ServerOptionsSuffix, 3 + |d|) by {
      assert f[3 + |d|..] == ServerOptionsSuffix;
    }
    DecimalRoundTrip(n);
  }

  /** A run of digits followed by a non-digit is counted exactly. */
  lemma {:induction false} DigitsThenStop(d: string, rest: string)
    requires AllDigits(d) && rest != [] && !IsDigit(rest[0])
    ensures DigitRun(d + rest) == |d|
    decreases |d|
  {
    if d != [] {
      assert (d + rest)[1..] == d[1..] + rest;
      DigitsThenStop(d[1..], rest);
    } else {
      assert d + rest == rest;
    }
  }

  /** The unnumbered file is for JVM 8. */
  lemma {:induction false} JvmVersionOfUnnumbered()
    ensures JvmVersion(JvmPrefix + ServerOptionsSuffix) == 8
    ensures IsServerOptionsFile(JvmPrefix + ServerOptionsSuffix)
  {
    var f := JvmPrefix + ServerOptionsSuffix;
    assert Index(f, JvmPrefix) == 0 by {
      assert OccursAt(f, JvmPrefix, 0);
    }
    assert OccursAt(f[3..], ServerOptionsSuffix, 0);
    NoVersionedMatch(f, 0);
  }

  /** "jvm" occurs at no index of the unnumbered file but the first, and no digit follows it. */
  lemma {:induction false} NoVersionedMatch(f: string, i: nat)
    requires f == JvmPrefix + ServerOptionsSuffix && i <= |f|
    ensures VersionFrom(f, i) == None
    decreases |f| - i
  {
    if i < |f| {
      if i == 0 {
        assert !IsDigit(f[3]);
      } else {
        assert 'j' !in f[1..];
        assert f[i] in f[1..];
        assert f[i] != 'j';
      }
      NoVersionedMatch(f, i + 1);
    }
  }
}
