/**
 * The synthesis of one `jvm*-server.options` file: the base option lines read from the source
 * directory, the option map merged from the datacenter input and the per-pod overrides, the
 * collector swap and the dedup that folds the base lines into the generated ones. Files become
 * values: the source file is an `OptionsFile` and the written file is the returned line list.
 */
module JvmOptions {
  import opened Wrappers
  import opened GoStrings
  import opened Json
  import opened ConfigGc
  import JvmMetadata
  import opened Seqs

  const AdditionalJvmOpts := "additional-jvm-opts"
  const GarbageCollectorKey := "garbage_collector"
  const ErrNotAList := "additional-jvm-opts must be a list of strings"

  // ---------------------------------------------------------------------------------------------
  // Reading the base options

  /** What reading the base file gives: no such file, a read error, or its raw lines. */
  datatype OptionsFile = Missing | Unreadable(error: string) | Present(lines: seq<string>)

  /** A trimmed line that is kept: not a comment and not empty. */
  predicate IsOptionLine(line: string)
  {
    !HasPrefix(line, "#") && |line| > 0
  }

  /** The line kept from one raw line: the trimmed line, or nothing. */
  function KeptLine(raw: string): (r: seq<string>)
    ensures |r| <= 1
    ensures forall x :: x in r ==> IsOptionLine(x) && TrimSpace(x) == x
  {
    var t := TrimSpace(raw);
    TrimSpaceIdempotent(raw);
    if IsOptionLine(t) then [t] else []
  }

  /** The kept lines of a file: every raw line trimmed, comments and blank lines dropped, in order. */
  function OptionLines(raw: seq<string>): (r: seq<string>)
    ensures |r| <= |raw|
    ensures forall x :: x in r ==> IsOptionLine(x) && TrimSpace(x) == x
  {
    if raw == [] then [] else KeptLine(raw[0]) + OptionLines(raw[1..])
  }

  /** Every raw line that is an option line once trimmed is kept, trimmed. */
  lemma {:induction false} OptionLinesKeep(raw: seq<string>, line: string)
    requires line in raw && IsOptionLine(TrimSpace(line))
    ensures TrimSpace(line) in OptionLines(raw)
    decreases |raw|
  {
    if raw[0] != line {
      OptionLinesKeep(raw[1..], line);
    }
  }

  /** Lines that are already trimmed option lines are read back unchanged. */
  lemma {:induction false} OptionLinesFixed(lines: seq<string>)
    requires forall x :: x in lines ==> IsOptionLine(x) && TrimSpace(x) == x
    ensures OptionLines(lines) == lines
    decreases |lines|
  {
    if lines != [] {
      assert lines[0] in lines;
      OptionLinesFixed(lines[1..]);
      assert lines == [lines[0]] + lines[1..];
    }
  }

  /** Filtering what was filtered changes nothing. */
  lemma {:induction false} OptionLinesIdempotent(raw: seq<string>)
    ensures OptionLines(OptionLines(raw)) == OptionLines(raw)
  {
    OptionLinesFixed(OptionLines(raw));
  }

  /** One raw line moves from the rest of the file into the kept lines. */
  lemma {:induction false} OptionLinesStep(raw: seq<string>, i: nat, kept: seq<string>)
    requires i < |raw|
    ensures kept + OptionLines(raw[i..]) == (kept + KeptLine(raw[i])) + OptionLines(raw[i + 1..])
  {
    var rest := raw[i..];
    assert rest[0] == raw[i] && rest[1..] == raw[i + 1..];
  }

  /** `readJvmServerOptions`: the kept lines of the base file, none when it is missing. */
  method ReadJvmServerOptions(file: OptionsFile) returns (r: Result<seq<string>>)
    ensures file.Missing? ==> r == Ok([])
    ensures file.Unreadable? ==> r == Err(file.error)
    ensures file.Present? ==> r == Ok(OptionLines(file.lines))
  {
    if file.Missing? {
      return Ok([]);
    }
    if file.Unreadable? {
      return Err(file.error);
    }
    var lines := file.lines;
    var options: seq<string> := [];
    var i := 0;
    while i < |lines|
      invariant 0 <= i <= |lines|
      invariant options + OptionLines(lines[i..]) == OptionLines(lines)
    {
      OptionLinesStep(lines, i, options);
      options := options + KeptLine(lines[i]);
      i := i + 1;
    }
    assert lines[i..] == [];
    assert options + [] == options;
    return Ok(options);
  }

  // ---------------------------------------------------------------------------------------------
  // Merging the option maps

  /** The base options with the override's additional options folded in. */
  function MergeAdditional(base: map<string, Json>, override: map<string, Json>): (r: Result<map<string, Json>>)
  {
    if AdditionalJvmOpts !in override then Ok(base)
    else if AdditionalJvmOpts in base then
      if base[AdditionalJvmOpts].JArray? && override[AdditionalJvmOpts].JArray? then
        Ok(base[AdditionalJvmOpts := JArray(base[AdditionalJvmOpts].items + override[AdditionalJvmOpts].items)])
      else Err(ErrNotAList)
    else Ok(base[AdditionalJvmOpts := override[AdditionalJvmOpts]])
  }

  /** An override key that is copied over the base: all but the two handled on their own. */
  predicate IsCopyable(k: string)
  {
    k != AdditionalJvmOpts && k != GarbageCollectorKey
  }

  /** `options` with the copyable override entries written over it. */
  function CopyOverrides(options: map<string, Json>, override: map<string, Json>): map<string, Json>
  {
    map k | k in options.Keys + override.Keys && (k in options || IsCopyable(k))
      :: if k in override && IsCopyable(k) then override[k] else options[k]
  }

  /** `options` is `start` with the copyable entries of the override keys `done` written over it. */
  ghost predicate CopiedSoFar(options: map<string, Json>, start: map<string, Json>, override: map<string, Json>, done: set<string>)
  {
    done <= override.Keys
    && (forall k :: k in options <==> k in start || (k in done && IsCopyable(k)))
    && (forall k :: k in options ==> options[k] == if k in done && IsCopyable(k) then override[k] else start[k])
  }

  lemma {:induction false} CopyStep(options: map<string, Json>, start: map<string, Json>, override: map<string, Json>, done: set<string>, k: string)
    requires CopiedSoFar(options, start, override, done) && k in override
    ensures CopiedSoFar(if IsCopyable(k) then options[k := override[k]] else options, start, override, done + {k})
  {
  }

  /** Moving one key from the pending keys to the done ones keeps the two apart and covering. */
  lemma {:induction false} RemoveOne<K>(all: set<K>, pending: set<K>, done: set<K>, k: K)
    requires pending <= all && done == all - pending && k in pending
    ensures pending - {k} <= all && done + {k} == all - (pending - {k})
  {
  }

  lemma {:induction false} CopyDone(options: map<string, Json>, start: map<string, Json>, override: map<string, Json>)
    requires CopiedSoFar(options, start, override, override.Keys)
    ensures options == CopyOverrides(start, override)
  {
    var c := CopyOverrides(start, override);
    assert options.Keys == c.Keys;
    assert forall k :: k in options ==> options[k] == c[k];
  }

  /**
   * The option map of `createServerJVMOptions`: the base entries, the override's additional
   * options appended to the base's, and every other override entry except `garbage_collector`.
   */
  function MergedOptions(base: map<string, Json>, override: map<string, Json>): (r: Result<map<string, Json>>)
    ensures r.Err? <==> (AdditionalJvmOpts in override && AdditionalJvmOpts in base
                         && !(base[AdditionalJvmOpts].JArray? && override[AdditionalJvmOpts].JArray?))
    ensures r.Err? ==> r.error == ErrNotAList
    ensures !r.Panic?
    ensures r.Ok? ==> forall k :: k in r.value <==> k in base || (k in override && k != GarbageCollectorKey)
    ensures r.Ok? ==> forall k :: (k in override && k != AdditionalJvmOpts && k != GarbageCollectorKey
                                   ==> r.value[k] == override[k])
    ensures r.Ok? ==> forall k :: (k in base && k != AdditionalJvmOpts && (k !in override || k == GarbageCollectorKey)
                                   ==> r.value[k] == base[k])
    ensures r.Ok? && AdditionalJvmOpts in override && AdditionalJvmOpts in base
      ==> r.value[AdditionalJvmOpts] == JArray(base[AdditionalJvmOpts].items + override[AdditionalJvmOpts].items)
    ensures r.Ok? && AdditionalJvmOpts in override && AdditionalJvmOpts !in base
      ==> r.value[AdditionalJvmOpts] == override[AdditionalJvmOpts]
    ensures r.Ok? && AdditionalJvmOpts !in override && AdditionalJvmOpts in base
      ==> r.value[AdditionalJvmOpts] == base[AdditionalJvmOpts]
  {
    match MergeAdditional(base, override) {
      case Ok(m) => Ok(CopyOverrides(m, override))
      case Err(e) => Err(e)
      case Panic(e) => Panic(e)
    }
  }

  /** The collector is never taken from the override: it is the base's, or absent. */
  lemma {:induction false} CollectorFromBaseOnly(base: map<string, Json>, override: map<string, Json>)
    requires MergedOptions(base, override).Ok?
    ensures GarbageCollectorKey in MergedOptions(base, override).value <==> GarbageCollectorKey in base
    ensures GarbageCollectorKey in base
      ==> MergedOptions(base, override).value[GarbageCollectorKey] == base[GarbageCollectorKey]
  {
  }

  /** `createServerJVMOptions` lines 314-342: the option map built in place. */
  method MergeOptions(base: map<string, Json>, override: map<string, Json>) returns (r: Result<map<string, Json>>)
    ensures r == MergedOptions(base, override)
  {
    var options := CopyBase(base);
    if AdditionalJvmOpts in override {
      var overrideAddOpts := override[AdditionalJvmOpts];
      if AdditionalJvmOpts in options {
        var addOpts := options[AdditionalJvmOpts];
        if !addOpts.JArray? || !overrideAddOpts.JArray? {
          return Err(ErrNotAList);
        }
        options := options[AdditionalJvmOpts := JArray(addOpts.items + overrideAddOpts.items)];
      } else {
        options := options[AdditionalJvmOpts := overrideAddOpts];
      }
    }
    assert MergeAdditional(base, override) == Ok(options);
    options := CopyOverridesOnto(options, override);
    return Ok(options);
  }

  /** The loop that copies every base entry into the new option map. */
  method CopyBase(base: map<string, Json>) returns (options: map<string, Json>)
    ensures options == base
  {
    options := map[];
    var rest := base.Keys;
    while rest != {}
      invariant rest <= base.Keys
      invariant forall k :: k in base ==> (k in options <==> k !in rest)
      invariant forall k :: k in options ==> k in base && options[k] == base[k]
      decreases |rest|
    {
      var k :| k in rest;
      options := options[k := base[k]];
      rest := rest - {k};
    }
    assert options.Keys == base.Keys;
  }

  /** The loop that writes the copyable override entries over `start`. */
  method CopyOverridesOnto(start: map<string, Json>, override: map<string, Json>) returns (options: map<string, Json>)
    ensures options == CopyOverrides(start, override)
  {
    options := start;
    var pending := override.Keys;
    ghost var done: set<string> := {};
    while pending != {}
      invariant pending <= override.Keys && done == override.Keys - pending
      invariant CopiedSoFar(options, start, override, done)
      decreases |pending|
    {
      var k :| k in pending;
      CopyStep(options, start, override, done, k);
      if k != AdditionalJvmOpts && k != GarbageCollectorKey {
        options := options[k := override[k]];
      }
      RemoveOne(override.Keys, pending, done, k);
      pending := pending - {k};
      done := done + {k};
    }
    CopyDone(options, start, override);
  }

  // ---------------------------------------------------------------------------------------------
  // The additional options and the collector they select

  /** `options[k] == nil` in Go: the key is absent or holds JSON null. */
  predicate IsNil(options: map<string, Json>, k: string)
  {
    k !in options || options[k] == JNull
  }

  /** The option map after the collector step and the option lines taken from additional options. */
  datatype Prepared = Prepared(options: map<string, Json>, targets: seq<string>)

  /**
   * A collector the detection may have returned on `options`: the empty string when there are no
   * additional options, otherwise one of the answers `detectGarbageCollector` may give.
   */
  ghost predicate DetectionAllowed(options: map<string, Json>, detected: string)
  {
    (AdditionalJvmOpts !in options ==> detected == "")
    && (AdditionalJvmOpts in options && options[AdditionalJvmOpts].JArray?
        && DetectFrom(options[AdditionalJvmOpts].items, 0).Ok?
        ==> detected in DetectFrom(options[AdditionalJvmOpts].items, 0).value)
  }

  /**
   * `createServerJVMOptions` lines 348-369 with `detected` the answer of the collector detection:
   * when a collector is detected and none is set, it is recorded and the exact collector flags are
   * left out of the emitted additional options; otherwise every additional option is emitted. The
   * additional options must be a list of strings, or the Go code panics.
   */
  function AdditionalTargets(options: map<string, Json>, detected: string): (r: Result<Prepared>)
    ensures !r.Err?
    ensures r.Ok? ==> forall k :: k != GarbageCollectorKey ==> (k in r.value.options <==> k in options)
    ensures r.Ok? ==> forall k :: k in options && k != GarbageCollectorKey ==> r.value.options[k] == options[k]
    ensures AdditionalJvmOpts !in options ==> r == Ok(Prepared(options, []))
    ensures r.Ok? && AdditionalJvmOpts in options && detected != "" && IsNil(options, GarbageCollectorKey)
      ==> (GarbageCollectorKey in r.value.options && r.value.options[GarbageCollectorKey] == JString(detected)
           && SelectsNone(r.value.targets)
           && options[AdditionalJvmOpts].JArray? && FilterGCOptions(options[AdditionalJvmOpts].items) == Ok(r.value.targets))
    ensures r.Ok? && AdditionalJvmOpts in options && !(detected != "" && IsNil(options, GarbageCollectorKey))
      ==> (r.value.options == options && options[AdditionalJvmOpts].JArray?
           && AsStrings(options[AdditionalJvmOpts].items) == Some(r.value.targets))
    ensures AdditionalJvmOpts in options && !options[AdditionalJvmOpts].JArray? ==> r.Panic?
  {
    if AdditionalJvmOpts !in options then Ok(Prepared(options, []))
    else if !options[AdditionalJvmOpts].JArray? then Panic("interface conversion: additional-jvm-opts is not a list")
    else
      var addOpts := options[AdditionalJvmOpts].items;
      if DetectFrom(addOpts, 0).Panic? then Panic(NotAString)
      else if detected != "" && IsNil(options, GarbageCollectorKey) then
        match FilterGCOptions(addOpts) {
          case Ok(kept) => Ok(Prepared(options[GarbageCollectorKey := JString(detected)], kept))
          case Err(e) => Err(e)
          case Panic(e) => Panic(e)
        }
      else
        match AsStrings(addOpts) {
          case Some(all) => Ok(Prepared(options, all))
          case None => Panic(NotAString)
        }
  }

  /** The collector step as the Go code runs it: detection first, then the filter or the copy. */
  method PrepareAdditional(options: map<string, Json>) returns (r: Result<Prepared>, ghost detected: string)
    ensures DetectionAllowed(options, detected)
    ensures r == AdditionalTargets(options, detected)
  {
    detected := "";
    if AdditionalJvmOpts !in options {
      return Ok(Prepared(options, [])), detected;
    }
    var addOpts := options[AdditionalJvmOpts];
    if !addOpts.JArray? {
      return Panic("interface conversion: additional-jvm-opts is not a list"), detected;
    }
    var gcName := DetectGarbageCollector(addOpts.items);
    if gcName.Panic? {
      return Panic(NotAString), detected;
    }
    detected := gcName.value;
    var targets: seq<string> := [];
    if gcName.value != "" && IsNil(options, GarbageCollectorKey) {
      var filtered := FilterGCOptions(addOpts.items);
      if !filtered.Ok? {
        return Panic(filtered.reason), detected;
      }
      return Ok(Prepared(options[GarbageCollectorKey := JString(gcName.value)], filtered.value)), detected;
    }
    var i := 0;
    while i < |addOpts.items|
      invariant 0 <= i <= |addOpts.items|
      invariant forall j :: 0 <= j < i ==> addOpts.items[j].JString?
      invariant |targets| == i && forall j :: 0 <= j < i ==> targets[j] == addOpts.items[j].s
    {
      if !addOpts.items[i].JString? {
        return Panic(NotAString), detected;
      }
      targets := targets + [addOpts.items[i].s];
      i := i + 1;
    }
    ghost var all := AsStrings(addOpts.items);
    assert all.Some? && |all.value| == |targets|;
    assert forall j :: 0 <= j < |targets| ==> all.value[j] == targets[j];
    assert all.value == targets;
    return Ok(Prepared(options, targets)), detected;
  }

  // ---------------------------------------------------------------------------------------------
  // Rendering the remaining options through the option table

  /** How the option table renders a key: by a template (skipped here), or by a line format. */
  datatype OutputKind = TemplateValue | Formatted(format: string -> string)

  /** The option tables of the two files that have one; the newer JVMs' files have none. */
  datatype OptionTables = OptionTables(server: map<string, OutputKind>, server11: map<string, OutputKind>)

  /** `optionsFilenameToMap`: the table for a file name. */
  function TableFor(filename: string, tables: OptionTables): (t: map<string, OutputKind>)
    ensures filename != "jvm-server.options" && filename != "jvm11-server.options" ==> t == map[]
  {
    if filename == "jvm-server.options" then tables.server
    else if filename == "jvm11-server.options" then tables.server11
    else map[]
  }

  /** `fmt.Sprintf("%v", v)` for the scalar values an option can hold. */
  function ValueText(v: Json): string
  {
    match v {
      case JString(s) => s
      case JNumber(literal) => literal
      case JBool(b) => if b then "true" else "false"
      case JNull => "<nil>"
      case _ => ""
    }
  }

  /** Key `k` produces a line: it is not one of the two special keys and the table formats it. */
  predicate Renderable(k: string, table: map<string, OutputKind>)
  {
    k != AdditionalJvmOpts && k != GarbageCollectorKey && k in table && table[k].Formatted?
  }

  /** The line of a renderable key. */
  function RenderedLine(k: string, options: map<string, Json>, table: map<string, OutputKind>): string
    requires k in options && Renderable(k, table)
  {
    table[k].format(ValueText(options[k]))
  }

  /** The lines the render loop emits when it visits the keys in the order `order`. */
  function RenderedLines(order: seq<string>, options: map<string, Json>, table: map<string, OutputKind>): (r: seq<string>)
    ensures |r| <= |order|
  {
    if order == [] then []
    else
      var k := order[0];
      (if k in options && Renderable(k, table) then [RenderedLine(k, options, table)] else [])
      + RenderedLines(order[1..], options, table)
  }

  /** `order` lists every key of `keys` exactly once. */
  ghost predicate Enumerates(order: seq<string>, keys: set<string>)
  {
    (forall i, j :: 0 <= i < j < |order| ==> order[i] != order[j])
    && forall k :: k in keys <==> k in order
  }

  /** Every renderable key of the map gives its line. */
  lemma {:induction false} RenderCovers(order: seq<string>, options: map<string, Json>, table: map<string, OutputKind>, k: string)
    requires k in order && k in options && Renderable(k, table)
    ensures RenderedLine(k, options, table) in RenderedLines(order, options, table)
    decreases |order|
  {
    if order[0] != k {
      RenderCovers(order[1..], options, table, k);
    }
  }

  /** Every rendered line is the line of some renderable key. */
  lemma {:induction false} RenderSound(order: seq<string>, options: map<string, Json>, table: map<string, OutputKind>, x: string)
    requires x in RenderedLines(order, options, table)
    ensures exists k :: k in order && k in options && Renderable(k, table) && x == RenderedLine(k, options, table)
    decreases |order|
  {
    var k := order[0];
    if k in options && Renderable(k, table) && x == RenderedLine(k, options, table) {
      assert k in order;
    } else {
      RenderSound(order[1..], options, table, x);
      var j :| j in order[1..] && j in options && Renderable(j, table) && x == RenderedLine(j, options, table);
      assert j in order;
    }
  }

  /** One visited key moves from the rest of the order to the emitted lines. */
  lemma {:induction false} RenderStep(order: seq<string>, k: string, options: map<string, Json>, table: map<string, OutputKind>)
    ensures RenderedLines(order + [k], options, table)
      == RenderedLines(order, options, table) + RenderedLines([k], options, table)
  {
    RenderAppend(order, [k], options, table);
  }

  lemma {:induction false} RenderAppend(a: seq<string>, b: seq<string>, options: map<string, Json>, table: map<string, OutputKind>)
    ensures RenderedLines(a + b, options, table) == RenderedLines(a, options, table) + RenderedLines(b, options, table)
    decreases |a|
  {
    if a == [] {
      assert a + b == b;
    } else {
      assert (a + b)[0] == a[0] && (a + b)[1..] == a[1..] + b;
      RenderAppend(a[1..], b, options, table);
    }
  }

  /**
   * `createServerJVMOptions` lines 371-384: the renderable options as lines, visiting the keys in
   * Go's map order, which the ghost `order` records.
   */
  method RenderOptions(options: map<string, Json>, table: map<string, OutputKind>)
    returns (lines: seq<string>, ghost order: seq<string>)
    ensures Enumerates(order, options.Keys)
    ensures lines == RenderedLines(order, options, table)
  {
    lines := [];
    order := [];
    var pending := options.Keys;
    while pending != {}
      invariant pending <= options.Keys
      invariant forall i, j :: 0 <= i < j < |order| ==> order[i] != order[j]
      invariant forall k :: k in order <==> k in options.Keys - pending
      invariant lines == RenderedLines(order, options, table)
      decreases |pending|
    {
      var k :| k in pending;
      assert k !in order;
      RenderStep(order, k, options, table);
      if k != AdditionalJvmOpts && k != GarbageCollectorKey && k in table && table[k].Formatted? {
        lines := lines + [table[k].format(ValueText(options[k]))];
      }
      order := order + [k];
      pending := pending - {k};
    }
  }

  // ---------------------------------------------------------------------------------------------
  // Swapping the collector lines of the base file

  /** `line` contains one of `opts`. */
  predicate HoldsAnyOf(line: string, opts: seq<string>)
  {
    exists j :: 0 <= j < |opts| && Contains(line, opts[j])
  }

  /** The lines of `current` that contain none of `opts`, in order. */
  function DropLinesHolding(current: seq<string>, opts: seq<string>): (r: seq<string>)
    ensures |r| <= |current|
    ensures forall x :: x in r <==> x in current && !HoldsAnyOf(x, opts)
  {
    if current == [] then []
    else (if HoldsAnyOf(current[0], opts) then [] else [current[0]]) + DropLinesHolding(current[1..], opts)
  }

  /**
   * The line filter keeps order and repeats: its result is a subsequence of the lines, and each
   * line occurs in it as often as among the lines, or never if it holds one of the flags.
   */
  lemma {:induction false} DropLinesKeepsOrder(current: seq<string>, opts: seq<string>)
    ensures Subsequence(DropLinesHolding(current, opts), current)
    ensures forall x ::
      multiset(DropLinesHolding(current, opts))[x] == if HoldsAnyOf(x, opts) then 0 else multiset(current)[x]
  {
    if current != [] {
      DropLinesKeepsOrder(current[1..], opts);
      var rest := DropLinesHolding(current[1..], opts);
      assert current == [current[0]] + current[1..];
      if HoldsAnyOf(current[0], opts) {
        assert DropLinesHolding(current, opts) == rest;
        SubsequenceDrop(current[0], rest, current[1..]);
      } else {
        assert DropLinesHolding(current, opts) == [current[0]] + rest;
        SubsequenceKeep(current[0], rest, current[1..]);
      }
    }
  }

  /** The collector step applies: a server-options file and a `garbage_collector` entry. */
  predicate SwapsCollector(options: map<string, Json>, filename: string)
  {
    IsServerOptionsFile(filename) && GarbageCollectorKey in options
  }

  /**
   * `createServerJVMOptions` lines 388-411: for a server-options file with a collector set, every
   * base line that mentions a flag of any supported collector for the file's JVM is removed and
   * the flags of the chosen collector are appended; otherwise the base lines stay as they are.
   */
  function SwappedLines(current: seq<string>, options: map<string, Json>, filename: string): (r: seq<string>)
    ensures !SwapsCollector(options, filename) ==> r == current
    ensures SwapsCollector(options, filename) ==>
      (var v := JvmVersion(filename);
       var added := GetGCOptions(ValueText(options[GarbageCollectorKey]), v);
       var n := |r| - |added|;
       0 <= n && r[n..] == added
       && (forall x :: x in r[..n] <==> x in current && !HoldsAnyOf(x, AllGCOptions(v)))
       && Subsequence(r[..n], current)
       && (forall x :: multiset(r[..n])[x] == if HoldsAnyOf(x, AllGCOptions(v)) then 0 else multiset(current)[x]))
  {
    if SwapsCollector(options, filename) then
      var v := JvmVersion(filename);
      var kept := DropLinesHolding(current, AllGCOptions(v));
      DropLinesKeepsOrder(current, AllGCOptions(v));
      var added := GetGCOptions(ValueText(options[GarbageCollectorKey]), v);
      assert (kept + added)[..|kept|] == kept;
      kept + added
    else current
  }

  /** The collector step as the Go code runs it, collecting all collector flags in a loop first. */
  method SwapGarbageCollector(current: seq<string>, options: map<string, Json>, filename: string)
    returns (swapped: seq<string>)
    ensures swapped == SwappedLines(current, options, filename)
  {
    swapped := current;
    if IsServerOptionsFile(filename) && GarbageCollectorKey in options {
      var jvmVersion := JvmVersion(filename);
      var allOpts := GetAllGCOptions(jvmVersion);
      swapped := DropLinesHolding(current, allOpts) + GetGCOptions(ValueText(options[GarbageCollectorKey]), jvmVersion);
    }
  }

  // ---------------------------------------------------------------------------------------------
  // Folding the base lines into the generated ones

  /** `strings.Index(v, "=")`. */
  function EqualsIndex(v: string): (i: int)
    ensures i == -1 <==> '=' !in v
    ensures i != -1 ==> 0 <= i < |v| && v[i] == '=' && '=' !in v[..i]
  {
    if '=' in v then CharIndex(v, '=') else -1
  }

  /**
   * Two lines set the same option: when both have a '=' after their first character they agree
   * on the text before it, and otherwise they are equal.
   */
  predicate SameSetting(v: string, vT: string)
  {
    var cur := EqualsIndex(v);
    var target := EqualsIndex(vT);
    if target > 0 && cur > 0 then v[..cur] == vT[..target] else v == vT
  }

  /** The output line `vT` suppresses the base line `v`. */
  predicate Clash(v: string, vT: string)
  {
    var p := JvmMetadata.PrefixParser(v);
    (p.0 && HasPrefix(vT, p.1)) || SameSetting(v, vT)
  }

  /** Some line of `out` suppresses `v`. */
  predicate Suppressed(v: string, out: seq<string>)
  {
    exists j :: 0 <= j < |out| && Clash(v, out[j])
  }

  /** Every line suppresses itself, so a kept line never repeats an earlier one. */
  lemma {:induction false} ClashReflexive(v: string)
    ensures Clash(v, v)
  {
    assert SameSetting(v, v);
  }

  /**
   * `createServerJVMOptions` lines 412-438: each base line in turn is appended unless a line
   * already in the growing output suppresses it.
   */
  function Folded(current: seq<string>, out: seq<string>): (r: seq<string>)
    decreases |current|
  {
    if current == [] then out
    else Folded(current[1..], if Suppressed(current[0], out) then out else out + [current[0]])
  }

  /** The generated lines come first, unchanged. */
  lemma {:induction false} FoldedKeepsTargets(current: seq<string>, out: seq<string>)
    ensures |out| <= |Folded(current, out)| && Folded(current, out)[..|out|] == out
    decreases |current|
  {
    if current != [] {
      var next := if Suppressed(current[0], out) then out else out + [current[0]];
      FoldedKeepsTargets(current[1..], next);
      assert next[..|out|] == out;
    }
  }

  /** Every line after the generated ones is a base line. */
  lemma {:induction false} FoldedFromBase(current: seq<string>, out: seq<string>)
    ensures forall j :: |out| <= j < |Folded(current, out)| ==> Folded(current, out)[j] in current
    decreases |current|
  {
    if current != [] {
      var next := if Suppressed(current[0], out) then out else out + [current[0]];
      FoldedFromBase(current[1..], next);
      FoldedKeepsTargets(current[1..], next);
      var r := Folded(current, out);
      forall j | |out| <= j < |r|
        ensures r[j] in current
      {
        if j < |next| {
          assert r[j] == next[j] == current[0];
        } else {
          assert r[j] in current[1..];
        }
      }
    }
  }

  /** No appended base line is suppressed by a line before it. */
  lemma {:induction false} FoldedNoClash(current: seq<string>, out: seq<string>)
    ensures var r := Folded(current, out);
      forall i, j :: 0 <= i < j < |r| && |out| <= j ==> !Clash(r[j], r[i])
    decreases |current|
  {
    if current != [] {
      var next := if Suppressed(current[0], out) then out else out + [current[0]];
      FoldedNoClash(current[1..], next);
      FoldedKeepsTargets(current[1..], next);
      var r := Folded(current, out);
      forall i, j | 0 <= i < j < |r| && |out| <= j
        ensures !Clash(r[j], r[i])
      {
        if j >= |next| {
        } else {
          assert next == out + [current[0]] && j == |out|;
          assert r[j] == current[0] && r[i] == out[i];
        }
      }
    }
  }

  /**
   * The fold one base line further: the line is appended unless a line already folded, generated
   * or kept from earlier base lines, suppresses it. Base lines are thus taken in order, and of two
   * clashing base lines the earlier one is kept.
   */
  lemma {:induction false} FoldedSnoc(current: seq<string>, x: string, out: seq<string>)
    ensures var f := Folded(current, out);
      Folded(current + [x], out) == if Suppressed(x, f) then f else f + [x]
    decreases |current|
  {
    if current == [] {
      assert current + [x] == [x] && [x][1..] == [];
    } else {
      var next := if Suppressed(current[0], out) then out else out + [current[0]];
      FoldedSnoc(current[1..], x, next);
      assert (current + [x])[0] == current[0];
      assert (current + [x])[1..] == current[1..] + [x];
    }
  }

  /** The fold of each prefix of the base lines, one line further. */
  lemma {:induction false} FoldedSteps(current: seq<string>, out: seq<string>)
    ensures forall k :: 0 <= k < |current| ==>
      var f := Folded(current[..k], out);
      Folded(current[..k + 1], out) == if Suppressed(current[k], f) then f else f + [current[k]]
  {
    forall k | 0 <= k < |current|
      ensures var f := Folded(current[..k], out);
        Folded(current[..k + 1], out) == if Suppressed(current[k], f) then f else f + [current[k]]
    {
      var pre, x := current[..k], current[k];
      assert pre + [x] == current[..k + 1];
      FoldedSnoc(pre, x, out);
    }
  }

  /** A base line is dropped only when a line of the final output suppresses it. */
  lemma {:induction false} FoldedDropsOnlySuppressed(current: seq<string>, out: seq<string>)
    ensures forall x :: x in current ==> x in Folded(current, out) || Suppressed(x, Folded(current, out))
    decreases |current|
  {
    if current != [] {
      var next := if Suppressed(current[0], out) then out else out + [current[0]];
      FoldedDropsOnlySuppressed(current[1..], next);
      FoldedKeepsTargets(current[1..], next);
      var r := Folded(current, out);
      if Suppressed(current[0], out) {
        var j :| 0 <= j < |out| && Clash(current[0], out[j]);
        assert r[j] == out[j];
      } else {
        assert r[|out|] == next[|out|] == current[0];
      }
    }
  }

  /** The output line `vT` at `j` decides whether `v` is suppressed by the first `j + 1` lines. */
  lemma {:induction false} SuppressedStep(v: string, out: seq<string>, j: nat)
    requires j < |out|
    ensures Suppressed(v, out[..j + 1]) <==> Suppressed(v, out[..j]) || Clash(v, out[j])
  {
    var s := out[..j + 1];
    assert forall i :: 0 <= i < j ==> s[i] == out[..j][i];
    assert s[j] == out[j];
  }

  /** The dedup loop of `createServerJVMOptions`, with its labelled `continue` as a flag. */
  method FoldBaseLines(current: seq<string>, targets: seq<string>) returns (out: seq<string>)
    ensures out == Folded(current, targets)
  {
    out := targets;
    var i := 0;
    while i < |current|
      invariant 0 <= i <= |current|
      invariant Folded(current[i..], out) == Folded(current, targets)
    {
      var v := current[i];
      var curValueLoc := EqualsIndex(v);
      var suppressed := false;
      var j := 0;
      while j < |out| && !suppressed
        invariant 0 <= j <= |out|
        invariant suppressed <==> Suppressed(v, out[..j])
      {
        SuppressedStep(v, out, j);
        var vT := out[j];
        var p := JvmMetadata.PrefixParser(v);
        if p.0 && HasPrefix(vT, p.1) {
          suppressed := true;
        } else {
          var vc := v;
          var vTc := vT;
          var targetValueLoc := EqualsIndex(vT);
          if targetValueLoc > 0 && curValueLoc > 0 {
            vTc := vTc[..targetValueLoc];
            vc := vc[..curValueLoc];
          }
          if vc == vTc {
            suppressed := true;
          }
        }
        j := j + 1;
      }
      assert suppressed <==> Suppressed(v, out) by {
        if !suppressed {
          assert out[..j] == out;
        }
      }
      assert current[i..][0] == v && current[i..][1..] == current[i + 1..];
      if !suppressed {
        out := out + [v];
      }
      i := i + 1;
    }
  }

  // ---------------------------------------------------------------------------------------------
  // The whole file

  /** The base lines: the kept lines of the base file, none when it is missing. */
  function BaseLines(file: OptionsFile): seq<string>
  {
    match file {
      case Present(lines) => OptionLines(lines)
      case _ => []
    }
  }

  /** The lines generated from the option map: the additional options, then the rendered ones. */
  function TargetLines(prepared: Prepared, order: seq<string>, table: map<string, OutputKind>): seq<string>
  {
    prepared.targets + RenderedLines(order, prepared.options, table)
  }

  /** The lines written for a merged option map: `None` when there is nothing to write. */
  function WrittenFromOptions(merged: map<string, Json>, current: seq<string>, filename: string,
                              table: map<string, OutputKind>, detected: string, order: seq<string>)
    : (r: Result<Option<seq<string>>>)
    ensures !r.Err?
    ensures r.Ok? ==> r.value != Some([])
  {
    match AdditionalTargets(merged, detected) {
      case Ok(prepared) =>
        var out := Folded(SwappedLines(current, prepared.options, filename), TargetLines(prepared, order, table));
        Ok(if out == [] then None else Some(out))
      case Err(e) => Err(e)
      case Panic(e) => Panic(e)
    }
  }

  /**
   * The lines written for one server-options file, given the collector detection's answer
   * `detected` and the map order `order` of the render loop: `None` when the file is not written
   * because there is nothing to write.
   */
  function ServerJvmOptions(base: map<string, Json>, override: map<string, Json>, filename: string,
                            file: OptionsFile, tables: OptionTables, detected: string, order: seq<string>)
    : (r: Result<Option<seq<string>>>)
    ensures r.Err? <==> file.Unreadable? || MergedOptions(base, override).Err?
    ensures file.Unreadable? ==> r == Err(file.error)
    ensures !file.Unreadable? && MergedOptions(base, override).Err? ==> r == Err(ErrNotAList)
    ensures r.Ok? ==> r.value != Some([])
  {
    if file.Unreadable? then Err(file.error)
    else
      match MergedOptions(base, override) {
        case Ok(merged) => WrittenFromOptions(merged, BaseLines(file), filename, TableFor(filename, tables), detected, order)
        case Err(e) => Err(e)
        case Panic(e) => Panic(e)
      }
  }

  /** The choices of detection answer and map order that a run on `options` may make. */
  ghost predicate ChoicesAllowedOn(options: map<string, Json>, detected: string, order: seq<string>)
  {
    DetectionAllowed(options, detected)
    && (AdditionalTargets(options, detected).Ok? ==> Enumerates(order, AdditionalTargets(options, detected).value.options.Keys))
  }

  /** The choices a run of the Go code on these inputs may make. */
  ghost predicate ChoicesAllowed(base: map<string, Json>, override: map<string, Json>, detected: string, order: seq<string>)
  {
    MergedOptions(base, override).Ok? ==> ChoicesAllowedOn(MergedOptions(base, override).value, detected, order)
  }

  /** `createServerJVMOptions` lines 344-443, from the merged option map to the lines to write. */
  method BuildLines(merged: map<string, Json>, current: seq<string>, filename: string, table: map<string, OutputKind>)
    returns (r: Result<Option<seq<string>>>, ghost detected: string, ghost order: seq<string>)
    ensures ChoicesAllowedOn(merged, detected, order)
    ensures r == WrittenFromOptions(merged, current, filename, table, detected, order)
  {
    detected := "";
    order := [];
    var options := merged;
    var targetOptions: seq<string> := [];
    if |options| > 0 {
      var prepared;
      prepared, detected := PrepareAdditional(options);
      if !prepared.Ok? {
        return Panic(prepared.reason), detected, order;
      }
      options := prepared.value.options;
      var rendered;
      rendered, order := RenderOptions(options, table);
      targetOptions := prepared.value.targets + rendered;
      assert targetOptions == TargetLines(prepared.value, order, table);
    } else {
      assert AdditionalTargets(options, detected) == Ok(Prepared(options, []));
      assert options.Keys == {};
      assert targetOptions == TargetLines(Prepared(options, []), order, table);
    }
    var swapped := SwapGarbageCollector(current, options, filename);
    var out := FoldBaseLines(swapped, targetOptions);
    if |out| == 0 {
      return Ok(None), detected, order;
    }
    return Ok(Some(out)), detected, order;
  }

  /** `createServerJVMOptions`: the lines of the file it writes, or `None` when it writes none. */
  method CreateServerJvmOptions(base: map<string, Json>, override: map<string, Json>, filename: string,
                                file: OptionsFile, tables: OptionTables)
    returns (r: Result<Option<seq<string>>>, ghost detected: string, ghost order: seq<string>)
    ensures !file.Unreadable? ==> ChoicesAllowed(base, override, detected, order)
    ensures r == ServerJvmOptions(base, override, filename, file, tables, detected, order)
  {
    detected := "";
    order := [];
    var currentOptions := ReadJvmServerOptions(file);
    if currentOptions.Err? {
      return Err(currentOptions.error), detected, order;
    }
    assert currentOptions.value == BaseLines(file);
    var merged := MergeOptions(base, override);
    if !merged.Ok? {
      return Err(merged.error), detected, order;
    }
    r, detected, order := BuildLines(merged.value, currentOptions.value, filename, TableFor(filename, tables));
  }

  // ---------------------------------------------------------------------------------------------
  // Properties of the whole file

  /**
   * The folded lines start with the generated lines, every later line is a base line that no
   * earlier line suppresses, every base line left out is suppressed by a written line, and the
   * result is empty only when there were neither generated nor base lines. Line by line, each
   * base line is appended exactly when no line folded before it suppresses it.
   */
  lemma {:induction false} FoldedShape(current: seq<string>, targets: seq<string>)
    ensures var out := Folded(current, targets);
      |targets| <= |out| && out[..|targets|] == targets
      && (forall j :: |targets| <= j < |out| ==> out[j] in current)
      && (forall i, j :: 0 <= i < j < |out| && |targets| <= j ==> !Clash(out[j], out[i]))
      && (forall x :: x in current ==> x in out || Suppressed(x, out))
      && (out == [] <==> targets == [] && current == [])
    ensures forall k :: 0 <= k < |current| ==>
      var f := Folded(current[..k], targets);
      Folded(current[..k + 1], targets) == if Suppressed(current[k], f) then f else f + [current[k]]
    ensures Folded([], targets) == targets
  {
    FoldedSteps(current, targets);
    FoldedKeepsTargets(current, targets);
    FoldedFromBase(current, targets);
    FoldedNoClash(current, targets);
    FoldedDropsOnlySuppressed(current, targets);
    var out := Folded(current, targets);
    if current != [] {
      assert current[0] in out || Suppressed(current[0], out);
    }
  }

  /**
   * A collector found in the additional options while none is set becomes the collector of the
   * file, and no exact collector flag among the additional options is emitted.
   */
  lemma {:induction false} CollectorFromAdditionalOptions(base: map<string, Json>, override: map<string, Json>, detected: string)
    requires MergedOptions(base, override).Ok?
    requires var merged := MergedOptions(base, override).value;
      AdditionalJvmOpts in merged && IsNil(merged, GarbageCollectorKey) && detected != ""
      && AdditionalTargets(merged, detected).Ok?
    ensures var merged := MergedOptions(base, override).value;
      var prepared := AdditionalTargets(merged, detected).value;
      GarbageCollectorKey in prepared.options
      && prepared.options[GarbageCollectorKey] == JString(detected) && SelectsNone(prepared.targets)
      && merged[AdditionalJvmOpts].JArray? && FilterGCOptions(merged[AdditionalJvmOpts].items) == Ok(prepared.targets)
  {
  }

  /** The first '=' of a line whose key holds none is the one after the key. */
  lemma {:induction false} EqualsAfterKey(key: string, value: string)
    requires '=' !in key
    ensures EqualsIndex(key + ['='] + value) == |key|
  {
    var line := key + ['='] + value;
    assert line[|key|] == '=' && line[..|key|] == key;
    var i := EqualsIndex(line);
    assert i <= |key| ==> line[..i] == key[..i];
  }

  /**
   * A base line that sets the same key as a generated line is dropped, whatever the two values,
   * as for the pause target in pkg/config/builder_test.go:567-570.
   */
  lemma {:induction false} FoldDropsSameKey(key: string, baseValue: string, value: string)
    requires '=' !in key && key != []
    ensures Folded([key + ['='] + baseValue], [key + ['='] + value]) == [key + ['='] + value]
  {
    var v := key + ['='] + baseValue;
    var t := key + ['='] + value;
    EqualsAfterKey(key, baseValue);
    EqualsAfterKey(key, value);
    assert v[..|key|] == key == t[..|key|];
    assert SameSetting(v, t);
    assert Clash(v, [t][0]);
  }

  /**
   * A base line with a thread-stack or heap-size prefix is dropped when a generated line has the
   * same prefix, as for the thread stack size in pkg/config/builder_test.go:555-556.
   */
  lemma {:induction false} FoldDropsSamePrefix(v: string, t: string)
    requires JvmMetadata.PrefixParser(v).0 && HasPrefix(t, JvmMetadata.PrefixParser(v).1)
    ensures Folded([v], [t]) == [t]
  {
    assert Clash(v, [t][0]);
  }
}
