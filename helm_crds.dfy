/**
 * The CRD upgrader of a Helm chart's pre-upgrade hook (pkg/helmutil/crds.go): find the `crds`
 * directories of the chart and of the selected subcharts, collect the CustomResourceDefinitions
 * they hold, then create each missing CRD or update the existing one, rewriting its stored
 * versions first when some of them are no longer served.
 */
module HelmCrds {
  import opened Wrappers
  import GoStrings
  import GoPaths

  /** The subchart selector that selects every subchart. */
  const AllSubCharts := "_"

  const CrdKind := "CustomResourceDefinition"

  /**
   * `chartFilter` (crds.go:168-193): keep a directory named `crds`; one under
   * `charts/<name>/crds` only when every subchart or `<name>` is selected. A bare relative
   * `crds` path has a single element and the lookup two elements from the end panics.
   */
  function ChartFilter(path: string, isDir: bool, charts: set<string>): (r: Result<bool>)
    ensures !r.Err?
  {
    if !isDir || GoPaths.Base(path) != "crds" then Ok(false)
    else
      PartsFilter(GoStrings.Split(GoPaths.Clean(path), '/'), charts)
  }

  /** The decision of `chartFilter` on the elements of the cleaned path of a `crds` directory. */
  function PartsFilter(parts: seq<string>, charts: set<string>): (r: Result<bool>)
    ensures !r.Err?
    ensures r.Panic? <==> |parts| < 2
    ensures r == Ok(true) <==>
      |parts| >= 2 && (|parts| > 3 && parts[|parts| - 3] == "charts" ==> AllSubCharts in charts || parts[|parts| - 2] in charts)
  {
    if |parts| < 2 then Panic("index out of range [-1]")
    else
      var chartName := parts[|parts| - 2];
      var subChart := |parts| > 3 && parts[|parts| - 3] == "charts";
      if !subChart then Ok(true)
      else if AllSubCharts in charts then Ok(true)
      else if chartName in charts then Ok(true)
      else Ok(false)
  }

  /**
   * The filter keeps only directories named `crds`; it panics exactly on a cleaned path of one
   * element; and a directory two levels below a `charts` element (in a path of more than three
   * elements) is kept only when every subchart or the chart it belongs to is selected.
   */
  lemma {:induction false} ChartFilterRule(path: string, isDir: bool, charts: set<string>)
    ensures var r := ChartFilter(path, isDir, charts);
      (!isDir || GoPaths.Base(path) != "crds" ==> r == Ok(false))
      && (r.Panic? <==> isDir && GoPaths.Base(path) == "crds" && '/' !in GoPaths.Clean(path))
    ensures var parts := GoStrings.Split(GoPaths.Clean(path), '/');
      ChartFilter(path, isDir, charts) == Ok(true) <==>
        isDir && GoPaths.Base(path) == "crds" && |parts| >= 2
        && (|parts| > 3 && parts[|parts| - 3] == "charts" ==> AllSubCharts in charts || parts[|parts| - 2] in charts)
  {
    if isDir && GoPaths.Base(path) == "crds" {
      var c := GoPaths.Clean(path);
      var parts := GoStrings.Split(c, '/');
      assert ChartFilter(path, isDir, charts) == PartsFilter(parts, charts);
      assert |parts| < 2 <==> '/' !in c;
    }
  }

  /** A path made only of plain segments. */
  predicate PlainSegments(segs: seq<string>)
  {
    forall i :: 0 <= i < |segs| ==> GoPaths.PlainSegment(segs[i]) && '/' !in segs[i]
  }

  /**
   * On an absolute path of plain segments ending in `crds` the filter keeps the directory of a
   * top-level chart, and the directory of a subchart `charts/<name>/crds` exactly when every
   * subchart or `<name>` is selected.
   */
  lemma {:induction false} ChartFilterOnPlainPath(segs: seq<string>, charts: set<string>)
    requires |segs| >= 2 && segs[|segs| - 1] == "crds" && PlainSegments(segs)
    ensures var n := |segs|;
      ChartFilter(['/'] + GoStrings.Join(segs, '/'), true, charts)
      == Ok(if n >= 3 && segs[n - 3] == "charts" then AllSubCharts in charts || segs[n - 2] in charts else true)
  {
    PlainPathFilter(segs, charts);
    RootedPartsFilter(segs, charts);
  }

  /** On such a path the filter decides on the empty root element followed by the segments. */
  lemma {:induction false} PlainPathFilter(segs: seq<string>, charts: set<string>)
    requires |segs| >= 2 && segs[|segs| - 1] == "crds" && PlainSegments(segs)
    ensures ChartFilter(['/'] + GoStrings.Join(segs, '/'), true, charts) == PartsFilter([[]] + segs, charts)
  {
    var path := ['/'] + GoStrings.Join(segs, '/');
    assert GoStrings.Split(GoPaths.Clean(path), '/') == [[]] + segs by {
      PlainPathParts(segs);
    }
    assert GoPaths.Base(path) == "crds" by {
      PlainPathBase(segs);
    }
  }

  lemma {:induction false} RootedPartsFilter(segs: seq<string>, charts: set<string>)
    requires |segs| >= 2
    ensures var n := |segs|;
      PartsFilter([[]] + segs, charts)
      == Ok(if n >= 3 && segs[n - 3] == "charts" then AllSubCharts in charts || segs[n - 2] in charts else true)
  {
    var n := |segs|;
    var parts := [[]] + segs;
    assert |parts| == n + 1 && parts[n - 1] == segs[n - 2];
    assert n >= 3 ==> parts[n - 2] == segs[n - 3];
  }

  lemma {:induction false} PlainPathParts(segs: seq<string>)
    requires |segs| >= 1 && PlainSegments(segs)
    ensures var path := ['/'] + GoStrings.Join(segs, '/');
      GoPaths.Clean(path) == path && GoStrings.Split(path, '/') == [[]] + segs
  {
    var rel := GoStrings.Join(segs, '/');
    GoStrings.SplitJoin(segs, '/');
    assert GoPaths.IsPlainRelative(rel) by {
      JoinNonEmpty(segs);
    }
    GoPaths.CleanPlainRooted(rel);
    GoPaths.RootedSplit(rel);
  }

  lemma {:induction false} PlainPathBase(segs: seq<string>)
    requires |segs| >= 2 && segs[|segs| - 1] == "crds" && PlainSegments(segs)
    ensures GoPaths.Base(['/'] + GoStrings.Join(segs, '/')) == "crds"
  {
    var n := |segs|;
    RootedJoinLast(segs);
    GoPaths.BaseOfChild(['/'] + GoStrings.Join(segs[..n - 1], '/'), segs[n - 1]);
  }

  /** A rooted path of two or more segments is its parent's path, a slash and the last segment. */
  lemma {:induction false} RootedJoinLast(segs: seq<string>)
    requires |segs| >= 2
    ensures ['/'] + GoStrings.Join(segs, '/') == ['/'] + GoStrings.Join(segs[..|segs| - 1], '/') + "/" + segs[|segs| - 1]
  {
    var parent, last := segs[..|segs| - 1], segs[|segs| - 1];
    GoStrings.JoinSnoc(parent, last, '/');
    assert parent + [last] == segs;
    var j := GoStrings.Join(parent, '/');
    assert GoStrings.Join(segs, '/') == j + ['/'] + last;
    assert ['/'] + (j + ['/'] + last) == ['/'] + j + "/" + last;
  }

  /**
   * The layout of the directory test (crds_unit_test.go:16-33): the chart's own `crds` is
   * always kept; the `crds` of subchart `k8ssandra-operator` only when it is selected.
   */
  lemma {:induction false} ChartLayout(charts: set<string>)
    ensures ChartFilter(['/'] + GoStrings.Join(["tmp", "op", "crds"], '/'), true, charts) == Ok(true)
    ensures ChartFilter(['/'] + GoStrings.Join(["tmp", "op", "charts", "k8ssandra-operator", "crds"], '/'), true, charts)
      == Ok(AllSubCharts in charts || "k8ssandra-operator" in charts)
  {
    ChartLayoutTop(charts);
    ChartLayoutSubchart(charts);
  }

  lemma {:induction false} ChartLayoutTop(charts: set<string>)
    ensures ChartFilter(['/'] + GoStrings.Join(["tmp", "op", "crds"], '/'), true, charts) == Ok(true)
  {
    ChartFilterOnPlainPath(["tmp", "op", "crds"], charts);
  }

  lemma {:induction false} ChartLayoutSubchart(charts: set<string>)
    ensures ChartFilter(['/'] + GoStrings.Join(["tmp", "op", "charts", "k8ssandra-operator", "crds"], '/'), true, charts)
      == Ok(AllSubCharts in charts || "k8ssandra-operator" in charts)
  {
    ChartFilterOnPlainPath(["tmp", "op", "charts", "k8ssandra-operator", "crds"], charts);
  }

  lemma {:induction false} JoinNonEmpty(segs: seq<string>)
    requires |segs| >= 1 && segs[0] != []
    ensures GoStrings.Join(segs, '/') != []
  {
  }

  /** A walk of a relative directory named `crds` with nothing above it panics in the filter. */
  lemma {:induction false} BareCrdsPanics(path: string, charts: set<string>)
    requires path == "crds"
    ensures ChartFilter(path, true, charts).Panic?
  {
    assert GoPaths.PlainSegment(path) && '/' !in path;
    NameIsClean(path);
    ChartFilterRule(path, true, charts);
  }

  /** A single plain name is its own base name and is already clean. */
  lemma NameIsClean(name: string)
    requires GoPaths.PlainSegment(name) && '/' !in name
    ensures GoPaths.Base(name) == name && GoPaths.Clean(name) == name
  {
    GoPaths.BaseOfName(name);
    assert GoStrings.Split(name, '/') == [name];
    GoPaths.CleanPlain(name);
  }

  /** One visit of `filepath.Walk`: the path, whether it is a directory, and an error reported for it. */
  datatype Visit = Visit(path: string, isDir: bool, error: Option<string>)

  /** The walk callback of `findCRDDirs`: the filter applied to one visit. */
  function Keeper(charts: set<string>): Visit -> Result<bool>
  {
    (v: Visit) => ChartFilter(v.path, v.isDir, charts)
  }

  /**
   * The directories the walk in `findCRDDirs` collects with callback `keep`, in walk order, and
   * how the walk ends: a reported error stops it and is returned together with the directories
   * found so far.
   */
  function CrdDirs(visits: seq<Visit>, keep: Visit -> Result<bool>): (r: (seq<string>, Result<()>))
    ensures r.1.Ok? <==> forall i :: 0 <= i < |visits| ==> visits[i].error.None? && keep(visits[i]).Ok?
    ensures !r.1.Err? || exists i :: 0 <= i < |visits| && visits[i].error == Some(r.1.error)
  {
    if visits == [] then ([], Ok(()))
    else
      var v := visits[0];
      if v.error.Some? then ([], Err(v.error.value))
      else
        var k := keep(v);
        if k.Panic? then ([], Panic(k.reason))
        else if k.Err? then ([], Panic(k.error))
        else
          var rest := CrdDirs(visits[1..], keep);
          assert forall i :: 1 <= i < |visits| ==> visits[i] == visits[1..][i - 1];
          assert rest.1.Err? ==> exists i :: 1 <= i < |visits| && visits[i].error == Some(rest.1.error);
          ((if k.value then [v.path] else []) + rest.0, rest.1)
  }

  /** Every collected directory is the path of a visit that the callback keeps. */
  lemma {:induction false} CrdDirsKept(visits: seq<Visit>, keep: Visit -> Result<bool>, d: string)
    requires d in CrdDirs(visits, keep).0
    ensures exists i :: 0 <= i < |visits| && visits[i].path == d && keep(visits[i]) == Ok(true)
  {
    if d !in CrdDirs(visits[1..], keep).0 {
      assert visits[0].path == d;
    } else {
      CrdDirsKept(visits[1..], keep, d);
      var i :| 0 <= i < |visits[1..]| && visits[1..][i].path == d && keep(visits[1..][i]) == Ok(true);
      assert visits[i + 1] == visits[1..][i];
    }
  }

  /** A walk that ends without error collects every directory the callback keeps. */
  lemma {:induction false} CrdDirsComplete(visits: seq<Visit>, keep: Visit -> Result<bool>, i: nat)
    requires CrdDirs(visits, keep).1.Ok?
    requires i < |visits| && keep(visits[i]) == Ok(true)
    ensures visits[i].path in CrdDirs(visits, keep).0
  {
    if i > 0 {
      assert visits[1..][i - 1] == visits[i];
      CrdDirsComplete(visits[1..], keep, i - 1);
    }
  }

  /** One step of the walk: what the visit at `i` contributes and how the rest is taken up. */
  lemma {:induction false} CrdDirsUnfold(visits: seq<Visit>, keep: Visit -> Result<bool>, i: nat)
    requires i < |visits|
    ensures var v, r, rest := visits[i], CrdDirs(visits[i..], keep), CrdDirs(visits[i + 1..], keep);
      (v.error.Some? ==> r == ([], Err(v.error.value)))
      && (v.error.None? && keep(v).Panic? ==> r == ([], Panic(keep(v).reason)))
      && (v.error.None? && keep(v).Err? ==> r == ([], Panic(keep(v).error)))
      && (v.error.None? && keep(v).Ok?
          ==> r == ((if keep(v).value then [v.path] else []) + rest.0, rest.1))
  {
    assert visits[i..][0] == visits[i] && visits[i..][1..] == visits[i + 1..];
  }

  /** The set of selected subcharts built at crds.go:163-166. */
  method ChartsList(subCharts: seq<string>) returns (charts: set<string>)
    ensures charts == set c | c in subCharts
  {
    charts := {};
    for k := 0 to |subCharts|
      invariant charts == set c | c in subCharts[..k]
    {
      assert subCharts[..k + 1] == subCharts[..k] + [subCharts[k]];
      charts := charts + {subCharts[k]};
    }
    assert subCharts[..|subCharts|] == subCharts;
  }

  /** `findCRDDirs` (crds.go:162-206) over the visits of the walk of the chart directory. */
  method FindCrdDirs(visits: seq<Visit>, subCharts: seq<string>) returns (dirs: seq<string>, status: Result<()>)
    ensures (dirs, status) == CrdDirs(visits, Keeper(set c | c in subCharts))
  {
    var charts := ChartsList(subCharts);
    dirs, status := WalkCrdDirs(visits, Keeper(charts));
  }

  /** The walk of `findCRDDirs` with callback `keep`: each visit in turn, until one fails. */
  method WalkCrdDirs(visits: seq<Visit>, keep: Visit -> Result<bool>) returns (dirs: seq<string>, status: Result<()>)
    ensures (dirs, status) == CrdDirs(visits, keep)
  {
    dirs := [];
    var i := 0;
    assert visits[0..] == visits;
    while i < |visits|
      invariant 0 <= i <= |visits|
      invariant CrdDirs(visits, keep).0 == dirs + CrdDirs(visits[i..], keep).0
      invariant CrdDirs(visits, keep).1 == CrdDirs(visits[i..], keep).1
    {
      var v := visits[i];
      CrdDirsUnfold(visits, keep, i);
      if v.error.Some? {
        assert dirs + [] == dirs;
        return dirs, Err(v.error.value);
      }
      var k := keep(v);
      if k.Panic? {
        assert dirs + [] == dirs;
        return dirs, Panic(k.reason);
      } else if k.Err? {
        assert dirs + [] == dirs;
        return dirs, Panic(k.error);
      }
      ghost var rest := CrdDirs(visits[i + 1..], keep).0;
      if k.value {
        assert dirs + ([v.path] + rest) == (dirs + [v.path]) + rest;
        dirs := dirs + [v.path];
      } else {
        assert [] + rest == rest;
      }
      i := i + 1;
    }
    assert visits[|visits|..] == [];
    assert dirs + [] == dirs;
    status := Ok(());
  }

  /** A version a CRD's spec lists; `storage` marks the one objects are stored as. */
  datatype CrdVersion = CrdVersion(name: string, storage: bool)

  /** The typed reading of a CRD object: its versions, or the converter's error. */
  datatype Definition = Definition(versions: seq<CrdVersion>) | Unconvertible(error: string)

  /** A CRD object as read from the chart. */
  datatype Crd = Crd(name: string, resourceVersion: string, definition: Definition)

  /** A YAML document of a CRD file: it either does not decode or decodes to an object of a kind. */
  datatype Document = Undecodable | Decoded(kind: string, crd: Crd)

  /** The outcome of splitting a file into YAML documents. */
  datatype Documents = Documents(docs: seq<Document>) | SplitError(error: string)

  /** Reading a file: its error, or its size and its documents. */
  datatype FileRead = ReadError(error: string) | Read(size: nat, documents: Documents)

  /** One visit of the walk of a `crds` directory. */
  datatype FileVisit = FileVisit(path: string, isDir: bool, error: Option<string>, file: FileRead)

  /** The decoded CRDs of a file, in document order: other kinds and undecodable documents are skipped. */
  function DocumentCrds(docs: seq<Document>): (r: seq<Crd>)
    ensures |r| <= |docs|
  {
    if docs == [] then []
    else
      var rest := DocumentCrds(docs[1..]);
      if docs[0].Decoded? && docs[0].kind == CrdKind then [docs[0].crd] + rest else rest
  }

  /** The collected objects are exactly the decoded CustomResourceDefinition documents. */
  lemma {:induction false} DocumentCrdsMembers(docs: seq<Document>)
    ensures forall c :: c in DocumentCrds(docs) <==> Decoded(CrdKind, c) in docs
    decreases |docs|
  {
    if docs != [] {
      DocumentCrdsMembers(docs[1..]);
      assert forall d :: d in docs <==> d == docs[0] || d in docs[1..];
    }
  }

  /**
   * `DocumentCrds` works document by document: the CRDs of two runs of documents are those of
   * the first followed by those of the second, so file order and repeats are kept.
   */
  lemma {:induction false} DocumentCrdsAppend(a: seq<Document>, b: seq<Document>)
    ensures DocumentCrds(a + b) == DocumentCrds(a) + DocumentCrds(b)
    decreases |a|
  {
    if a == [] {
      assert a + b == b;
    } else {
      var d, tail := a[0], a[1..];
      var rest := tail + b;
      assert a == [d] + tail;
      assert a + b == [d] + rest;
      DocumentCrdsAppend(tail, b);
      DocumentCrdsCons(d, tail);
      DocumentCrdsCons(d, rest);
    }
  }

  /** The first document contributes in front of the rest. */
  lemma {:induction false} DocumentCrdsCons(d: Document, rest: seq<Document>)
    ensures DocumentCrds([d] + rest) == (if d.Decoded? && d.kind == CrdKind then [d.crd] else []) + DocumentCrds(rest)
  {
    assert ([d] + rest)[0] == d && ([d] + rest)[1..] == rest;
  }

  /** A single document contributes its CRD exactly when it decodes to one. */
  lemma {:induction false} DocumentCrdsSingle(d: Document)
    ensures DocumentCrds([d]) == if d.Decoded? && d.kind == CrdKind then [d.crd] else []
  {
    assert [d][1..] == [];
  }

  /** One step of `DocumentCrds`: what the document at `j` contributes. */
  lemma {:induction false} DocumentCrdsUnfold(docs: seq<Document>, j: nat)
    requires j < |docs|
    ensures DocumentCrds(docs[j..])
      == (if docs[j].Decoded? && docs[j].kind == CrdKind then [docs[j].crd] else []) + DocumentCrds(docs[j + 1..])
  {
    assert docs[j..][0] == docs[j] && docs[j..][1..] == docs[j + 1..];
    assert [] + DocumentCrds(docs[j + 1..]) == DocumentCrds(docs[j + 1..]);
  }

  /**
   * What the walk in `parseChartCRDs` collects from one `crds` directory, and the error that
   * stops it: a walk error, a read error or a YAML split error. Directories and empty files
   * contribute nothing.
   */
  function DirCrds(visits: seq<FileVisit>): (r: (seq<Crd>, Option<string>))
  {
    if visits == [] then ([], None)
    else
      var v := visits[0];
      var rest := DirCrds(visits[1..]);
      if v.error.Some? then ([], v.error)
      else if v.isDir then rest
      else match v.file
        case ReadError(e) => ([], Some(e))
        case Read(size, documents) =>
          if size == 0 then rest
          else match documents
            case SplitError(e) => ([], Some(e))
            case Documents(docs) => (DocumentCrds(docs) + rest.0, rest.1)
  }

  /** Every collected object decodes to kind CustomResourceDefinition in one of the walked files. */
  lemma {:induction false} DirCrdsAreCrds(visits: seq<FileVisit>, c: Crd)
    requires c in DirCrds(visits).0
    ensures exists i :: (0 <= i < |visits| && !visits[i].isDir && visits[i].file.Read?
      && visits[i].file.documents.Documents? && Decoded(CrdKind, c) in visits[i].file.documents.docs)
  {
    var v := visits[0];
    var rest := DirCrds(visits[1..]);
    if c in rest.0 {
      DirCrdsAreCrds(visits[1..], c);
      var i :| 0 <= i < |visits[1..]| && !visits[1..][i].isDir && visits[1..][i].file.Read?
        && visits[1..][i].file.documents.Documents? && Decoded(CrdKind, c) in visits[1..][i].file.documents.docs;
      assert visits[i + 1] == visits[1..][i];
    } else {
      DocumentCrdsMembers(v.file.documents.docs);
      assert c in DocumentCrds(v.file.documents.docs);
      assert visits[0] == v;
    }
  }

  /** One step of the walk of a `crds` directory: what the visit at `i` contributes. */
  lemma {:induction false} DirCrdsUnfold(visits: seq<FileVisit>, i: nat)
    requires i < |visits|
    ensures var v, r, rest := visits[i], DirCrds(visits[i..]), DirCrds(visits[i + 1..]);
      (v.error.Some? ==> r == ([], v.error))
      && (v.error.None? && v.isDir ==> r == rest)
      && (v.error.None? && !v.isDir && v.file.ReadError? ==> r == ([], Some(v.file.error)))
      && (v.error.None? && !v.isDir && v.file.Read? && v.file.size == 0 ==> r == rest)
      && (v.error.None? && !v.isDir && v.file.Read? && v.file.size != 0 && v.file.documents.SplitError?
          ==> r == ([], Some(v.file.documents.error)))
      && (v.error.None? && !v.isDir && v.file.Read? && v.file.size != 0 && v.file.documents.Documents?
          ==> r == (DocumentCrds(v.file.documents.docs) + rest.0, rest.1))
  {
    assert visits[i..][0] == visits[i] && visits[i..][1..] == visits[i + 1..];
  }

  /** The loop over the documents of one file: the CRDs among them appended in order. */
  method AppendDocumentCrds(start: seq<Crd>, docs: seq<Document>) returns (out: seq<Crd>)
    ensures out == start + DocumentCrds(docs)
  {
    out := start;
    var j := 0;
    assert docs[0..] == docs;
    while j < |docs|
      invariant 0 <= j <= |docs|
      invariant out + DocumentCrds(docs[j..]) == start + DocumentCrds(docs)
    {
      var d := docs[j];
      DocumentCrdsUnfold(docs, j);
      if d.Decoded? && d.kind == CrdKind {
        assert out + ([d.crd] + DocumentCrds(docs[j + 1..])) == (out + [d.crd]) + DocumentCrds(docs[j + 1..]);
        out := out + [d.crd];
      }
      j := j + 1;
    }
    assert docs[|docs|..] == [];
    assert out + [] == out;
  }

  /**
   * `parseChartCRDs` (crds.go:208-260): appends the CRDs of one directory to `crds`; the walk
   * stops at the first error, which is returned.
   */
  method ParseChartCrds(crds: seq<Crd>, visits: seq<FileVisit>) returns (out: seq<Crd>, err: Option<string>)
    ensures out == crds + DirCrds(visits).0 && err == DirCrds(visits).1
  {
    out := crds;
    var i := 0;
    assert visits[0..] == visits;
    while i < |visits|
      invariant 0 <= i <= |visits|
      invariant crds + DirCrds(visits).0 == out + DirCrds(visits[i..]).0
      invariant DirCrds(visits).1 == DirCrds(visits[i..]).1
    {
      var v := visits[i];
      DirCrdsUnfold(visits, i);
      ghost var rest := DirCrds(visits[i + 1..]);
      if v.error.Some? {
        assert out + [] == out;
        return out, v.error;
      }
      if !v.isDir {
        match v.file
        case ReadError(e) =>
          assert out + [] == out;
          return out, Some(e);
        case Read(size, documents) =>
          if size != 0 {
            match documents
            case SplitError(e) =>
              assert out + [] == out;
              return out, Some(e);
            case Documents(docs) =>
              ghost var before := out;
              out := AppendDocumentCrds(out, docs);
              assert before + (DocumentCrds(docs) + rest.0) == out + rest.0;
          }
      }
      i := i + 1;
    }
    assert visits[|visits|..] == [];
    assert out + [] == out;
    return out, None;
  }

  /** The existing CRD as the cluster returns it: its resource version and stored versions. */
  datatype Existing = Existing(resourceVersion: string, storedVersions: Definition)

  datatype Fetch = NotFound | FetchFailed(error: string) | Found(existing: Existing)

  datatype StatusUpdate = StatusUpdated(resourceVersion: string) | StatusFailed(error: string)

  /**
   * The cluster, as the outcomes of the four calls `Upgrade` makes: fetching a CRD by name,
   * creating one, updating the status of one (returning the new resource version) and updating one.
   */
  datatype Cluster = Cluster(
    fetch: string -> Fetch,
    create: Crd -> Option<string>,
    updateStatus: (string, string, seq<string>) -> StatusUpdate,
    update: Crd -> Option<string>)

  /** A write `Upgrade` sends to the cluster. */
  datatype Write =
    | Create(crd: Crd)
    | UpdateStoredVersions(name: string, resourceVersion: string, storedVersions: seq<string>)
    | Update(crd: Crd)

  function VersionNamesOf(versions: seq<CrdVersion>): (names: seq<string>)
    ensures |names| == |versions|
    ensures forall i :: 0 <= i < |versions| ==> names[i] == versions[i].name
  {
    if versions == [] then [] else [versions[0].name] + VersionNamesOf(versions[1..])
  }

  /** The names of a definition's versions, in order (crds.go:116-119). */
  method VersionNames(versions: seq<CrdVersion>) returns (names: seq<string>)
    ensures names == VersionNamesOf(versions)
  {
    names := [];
    for i := 0 to |versions|
      invariant names == VersionNamesOf(versions[..i])
    {
      assert versions[..i + 1] == versions[..i] + [versions[i]];
      VersionNamesAppend(versions[..i], versions[i]);
      names := names + [versions[i].name];
    }
    assert versions[..|versions|] == versions;
  }

  lemma {:induction false} VersionNamesAppend(versions: seq<CrdVersion>, v: CrdVersion)
    ensures VersionNamesOf(versions + [v]) == VersionNamesOf(versions) + [v.name]
    decreases |versions|
  {
    if versions != [] {
      VersionNamesAppend(versions[1..], v);
      assert (versions + [v])[1..] == versions[1..] + [v];
    }
  }

  /**
   * The stored-versions rule (crds.go:128-151): when the stored versions differ from the new
   * spec versions and one of them is no longer among those, they are replaced by exactly the new
   * spec versions; otherwise the status is left alone.
   */
  function NewStoredVersions(stored: seq<string>, updated: seq<string>): (r: Option<seq<string>>)
    ensures r.Some? <==> stored != updated && exists v :: v in stored && v !in updated
    ensures r.Some? ==> r.value == updated
  {
    if stored != updated && exists v :: v in stored && v !in updated then Some(updated) else None
  }

  /** The loop at crds.go:134-141: whether some stored version is missing from the new ones. */
  method SomeVersionRemoved(stored: seq<string>, updated: seq<string>) returns (removed: bool)
    ensures removed <==> exists v :: v in stored && v !in updated
  {
    removed := false;
    for i := 0 to |stored|
      invariant removed <==> exists j :: 0 <= j < i && stored[j] !in updated
    {
      if stored[i] !in updated {
        removed := true;
      }
    }
  }

  /** The writes for one chart CRD and the error that ends the upgrade, if any (crds.go:94-156). */
  function UpgradeOne(obj: Crd, cluster: Cluster): (r: (Option<string>, seq<Write>))
    ensures cluster.fetch(obj.name) == NotFound ==> (r.1 == [Create(obj)]
      && r.0 == (if cluster.create(obj).Some? then Some(Wrap(cluster.create(obj).value, "failed to create CRD " + obj.name)) else None))
    ensures cluster.fetch(obj.name).FetchFailed? ==>
      r == (Some(Wrap(cluster.fetch(obj.name).error, "failed to fetch state of " + obj.name)), [])
    ensures cluster.fetch(obj.name).Found? && r.0.None? ==>
      |r.1| >= 1 && r.1[|r.1| - 1].Update? && r.1[|r.1| - 1].crd == obj.(resourceVersion := r.1[|r.1| - 1].crd.resourceVersion)
    ensures cluster.fetch(obj.name).Found? ==> forall w :: w in r.1 ==> !w.Create?
    ensures forall w :: w in r.1 && w.UpdateStoredVersions? ==>
      cluster.fetch(obj.name).Found? && obj.definition.Definition?
      && w == UpdateStoredVersions(obj.name, cluster.fetch(obj.name).existing.resourceVersion, VersionNamesOf(obj.definition.versions))
  {
    match cluster.fetch(obj.name)
    case NotFound =>
      var e := cluster.create(obj);
      (if e.Some? then Some(Wrap(e.value, "failed to create CRD " + obj.name)) else None, [Create(obj)])
    case FetchFailed(e) => (Some(Wrap(e, "failed to fetch state of " + obj.name)), [])
    case Found(existing) =>
      var named := obj.(resourceVersion := existing.resourceVersion);
      match obj.definition
      case Unconvertible(e) => (Some(Wrap(e, "failed to convert unstructured to CustomResourceDefinition " + obj.name)), [])
      case Definition(versions) =>
        match existing.storedVersions
        case Unconvertible(e) => (Some(Wrap(e, "failed to convert unstructured to CustomResourceDefinition " + obj.name)), [])
        case Definition(stored) =>
          var updated := VersionNamesOf(versions);
          var statusWrites := match NewStoredVersions(VersionNamesOf(stored), updated)
            case None => []
            case Some(nv) => [UpdateStoredVersions(obj.name, existing.resourceVersion, nv)];
          var statusOutcome := match NewStoredVersions(VersionNamesOf(stored), updated)
            case None => StatusUpdated(existing.resourceVersion)
            case Some(nv) => cluster.updateStatus(obj.name, existing.resourceVersion, nv);
          match statusOutcome
          case StatusFailed(e) => (Some(Wrap(e, "failed to update CRD storedVersions " + obj.name)), statusWrites)
          case StatusUpdated(rv) =>
            var toUpdate := named.(resourceVersion := rv);
            var e := cluster.update(toUpdate);
            (if e.Some? then Some(Wrap(e.value, "failed to update CRD " + obj.name)) else None, statusWrites + [Update(toUpdate)])
  }

  /** A definition, new or existing, that does not convert ends the upgrade before any write. */
  lemma {:induction false} UpgradeOneConversionErrors(obj: Crd, cluster: Cluster)
    ensures var f := cluster.fetch(obj.name);
      f.Found? && obj.definition.Unconvertible? ==>
        UpgradeOne(obj, cluster) == (Some(Wrap(obj.definition.error, "failed to convert unstructured to CustomResourceDefinition " + obj.name)), [])
    ensures var f := cluster.fetch(obj.name);
      f.Found? && obj.definition.Definition? && f.existing.storedVersions.Unconvertible? ==>
        UpgradeOne(obj, cluster) == (Some(Wrap(f.existing.storedVersions.error, "failed to convert unstructured to CustomResourceDefinition " + obj.name)), [])
  {
  }

  /**
   * For a found CRD whose definitions convert, the stored versions are written exactly when the
   * stored-versions rule asks for it, with the fetched resource version and the new version names.
   */
  lemma {:induction false} UpgradeOneStatusRule(obj: Crd, cluster: Cluster)
    ensures var f := cluster.fetch(obj.name);
      f.Found? && obj.definition.Definition? && f.existing.storedVersions.Definition? ==>
        var r := UpgradeOne(obj, cluster);
        ((exists w :: w in r.1 && w.UpdateStoredVersions?)
         <==> NewStoredVersions(VersionNamesOf(f.existing.storedVersions.versions), VersionNamesOf(obj.definition.versions)).Some?)
  {
    var f := cluster.fetch(obj.name);
    if f.Found? && obj.definition.Definition? && f.existing.storedVersions.Definition? {
      var r := UpgradeOne(obj, cluster);
      var nv := NewStoredVersions(VersionNamesOf(f.existing.storedVersions.versions), VersionNamesOf(obj.definition.versions));
      if nv.Some? {
        assert r.1[0] == UpdateStoredVersions(obj.name, f.existing.resourceVersion, nv.value);
      } else {
        UpgradeOneVersionWithoutStatus(obj, cluster);
      }
    }
  }

  /** Without a status write the update carries the fetched resource version. */
  lemma {:induction false} UpgradeOneVersionWithoutStatus(obj: Crd, cluster: Cluster)
    ensures var f := cluster.fetch(obj.name);
      var r := UpgradeOne(obj, cluster);
      f.Found? && obj.definition.Definition? && f.existing.storedVersions.Definition?
      && NewStoredVersions(VersionNamesOf(f.existing.storedVersions.versions), VersionNamesOf(obj.definition.versions)).None? ==>
        r.1 == [Update(obj.(resourceVersion := f.existing.resourceVersion))]
        && r.0 == (if cluster.update(r.1[0].crd).Some? then Some(Wrap(cluster.update(r.1[0].crd).value, "failed to update CRD " + obj.name)) else None)
  {
  }

  /**
   * After a status write the update carries the resource version that write returned, and a
   * failed status write ends the upgrade without an update.
   */
  lemma {:induction false} UpgradeOneVersionAfterStatus(obj: Crd, cluster: Cluster)
    ensures var r := UpgradeOne(obj, cluster);
      forall w :: w in r.1 && w.UpdateStoredVersions? ==>
        var s := cluster.updateStatus(w.name, w.resourceVersion, w.storedVersions);
        (s.StatusFailed? ==> r == (Some(Wrap(s.error, "failed to update CRD storedVersions " + obj.name)), [w]))
        && (s.StatusUpdated? ==>
              (r.1 == [w, Update(obj.(resourceVersion := s.resourceVersion))]
               && r.0 == (if cluster.update(r.1[1].crd).Some? then Some(Wrap(cluster.update(r.1[1].crd).value, "failed to update CRD " + obj.name)) else None)))
  {
  }

  /** The writes for a list of chart CRDs, in order; the first error ends the run. */
  function UpgradeAll(crds: seq<Crd>, cluster: Cluster): (r: (Option<string>, seq<Write>))
  {
    if crds == [] then (None, [])
    else
      var first := UpgradeOne(crds[0], cluster);
      if first.0.Some? then first
      else
        var rest := UpgradeAll(crds[1..], cluster);
        (rest.0, first.1 + rest.1)
  }

  /** A run without error writes to every chart CRD, in chart order, and creates exactly the missing ones. */
  lemma {:induction false} UpgradeAllCreatesMissing(crds: seq<Crd>, cluster: Cluster)
    requires UpgradeAll(crds, cluster).0.None?
    ensures forall c :: c in crds && cluster.fetch(c.name) == NotFound ==> Create(c) in UpgradeAll(crds, cluster).1
    ensures forall w :: w in UpgradeAll(crds, cluster).1 && w.Create? ==> w.crd in crds && cluster.fetch(w.crd.name) == NotFound
    decreases |crds|
  {
    if crds != [] {
      var first := UpgradeOne(crds[0], cluster);
      UpgradeAllCreatesMissing(crds[1..], cluster);
      var rest := UpgradeAll(crds[1..], cluster);
      assert UpgradeAll(crds, cluster).1 == first.1 + rest.1;
      forall w | w in first.1 && w.Create?
        ensures w.crd == crds[0] && cluster.fetch(w.crd.name) == NotFound
      {
        match cluster.fetch(crds[0].name)
        case NotFound =>
        case FetchFailed(e) =>
        case Found(ex) =>
      }
      assert forall c :: c in crds <==> c == crds[0] || c in crds[1..];
    }
  }

  /** The per-CRD decision of `Upgrade`, with the version-name and stored-version loops of the source. */
  method UpgradeCrd(obj: Crd, cluster: Cluster) returns (err: Option<string>, writes: seq<Write>)
    ensures (err, writes) == UpgradeOne(obj, cluster)
  {
    writes := [];
    match cluster.fetch(obj.name)
    case NotFound =>
      writes := [Create(obj)];
      var e := cluster.create(obj);
      if e.Some? {
        return Some(Wrap(e.value, "failed to create CRD " + obj.name)), writes;
      }
      return None, writes;
    case FetchFailed(e) =>
      return Some(Wrap(e, "failed to fetch state of " + obj.name)), writes;
    case Found(existing) =>
      var named := obj.(resourceVersion := existing.resourceVersion);
      if obj.definition.Unconvertible? {
        return Some(Wrap(obj.definition.error, "failed to convert unstructured to CustomResourceDefinition " + obj.name)), writes;
      }
      var updated := VersionNames(obj.definition.versions);
      if existing.storedVersions.Unconvertible? {
        return Some(Wrap(existing.storedVersions.error, "failed to convert unstructured to CustomResourceDefinition " + obj.name)), writes;
      }
      var stored := VersionNames(existing.storedVersions.versions);
      if stored != updated {
        var removed := SomeVersionRemoved(stored, updated);
        if removed {
          writes := [UpdateStoredVersions(obj.name, existing.resourceVersion, updated)];
          var outcome := cluster.updateStatus(obj.name, existing.resourceVersion, updated);
          if outcome.StatusFailed? {
            return Some(Wrap(outcome.error, "failed to update CRD storedVersions " + obj.name)), writes;
          }
          named := named.(resourceVersion := outcome.resourceVersion);
        }
      }
      writes := writes + [Update(named)];
      var e := cluster.update(named);
      if e.Some? {
        return Some(Wrap(e.value, "failed to update CRD " + obj.name)), writes;
      }
      return None, writes;
  }

  /** The loop over the crds directories in `Upgrade` (crds.go:87-92). */
  method CollectChartCrds(paths: seq<string>, contents: string -> seq<FileVisit>) returns (crds: seq<Crd>, err: Option<string>)
    ensures err == CollectCrds(paths, contents).1
    ensures err.None? ==> crds == CollectCrds(paths, contents).0
  {
    crds := [];
    var k := 0;
    assert paths[0..] == paths;
    while k < |paths|
      invariant 0 <= k <= |paths|
      invariant CollectCrds(paths, contents).0 == crds + CollectCrds(paths[k..], contents).0
      invariant CollectCrds(paths, contents).1 == CollectCrds(paths[k..], contents).1
    {
      CollectCrdsUnfold(paths, contents, k);
      crds, err := ParseChartCrds(crds, contents(paths[k]));
      if err.Some? {
        return;
      }
      k := k + 1;
    }
    err := None;
  }

  /** The loop over the collected CRDs in `Upgrade` (crds.go:94-157). */
  method UpgradeCrds(crds: seq<Crd>, cluster: Cluster) returns (err: Option<string>, writes: seq<Write>)
    ensures (err, writes) == UpgradeAll(crds, cluster)
  {
    writes := [];
    var i := 0;
    assert crds[0..] == crds;
    while i < |crds|
      invariant 0 <= i <= |crds|
      invariant UpgradeAll(crds, cluster).0 == UpgradeAll(crds[i..], cluster).0
      invariant UpgradeAll(crds, cluster).1 == writes + UpgradeAll(crds[i..], cluster).1
    {
      assert crds[i..][0] == crds[i] && crds[i..][1..] == crds[i + 1..];
      var w;
      ghost var prev := writes;
      err, w := UpgradeCrd(crds[i], cluster);
      writes := writes + w;
      if err.Some? {
        assert UpgradeAll(crds[i..], cluster) == (err, w);
        return;
      }
      i := i + 1;
    }
    assert crds[|crds|..] == [];
    assert writes + [] == writes;
    err := None;
  }

  /**
   * What `Upgrade` does from the walk of the chart directory on: the crds directories (a walk
   * error is ignored, as in the source), the CRDs they hold, then one create or update per CRD.
   * The writes made before an error stay made.
   */
  function UpgradeOutcome(visits: seq<Visit>, subCharts: seq<string>, contents: string -> seq<FileVisit>, cluster: Cluster): (r: (Result<seq<Crd>>, seq<Write>))
    ensures var dirs := CrdDirs(visits, Keeper(set c | c in subCharts));
      dirs.1.Panic? || CollectCrds(dirs.0, contents).1.Some? ==> r.1 == [] && !r.0.Ok?
    ensures r.0.Ok? ==> (r.0.value == CollectCrds(CrdDirs(visits, Keeper(set c | c in subCharts)).0, contents).0
      && UpgradeAll(r.0.value, cluster) == (None, r.1))
  {
    var dirs := CrdDirs(visits, Keeper(set c | c in subCharts));
    if dirs.1.Panic? then (Panic(dirs.1.reason), [])
    else
      var collected := CollectCrds(dirs.0, contents);
      if collected.1.Some? then (Err(collected.1.value), [])
      else
        var upgraded := UpgradeAll(collected.0, cluster);
        if upgraded.0.Some? then (Err(upgraded.0.value), upgraded.1)
        else (Ok(collected.0), upgraded.1)
  }

  /** `Upgrade` (crds.go:51-160) once the chart directory is in place. */
  method Upgrade(visits: seq<Visit>, subCharts: seq<string>, contents: string -> seq<FileVisit>, cluster: Cluster)
    returns (result: Result<seq<Crd>>, writes: seq<Write>)
    ensures (result, writes) == UpgradeOutcome(visits, subCharts, contents, cluster)
  {
    var paths, status := FindCrdDirs(visits, subCharts);
    writes := [];
    if status.Panic? {
      return Panic(status.reason), writes;
    }
    var crds, err := CollectChartCrds(paths, contents);
    if err.Some? {
      return Err(err.value), writes;
    }
    err, writes := UpgradeCrds(crds, cluster);
    if err.Some? {
      return Err(err.value), writes;
    }
    result := Ok(crds);
  }

  /** The CRDs of a list of directories, in order, and the first error. */
  function CollectCrds(paths: seq<string>, contents: string -> seq<FileVisit>): (r: (seq<Crd>, Option<string>))
  {
    if paths == [] then ([], None)
    else
      var first := DirCrds(contents(paths[0]));
      if first.1.Some? then (first.0, first.1)
      else
        var rest := CollectCrds(paths[1..], contents);
        (first.0 + rest.0, rest.1)
  }

  /** One step of `CollectCrds`: the directory at `k` and the ones after it. */
  lemma {:induction false} CollectCrdsUnfold(paths: seq<string>, contents: string -> seq<FileVisit>, k: nat)
    requires k < |paths|
    ensures var first, here, rest := DirCrds(contents(paths[k])), CollectCrds(paths[k..], contents), CollectCrds(paths[k + 1..], contents);
      here == if first.1.Some? then first else (first.0 + rest.0, rest.1)
  {
    assert paths[k..][0] == paths[k] && paths[k..][1..] == paths[k + 1..];
  }

  /** What the API server does to the stored versions of a CRD it writes: it records the storage version. */
  function ServerStored(stored: seq<string>, storage: string): seq<string>
  {
    if storage in stored then stored else stored + [storage]
  }

  /**
   * The upgrade sequence of the CRD test (crds_test.go:140, 160, 180): serving v1alpha1, then
   * v1alpha1 and v1beta1, then v1beta1 alone leaves the stored versions [v1alpha1],
   * [v1alpha1, v1beta1] and finally [v1beta1].
   */
  lemma {:induction false} StoredVersionsAcrossUpgrades()
    ensures ServerStored([], "v1alpha1") == ["v1alpha1"]
    ensures NewStoredVersions(["v1alpha1"], ["v1alpha1", "v1beta1"]) == None
    ensures ServerStored(["v1alpha1"], "v1beta1") == ["v1alpha1", "v1beta1"]
    ensures NewStoredVersions(["v1alpha1", "v1beta1"], ["v1beta1"]) == Some(["v1beta1"])
    ensures ServerStored(["v1beta1"], "v1beta1") == ["v1beta1"]
    ensures NewStoredVersions(["v1beta1"], ["v1beta1"]) == None
  {
    assert "v1alpha1" in ["v1alpha1", "v1beta1"];
    assert "v1alpha1" in ["v1alpha1", "v1beta1"] && "v1alpha1" !in ["v1beta1"];
  }
}
