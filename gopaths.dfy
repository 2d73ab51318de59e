/**
 * The lexical path operations of Go's `path/filepath` package on a system whose separator is
 * '/': `Clean`, `Base` and `Join`. A path is read as its '/'-separated segments.
 */
module GoPaths {
  import GoStrings

  /** A segment that `Clean` keeps as it is. */
  predicate PlainSegment(seg: string)
  {
    seg != "" && seg != "." && seg != ".."
  }

  /**
   * The segment processing of `Clean`: empty and "." segments vanish, ".." removes the last
   * kept segment, and a ".." that has nothing to remove is kept on a relative path and dropped
   * on a rooted one.
   */
  function Resolve(stack: seq<string>, segs: seq<string>, rooted: bool): (r: seq<string>)
    decreases |segs|
  {
    if segs == [] then stack
    else
      var seg := segs[0];
      if seg == "" || seg == "." then Resolve(stack, segs[1..], rooted)
      else if seg == ".." then
        if |stack| > 0 && stack[|stack| - 1] != ".." then Resolve(stack[..|stack| - 1], segs[1..], rooted)
        else if rooted then Resolve(stack, segs[1..], rooted)
        else Resolve(stack + [".."], segs[1..], rooted)
      else Resolve(stack + [seg], segs[1..], rooted)
  }

  /** Segments that hold only plain segments pass `Resolve` unchanged. */
  lemma {:induction false} ResolvePlain(stack: seq<string>, segs: seq<string>, rooted: bool)
    requires forall i :: 0 <= i < |segs| ==> PlainSegment(segs[i])
    ensures Resolve(stack, segs, rooted) == stack + segs
    decreases |segs|
  {
    if segs != [] {
      ResolvePlain(stack + [segs[0]], segs[1..], rooted);
      assert stack + [segs[0]] + segs[1..] == stack + segs;
    }
  }

  /** `filepath.Clean`: the shortest path naming the same file by purely lexical processing. */
  function Clean(path: string): (r: string)
    ensures r != []
    ensures path != [] && path[0] == '/' ==> r[0] == '/'
  {
    if path == [] then "."
    else
      var rooted := path[0] == '/';
      var body := GoStrings.Join(Resolve([], GoStrings.Split(path, '/'), rooted), '/');
      if rooted then "/" + body
      else if body == [] then "."
      else body
  }

  /** A relative path of plain segments. */
  predicate IsPlainRelative(path: string)
  {
    var segs := GoStrings.Split(path, '/');
    path != [] && forall i :: 0 <= i < |segs| ==> PlainSegment(segs[i])
  }

  /** A relative path made of plain segments is already clean. */
  lemma {:induction false} CleanPlain(path: string)
    requires IsPlainRelative(path)
    ensures Clean(path) == path
  {
    var segs := GoStrings.Split(path, '/');
    PlainNotRooted(path);
    ResolvePlain([], segs, false);
    assert Resolve([], segs, false) == segs;
    GoStrings.JoinSplit(path, '/');
    assert GoStrings.Join(segs, '/') == path;
  }

  /** ... and so is "/" followed by one. */
  lemma {:induction false} CleanPlainRooted(path: string)
    requires IsPlainRelative(path)
    ensures Clean(['/'] + path) == ['/'] + path
  {
    var segs := GoStrings.Split(path, '/');
    var rooted := ['/'] + path;
    var rsegs := GoStrings.Split(rooted, '/');
    RootedSplit(path);
    ResolveSkipsEmpty(segs);
    ResolvePlain([], segs, true);
    var resolved := Resolve([], rsegs, true);
    assert resolved == segs;
    GoStrings.JoinSplit(path, '/');
    var body := GoStrings.Join(resolved, '/');
    assert body == path;
    assert rooted != [] && rooted[0] == '/';
    assert Clean(rooted) == "/" + body;
  }

  lemma {:induction false} RootedSplit(path: string)
    ensures GoStrings.Split(['/'] + path, '/') == [[]] + GoStrings.Split(path, '/')
  {
    GoStrings.SplitAfter([], path, '/');
    assert [] + ['/'] + path == ['/'] + path;
  }

  lemma {:induction false} ResolveSkipsEmpty(segs: seq<string>)
    ensures Resolve([], [[]] + segs, true) == Resolve([], segs, true)
  {
    assert ([[]] + segs)[1..] == segs;
  }

  lemma {:induction false} PlainNotRooted(path: string)
    requires IsPlainRelative(path)
    ensures path[0] != '/'
  {
    var segs := GoStrings.Split(path, '/');
    assert PlainSegment(segs[0]);
    assert '/' in path ==> segs[0] == path[..GoStrings.CharIndex(path, '/')];
  }

  function TrimTrailingSlashes(path: string): (r: string)
    ensures r <= path && (r == [] || r[|r| - 1] != '/')
  {
    if path != [] && path[|path| - 1] == '/' then TrimTrailingSlashes(path[..|path| - 1]) else path
  }

  /** What follows the last '/' of `path`. */
  function LastSegment(path: string): (r: string)
    ensures '/' !in r
    ensures |r| <= |path| && r == path[|path| - |r|..]
    ensures |r| < |path| ==> path[|path| - |r| - 1] == '/'
  {
    if path == [] then []
    else if path[|path| - 1] == '/' then []
    else LastSegment(path[..|path| - 1]) + [path[|path| - 1]]
  }

  /**
   * `filepath.Base`: the last element of the path, without trailing slashes; "." for the empty
   * path and "/" for a path of slashes only.
   */
  function Base(path: string): (r: string)
    ensures r != []
    ensures r == "/" || '/' !in r
  {
    if path == [] then "."
    else
      var trimmed := TrimTrailingSlashes(path);
      var last := LastSegment(trimmed);
      if last == [] then "/" else last
  }

  /** A name with no slash is its own last segment. */
  lemma {:induction false} LastSegmentNoSlash(name: string)
    requires '/' !in name
    ensures LastSegment(name) == name
    decreases |name|
  {
    if name != [] {
      var init, c := name[..|name| - 1], name[|name| - 1];
      assert c != '/' by {
        assert c in name;
      }
      assert '/' !in init by {
        assert forall i :: 0 <= i < |init| ==> init[i] == name[i];
      }
      assert LastSegment(init) == init by {
        LastSegmentNoSlash(init);
      }
      assert LastSegment(name) == LastSegment(init) + [c];
      assert init + [c] == name;
    }
  }

  /** The base of a non-empty name with no slash is the name. */
  lemma {:induction false} BaseOfName(name: string)
    requires name != [] && '/' !in name
    ensures Base(name) == name
  {
    assert name[|name| - 1] in name;
    assert TrimTrailingSlashes(name) == name;
    LastSegmentNoSlash(name);
  }

  /** The base of `dir/name` is `name`, for a name with no slash. */
  lemma {:induction false} BaseOfChild(dir: string, name: string)
    requires name != [] && '/' !in name
    ensures Base(dir + "/" + name) == name
  {
    var p := dir + "/" + name;
    assert p[|p| - 1] == name[|name| - 1];
    assert TrimTrailingSlashes(p) == p;
    LastSegmentAfterSlash(dir + "/", name);
    assert dir + "/" + name == (dir + "/") + name;
  }

  lemma {:induction false} LastSegmentAfterSlash(prefix: string, name: string)
    requires prefix != [] && prefix[|prefix| - 1] == '/' && '/' !in name
    ensures LastSegment(prefix + name) == name
    decreases |name|
  {
    if name == [] {
      assert prefix + name == prefix;
    } else {
      var p := prefix + name;
      assert p[..|p| - 1] == prefix + name[..|name| - 1];
      assert p[|p| - 1] == name[|name| - 1];
      assert name[|name| - 1] in name;
      LastSegmentAfterSlash(prefix, name[..|name| - 1]);
      assert name[..|name| - 1] + [name[|name| - 1]] == name;
    }
  }

  function NonEmpty(elems: seq<string>): (r: seq<string>)
    ensures forall i :: 0 <= i < |r| ==> r[i] != []
  {
    if elems == [] then []
    else if elems[0] == [] then NonEmpty(elems[1..])
    else [elems[0]] + NonEmpty(elems[1..])
  }

  /** `filepath.Join`: the non-empty elements joined by '/' and cleaned; "" when all are empty. */
  function Join(elems: seq<string>): (r: string)
    ensures r == [] <==> NonEmpty(elems) == []
  {
    var parts := NonEmpty(elems);
    if parts == [] then [] else Clean(GoStrings.Join(parts, '/'))
  }
}
