/**
 * The small part of Go's `strings` and `strconv` packages that the modelled code relies on,
 * over strings as sequences of runes.
 */
module GoStrings {

  predicate IsDigit(c: char)
  {
    '0' <= c <= '9'
  }

  predicate AllDigits(s: string)
  {
    forall i :: 0 <= i < |s| ==> IsDigit(s[i])
  }

  function DigitChar(d: nat): (c: char)
    requires d < 10
    ensures IsDigit(c) && c as int - '0' as int == d
  {
    ('0' as int + d) as char
  }

  /** `fmt.Sprintf("%d", n)` for a non-negative `n`: decimal digits, no leading zero. */
  function DecimalString(n: nat): (s: string)
    ensures |s| > 0 && AllDigits(s)
    ensures s[0] == '0' ==> n == 0
    decreases n
  {
    if n < 10 then [DigitChar(n)] else DecimalString(n / 10) + [DigitChar(n % 10)]
  }

  /** The value of a string of decimal digits. */
  function DecimalValue(s: string): nat
    requires AllDigits(s)
  {
    if s == [] then 0 else DecimalValue(s[..|s| - 1]) * 10 + (s[|s| - 1] as int - '0' as int)
  }

  /** Reading back what `%d` printed gives the number again. */
  lemma {:induction false} DecimalRoundTrip(n: nat)
    ensures DecimalValue(DecimalString(n)) == n
    decreases n
  {
    if n >= 10 {
      var s := DecimalString(n);
      assert s[..|s| - 1] == DecimalString(n / 10);
      DecimalRoundTrip(n / 10);
    }
  }

  /** The largest Go `int` on a 64-bit platform. */
  const MaxInt: nat := 0x7fff_ffff_ffff_ffff

  /**
   * `strconv.Atoi` on a non-empty string of decimal digits: its value, or the largest `int`
   * (with a range error, which the callers here ignore) when it does not fit.
   */
  function Atoi(s: string): (n: nat)
    requires AllDigits(s)
    ensures n <= MaxInt
    ensures DecimalValue(s) <= MaxInt ==> n == DecimalValue(s)
  {
    var v := DecimalValue(s);
    if v <= MaxInt then v else MaxInt
  }

  /** `sub` occurs in `s` at index `i`. */
  predicate OccursAt(s: string, sub: string, i: int)
  {
    0 <= i && i + |sub| <= |s| && s[i..i + |sub|] == sub
  }

  function IndexFrom(s: string, sub: string, from: nat): (r: int)
    requires from <= |s|
    ensures r == -1 || (from <= r && OccursAt(s, sub, r))
    ensures r == -1 ==> forall j :: from <= j ==> !OccursAt(s, sub, j)
    ensures r != -1 ==> forall j :: from <= j < r ==> !OccursAt(s, sub, j)
    decreases |s| - from
  {
    if from + |sub| > |s| then -1
    else if s[from..from + |sub|] == sub then from
    else IndexFrom(s, sub, from + 1)
  }

  /** `strings.Index`: the first index at which `sub` occurs in `s`, or -1. */
  function Index(s: string, sub: string): (r: int)
    ensures r == -1 || OccursAt(s, sub, r)
    ensures r == -1 <==> forall j :: !OccursAt(s, sub, j)
    ensures forall j :: 0 <= j < r ==> !OccursAt(s, sub, j)
  {
    IndexFrom(s, sub, 0)
  }

  /** `strings.Contains`. */
  predicate Contains(s: string, sub: string)
  {
    Index(s, sub) != -1
  }

  /** `strings.HasPrefix`. */
  predicate HasPrefix(s: string, prefix: string)
  {
    prefix <= s
  }

  /** `unicode.IsSpace`: the Latin-1 spaces and the other runes with the White_Space property. */
  predicate IsSpace(c: char)
  {
    c == '\t' || c == '\n' || c == '\U{000B}' || c == '\U{000C}' || c == '\r' || c == ' '
    || c == '\U{0085}' || c == '\U{00A0}' || c == '\U{1680}' || ('\U{2000}' <= c <= '\U{200A}')
    || c == '\U{2028}' || c == '\U{2029}' || c == '\U{202F}' || c == '\U{205F}' || c == '\U{3000}'
  }

  /** The number of spaces at the start of `s`. */
  function LeadingSpaces(s: string): (n: nat)
    ensures n <= |s| && (n == |s| || !IsSpace(s[n]))
    ensures forall i :: 0 <= i < n ==> IsSpace(s[i])
  {
    if |s| > 0 && IsSpace(s[0]) then 1 + LeadingSpaces(s[1..]) else 0
  }

  function TrimRightSpace(s: string): (r: string)
    ensures |r| <= |s| && r == s[..|r|]
    ensures r == [] || !IsSpace(r[|r| - 1])
    ensures forall i :: |r| <= i < |s| ==> IsSpace(s[i])
  {
    if |s| > 0 && IsSpace(s[|s| - 1]) then TrimRightSpace(s[..|s| - 1]) else s
  }

  /**
   * `strings.TrimSpace`: the middle of `s` that remains when every leading and every trailing
   * space is removed.
   */
  function TrimSpace(s: string): (r: string)
    ensures var a := LeadingSpaces(s);
      a + |r| <= |s| && r == s[a..a + |r|] && forall i :: a + |r| <= i < |s| ==> IsSpace(s[i])
    ensures r == [] || (!IsSpace(r[0]) && !IsSpace(r[|r| - 1]))
  {
    TrimRightSpace(s[LeadingSpaces(s)..])
  }

  lemma {:induction false} TrimSpaceIdempotent(s: string)
    ensures TrimSpace(TrimSpace(s)) == TrimSpace(s)
  {
    var t := TrimSpace(s);
    assert LeadingSpaces(t) == 0;
    if t != [] {
      assert TrimRightSpace(t) == t;
    }
  }

  /** The first index of `c` in `s`. */
  function CharIndex(s: string, c: char): (i: nat)
    requires c in s
    ensures i < |s| && s[i] == c && c !in s[..i]
  {
    if s[0] == c then 0 else 1 + CharIndex(s[1..], c)
  }

  /** `strings.Split` on a one-rune separator. */
  function Split(s: string, sep: char): (parts: seq<string>)
    ensures |parts| >= 1
    ensures |parts| == 1 <==> sep !in s
    ensures sep !in s ==> parts == [s]
    ensures forall i :: 0 <= i < |parts| ==> sep !in parts[i]
    decreases |s|
  {
    if sep !in s then [s]
    else
      var i := CharIndex(s, sep);
      [s[..i]] + Split(s[i + 1..], sep)
  }

  /** Splitting at the first separator: the part before it, then the split of the rest. */
  lemma {:induction false} SplitAfter(a: string, b: string, sep: char)
    requires sep !in a
    ensures Split(a + [sep] + b, sep) == [a] + Split(b, sep)
  {
    var s := a + [sep] + b;
    var i := CharIndex(s, sep);
    assert s[|a|] == sep && s[..|a|] == a;
    assert i <= |a| ==> s[..i] == a[..i];
    assert i == |a|;
    assert s[..i] == a && s[i + 1..] == b;
  }

  /** `strings.Join` with a one-rune separator. */
  function Join(parts: seq<string>, sep: char): string
  {
    if parts == [] then []
    else if |parts| == 1 then parts[0]
    else parts[0] + [sep] + Join(parts[1..], sep)
  }

  /** Joining parts that hold no separator and splitting again gives back the parts. */
  lemma {:induction false} SplitJoin(parts: seq<string>, sep: char)
    requires |parts| >= 1
    requires forall i :: 0 <= i < |parts| ==> sep !in parts[i]
    ensures Split(Join(parts, sep), sep) == parts
    decreases |parts|
  {
    if |parts| > 1 {
      var rest := parts[1..];
      var j := Join(rest, sep);
      assert Split(j, sep) == rest by {
        assert forall i :: 0 <= i < |rest| ==> rest[i] == parts[i + 1];
        SplitJoin(rest, sep);
      }
      assert Join(parts, sep) == parts[0] + [sep] + j;
      assert Split(parts[0] + [sep] + j, sep) == [parts[0]] + rest by {
        SplitAfter(parts[0], j, sep);
      }
      assert [parts[0]] + rest == parts;
    }
  }

  /** Joining one more part adds a separator and the part. */
  lemma {:induction false} JoinSnoc(parts: seq<string>, last: string, sep: char)
    requires |parts| >= 1
    ensures Join(parts + [last], sep) == Join(parts, sep) + [sep] + last
    decreases |parts|
  {
    if |parts| == 1 {
      assert (parts + [last])[1..] == [last];
    } else {
      JoinSnoc(parts[1..], last, sep);
      assert (parts + [last])[1..] == parts[1..] + [last];
    }
  }

  /** Each line followed by the separator, as a writer that ends every line does. */
  function Terminated(lines: seq<string>, sep: char): string
  {
    if lines == [] then [] else lines[0] + [sep] + Terminated(lines[1..], sep)
  }

  /** Splitting separator-terminated lines gives the lines and one empty part after the last. */
  lemma {:induction false} SplitTerminated(lines: seq<string>, sep: char)
    requires forall i :: 0 <= i < |lines| ==> sep !in lines[i]
    ensures Split(Terminated(lines, sep), sep) == lines + [[]]
    decreases |lines|
  {
    if lines == [] {
      assert Terminated(lines, sep) == [];
    } else {
      var rest := lines[1..];
      assert Split(Terminated(rest, sep), sep) == rest + [[]] by {
        assert forall i :: 0 <= i < |rest| ==> rest[i] == lines[i + 1];
        SplitTerminated(rest, sep);
      }
      assert Split(Terminated(lines, sep), sep) == [lines[0]] + Split(Terminated(rest, sep), sep) by {
        SplitTerminatedFirst(lines, sep);
      }
      FirstAndRest(lines, []);
    }
  }

  /** A non-empty sequence is its first element followed by the rest. */
  lemma {:induction false} FirstAndRest<T>(xs: seq<T>, tail: T)
    requires xs != []
    ensures [xs[0]] + (xs[1..] + [tail]) == xs + [tail]
  {
    assert [xs[0]] + xs[1..] == xs;
  }

  lemma {:induction false} SplitTerminatedFirst(lines: seq<string>, sep: char)
    requires lines != [] && sep !in lines[0]
    ensures Split(Terminated(lines, sep), sep) == [lines[0]] + Split(Terminated(lines[1..], sep), sep)
  {
    assert Terminated(lines, sep) == lines[0] + [sep] + Terminated(lines[1..], sep);
    SplitAfter(lines[0], Terminated(lines[1..], sep), sep);
  }

  /** Splitting and joining again gives back the string. */
  lemma {:induction false} JoinSplit(s: string, sep: char)
    ensures Join(Split(s, sep), sep) == s
    decreases |s|
  {
    if sep in s {
      var i := CharIndex(s, sep);
      var rest := Split(s[i + 1..], sep);
      var parts := [s[..i]] + rest;
      JoinSplit(s[i + 1..], sep);
      assert Split(s, sep) == parts;
      assert |parts| > 1 && parts[0] == s[..i] && parts[1..] == rest;
      assert Join(parts, sep) == s[..i] + [sep] + s[i + 1..];
      AroundIndex(s, i);
    }
  }

  /** A string is the part before an index, the rune there and the part after it. */
  lemma {:induction false} AroundIndex(s: string, i: nat)
    requires i < |s|
    ensures s == s[..i] + [s[i]] + s[i + 1..]
  {
    assert s[..i] + [s[i]] == s[..i + 1];
    assert s[..i + 1] + s[i + 1..] == s;
  }
}
