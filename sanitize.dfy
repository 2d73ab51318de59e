/**
 * `CleanupForKubernetes` (pkg/registration/sanitize_strings.go): a name that is not a valid
 * DNS-1035 label (section 2.3.1 of RFC 1035, at most 63 characters) is lower-cased, its
 * underscores become dashes, and the leftmost matches of `[a-z]([-a-z0-9]*[a-z0-9])?` are
 * concatenated.
 */
module Sanitize {
  import opened Seqs

  const MaxLabelLength := 63

  predicate IsLower(c: char) { 'a' <= c <= 'z' }

  predicate IsAlnum(c: char) { IsLower(c) || '0' <= c <= '9' }

  predicate IsLabelChar(c: char) { IsAlnum(c) || c == '-' }

  predicate LabelChars(s: string)
  {
    forall i :: 0 <= i < |s| ==> IsLabelChar(s[i])
  }

  /** `s` matches `^[a-z]([-a-z0-9]*[a-z0-9])?$` as a whole. */
  predicate LabelShaped(s: string)
  {
    |s| > 0 && IsLower(s[0]) && IsAlnum(s[|s| - 1]) && LabelChars(s)
  }

  /** `validation.IsDNS1035Label` reports no error. */
  predicate IsDns1035Label(s: string)
  {
    LabelShaped(s) && |s| <= MaxLabelLength
  }

  /**
   * `unicode.ToLower` as far as it can produce a label character: ASCII capitals, and the two
   * non-ASCII runes whose lower case is ASCII (DOTTED CAPITAL I and the KELVIN SIGN). Every other
   * rune is kept as is.
   */
  function ToLowerChar(c: char): (l: char)
    ensures IsLabelChar(c) ==> l == c
    ensures 'A' <= c <= 'Z' ==> l as int == c as int + 32
  {
    if 'A' <= c <= 'Z' then (c as int + 32) as char
    else if c == '\U{0130}' then 'i'
    else if c == '\U{212A}' then 'k'
    else c
  }

  /** `strings.ToLower` followed by `strings.ReplaceAll(_, "_", "-")`, rune by rune. */
  function Prepare(s: string): (t: string)
    ensures |t| == |s|
    ensures forall i :: 0 <= i < |s| ==> t[i] == (if s[i] == '_' then '-' else ToLowerChar(s[i]))
  {
    if s == [] then []
    else [if s[0] == '_' then '-' else ToLowerChar(s[0])] + Prepare(s[1..])
  }

  /** The end of the run of label characters that starts at `i`. */
  function RunEnd(s: string, i: nat): (k: nat)
    requires i <= |s|
    ensures i <= k <= |s| && (k == |s| || !IsLabelChar(s[k]))
    ensures forall j :: i <= j < k ==> IsLabelChar(s[j])
    decreases |s| - i
  {
    if i == |s| || !IsLabelChar(s[i]) then i else RunEnd(s, i + 1)
  }

  /** One past the last letter or digit in `s[i..k]`, given that `s[i]` is one. */
  function LastAlnumEnd(s: string, i: nat, k: nat): (e: nat)
    requires i < k <= |s| && IsAlnum(s[i])
    ensures i < e <= k && IsAlnum(s[e - 1])
    ensures forall j :: e <= j < k ==> !IsAlnum(s[j])
    decreases k
  {
    if IsAlnum(s[k - 1]) then k else LastAlnumEnd(s, i, k - 1)
  }

  /**
   * The end of the regular expression's match starting at letter `s[i]`: the match is
   * label-shaped and no longer substring from `i` is.
   */
  function MatchEnd(s: string, i: nat): (e: nat)
    requires i < |s| && IsLower(s[i])
    ensures i < e <= |s| && LabelShaped(s[i..e])
    ensures forall e' :: e < e' <= |s| ==> !LabelShaped(s[i..e'])
  {
    var k := RunEnd(s, i);
    var e := LastAlnumEnd(s, i, k);
    assert LabelShaped(s[i..e]) by {
      assert forall j :: 0 <= j < e - i ==> s[i..e][j] == s[i + j];
    }
    e
  }

  /** `FindAllString(s[from..], -1)`: the successive leftmost non-overlapping matches. */
  function FindAll(s: string, from: nat): (parts: seq<string>)
    requires from <= |s|
    ensures forall p :: p in parts ==> LabelShaped(p)
    decreases |s| - from
  {
    if from == |s| then []
    else if !IsLower(s[from]) then FindAll(s, from + 1)
    else
      var e := MatchEnd(s, from);
      [s[from..e]] + FindAll(s, e)
  }

  /** `strings.Join(parts, "")`. */
  function Concat(parts: seq<string>): string
  {
    if parts == [] then [] else parts[0] + Concat(parts[1..])
  }

  /** `CleanupForKubernetes` (sanitize_strings.go:13-25). */
  function CleanupForKubernetes(input: string): (r: string)
    ensures IsDns1035Label(input) ==> r == input
    ensures r == [] || LabelShaped(r)
    ensures |r| > 0 && |r| <= MaxLabelLength ==> IsDns1035Label(r)
  {
    if !IsDns1035Label(input) then
      var parts := FindAll(Prepare(input), 0);
      ConcatShaped(parts);
      Concat(parts)
    else input
  }

  /** Label-shaped pieces concatenate to a label-shaped string. */
  lemma {:induction false} ConcatShaped(parts: seq<string>)
    requires forall p :: p in parts ==> LabelShaped(p)
    ensures Concat(parts) == [] || LabelShaped(Concat(parts))
  {
    if parts != [] {
      var rest := Concat(parts[1..]);
      assert forall p :: p in parts[1..] ==> p in parts;
      ConcatShaped(parts[1..]);
      assert parts[0] in parts;
      var c := parts[0] + rest;
      assert c[0] == parts[0][0];
      assert c[|c| - 1] == if rest == [] then parts[0][|parts[0]| - 1] else rest[|rest| - 1];
      assert forall i :: 0 <= i < |c| ==> c[i] == if i < |parts[0]| then parts[0][i] else rest[i - |parts[0]|];
    }
  }

  lemma {:induction false} FindAllSubsequence(s: string, from: nat)
    requires from <= |s|
    ensures Subsequence(Concat(FindAll(s, from)), s[from..])
    decreases |s| - from
  {
    if from < |s| {
      if !IsLower(s[from]) {
        FindAllSubsequence(s, from + 1);
        FindAllSkips(s, from);
        SubsequenceDrop(s[from], Concat(FindAll(s, from + 1)), s[from + 1..]);
      } else {
        var e := MatchEnd(s, from);
        FindAllSubsequence(s, e);
        FindAllTakes(s, from);
        SubsequenceOfPrefixed(s[from..e], Concat(FindAll(s, e)), s[e..]);
        assert s[from..] == s[from..e] + s[e..];
      }
    }
  }

  /** A position that does not start a match is skipped. */
  lemma {:induction false} FindAllSkips(s: string, from: nat)
    requires from < |s| && !IsLower(s[from])
    ensures FindAll(s, from) == FindAll(s, from + 1)
    ensures s[from..] == [s[from]] + s[from + 1..]
  {
  }

  /** A letter starts a match, which is joined in front of the later ones. */
  lemma {:induction false} FindAllTakes(s: string, from: nat)
    requires from < |s| && IsLower(s[from])
    ensures Concat(FindAll(s, from)) == s[from..MatchEnd(s, from)] + Concat(FindAll(s, MatchEnd(s, from)))
  {
    var e := MatchEnd(s, from);
    var parts := FindAll(s, from);
    assert parts == [s[from..e]] + FindAll(s, e);
    assert parts[1..] == FindAll(s, e);
  }

  /** A repaired name keeps characters of the prepared input, in order, and adds none. */
  lemma {:induction false} RepairIsSubsequence(input: string)
    requires !IsDns1035Label(input)
    ensures Subsequence(CleanupForKubernetes(input), Prepare(input))
  {
    FindAllSubsequence(Prepare(input), 0);
    assert Prepare(input)[0..] == Prepare(input);
  }

  /**
   * Cleaning a cleaned name again changes nothing: a short result is a label and is kept, and a
   * result too long for a label is a single match of the expression.
   */
  lemma {:induction false} CleanupIdempotent(input: string)
    ensures CleanupForKubernetes(CleanupForKubernetes(input)) == CleanupForKubernetes(input)
  {
    var r := CleanupForKubernetes(input);
    if r == [] {
      assert !IsDns1035Label(r);
      assert FindAll(Prepare(r), 0) == [];
    } else if !IsDns1035Label(r) {
      PrepareLabelChars(r);
      FindAllOfLabel(r);
      var single: seq<string> := [r];
      assert Concat(single) == r by {
        assert single[1..] == [];
      }
    }
  }

  /** Lowering and dashing leaves a string of label characters alone. */
  lemma {:induction false} PrepareLabelChars(s: string)
    requires LabelChars(s)
    ensures Prepare(s) == s
  {
    assert forall i :: 0 <= i < |s| ==> s[i] != '_' && ToLowerChar(s[i]) == s[i];
  }

  /** A label-shaped string is one match of the expression, from its start to its end. */
  lemma {:induction false} FindAllOfLabel(r: string)
    requires LabelShaped(r)
    ensures FindAll(r, 0) == [r]
  {
    RunEndOfLabelChars(r, 0);
    assert LastAlnumEnd(r, 0, |r|) == |r|;
    assert MatchEnd(r, 0) == |r|;
    assert FindAll(r, |r|) == [];
    assert r[0..|r|] == r;
  }

  /** In a string of label characters the run from any position reaches the end. */
  lemma {:induction false} RunEndOfLabelChars(s: string, i: nat)
    requires i <= |s| && LabelChars(s)
    ensures RunEnd(s, i) == |s|
    decreases |s| - i
  {
    if i < |s| {
      RunEndOfLabelChars(s, i + 1);
    }
  }

  /** Capitals are lowered and the underscore becomes a dash. */
  lemma {:induction false} CleanupLowersAndDashes()
    ensures CleanupForKubernetes("A_b") == "a-b"
  {
    assert !IsDns1035Label("A_b") by { assert !IsLower("A_b"[0]); }
    var t := Prepare("A_b");
    assert t == "a-b" by {
      assert Prepare("b") == "b";
      assert Prepare("_b") == "-b";
    }
    assert RunEnd(t, 0) == 3;
    assert LastAlnumEnd(t, 0, 3) == 3;
    assert FindAll(t, 3) == [];
    assert t[0..3] == t;
  }

  /** A character outside the label alphabet splits the name into matches that are joined. */
  lemma {:induction false} CleanupDropsDots()
    ensures CleanupForKubernetes("a.b") == "ab"
  {
    var s := "a.b";
    assert !IsDns1035Label(s) by { assert !IsLabelChar(s[1]); }
    var parts := FindAll(Prepare(s), 0);
    assert parts == ["a", "b"] by {
      PrepareDots();
      FindAllDots();
    }
    assert Concat(parts) == "ab" by {
      assert parts[1..] == ["b"] && ["b"][1..] == [];
    }
  }

  lemma {:induction false} PrepareDots()
    ensures Prepare("a.b") == "a.b"
  {
    assert Prepare("b") == "b";
    assert Prepare(".b") == ".b";
  }

  lemma {:induction false} FindAllDots()
    ensures FindAll("a.b", 0) == ["a", "b"]
  {
    var t := "a.b";
    assert RunEnd(t, 0) == 1 && LastAlnumEnd(t, 0, 1) == 1;
    assert RunEnd(t, 2) == 3 && LastAlnumEnd(t, 2, 3) == 3;
    assert FindAll(t, 3) == [];
    assert t[2..3] == "b";
    assert FindAll(t, 2) == ["b"];
    assert FindAll(t, 1) == ["b"];
    assert t[0..1] == "a";
  }
}
