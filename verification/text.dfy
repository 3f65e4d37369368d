/**
 * String primitives of the two runtimes the model draws on: Python's
 * `str.strip()` and `str.lower()` (the scaffolder) and Go's `strings`
 * package (the generated service). Trimming is defined once, over a set
 * of whitespace characters, and each runtime supplies its own set.
 */
module Text {

  /** The characters for which Python's `str.isspace()` holds; `str.strip()` removes them. */
  const PyWhitespace: set<char> := {
    ' ', '\t', '\n', '\r', '\U{0B}', '\U{0C}', '\U{1C}', '\U{1D}', '\U{1E}', '\U{1F}',
    '\U{85}', '\U{A0}', '\U{1680}', '\U{2000}', '\U{2001}', '\U{2002}', '\U{2003}',
    '\U{2004}', '\U{2005}', '\U{2006}', '\U{2007}', '\U{2008}', '\U{2009}', '\U{200A}',
    '\U{2028}', '\U{2029}', '\U{202F}', '\U{205F}', '\U{3000}'
  }

  /** The ASCII bytes Go's `strings.TrimSpace` removes. */
  const GoSpace: set<char> := {'\t', '\n', '\U{0B}', '\U{0C}', '\r', ' '}

  predicate AllIn(s: string, cs: set<char>) {
    forall i :: 0 <= i < |s| ==> s[i] in cs
  }

  predicate HasPrefix(s: string, prefix: string) {
    |prefix| <= |s| && s[..|prefix|] == prefix
  }

  predicate HasSuffix(s: string, suffix: string) {
    |suffix| <= |s| && s[|s| - |suffix|..] == suffix
  }

  /** `m` occurs in `s` starting at index `i`. */
  predicate OccursAt(s: string, m: string, i: int) {
    0 <= i && i + |m| <= |s| && s[i..i + |m|] == m
  }

  /** `m` occurs somewhere inside `s`. */
  predicate Contains(s: string, m: string) {
    exists i :: 0 <= i <= |s| && OccursAt(s, m, i)
  }

  /** Drops the leading characters that belong to `ws`. */
  function TrimLeft(s: string, ws: set<char>): (r: string)
    ensures |r| <= |s| && r == s[|s| - |r|..]
    ensures AllIn(s[..|s| - |r|], ws)
    ensures r == [] || r[0] !in ws
  {
    if |s| > 0 && s[0] in ws then
      var r := TrimLeft(s[1..], ws);
      assert s[1..][..|s| - 1 - |r|] == s[1..|s| - |r|];
      r
    else
      s
  }

  /** Drops the trailing characters that belong to `ws`. */
  function TrimRight(s: string, ws: set<char>): (r: string)
    ensures |r| <= |s| && r == s[..|r|]
    ensures AllIn(s[|r|..], ws)
    ensures r == [] || r[|r| - 1] !in ws
  {
    if |s| > 0 && s[|s| - 1] in ws then
      var t := s[..|s| - 1];
      var r := TrimRight(t, ws);
      assert t[..|r|] == s[..|r|];
      forall j | 0 <= j < |s| - |r| ensures s[|r|..][j] in ws {
        if |r| + j < |t| {
          assert s[|r|..][j] == t[|r|..][j];
        }
      }
      r
    else
      s
  }

  /** Removes leading and trailing characters of `ws`: the result neither starts nor ends with one. */
  function Trim(s: string, ws: set<char>): (r: string)
    ensures |r| <= |s|
    ensures r == [] || (r[0] !in ws && r[|r| - 1] !in ws)
  {
    TrimRight(TrimLeft(s, ws), ws)
  }

  /**
   * The trimmed text is the factor of `s` that starts after the leading
   * run of `ws` characters, with only `ws` characters after it.
   */
  lemma TrimIsFactor(s: string, ws: set<char>)
    ensures var l := TrimLeft(s, ws); var r := Trim(s, ws); var i := |s| - |l|;
      && OccursAt(s, r, i)
      && AllIn(s[..i], ws) && AllIn(s[i + |r|..], ws)
  {
    var l := TrimLeft(s, ws);
    var r := TrimRight(l, ws);
    FactorBetweenRuns(s, ws, |s| - |l|, l, r);
  }

  /** Dropping a run of `ws` from the front of `s`, then from the back of what is left, leaves a factor of `s` between two runs. */
  lemma FactorBetweenRuns(s: string, ws: set<char>, i: nat, l: string, r: string)
    requires i <= |s| && l == s[i..] && AllIn(s[..i], ws)
    requires |r| <= |l| && r == l[..|r|] && AllIn(l[|r|..], ws)
    ensures OccursAt(s, r, i) && AllIn(s[..i], ws) && AllIn(s[i + |r|..], ws)
  {
    PrefixOfSuffix(s, i, l, r);
  }

  /** A prefix `r` of the suffix `l` of `s` starting at `i` is the factor of `s` at `i`, followed by the rest of `l`. */
  lemma PrefixOfSuffix(s: string, i: nat, l: string, r: string)
    requires i <= |s| && l == s[i..]
    requires |r| <= |l| && r == l[..|r|]
    ensures OccursAt(s, r, i) && s[i + |r|..] == l[|r|..]
  {
  }

  /** Python's `str.strip()` with no argument. */
  function PyStrip(s: string): string {
    Trim(s, PyWhitespace)
  }

  lemma StripEmpty()
    ensures PyStrip("") == ""
  {
  }

  /** `s` neither starts nor ends with Python whitespace. */
  predicate IsStripped(s: string) {
    s == [] || (s[0] !in PyWhitespace && s[|s| - 1] !in PyWhitespace)
  }

  /** A stripped string neither starts nor ends with whitespace. */
  lemma StripEnds(s: string)
    ensures IsStripped(PyStrip(s))
  {
  }

  /** Go's `strings.TrimSpace`, restricted to ASCII whitespace. */
  function TrimSpace(s: string): string {
    Trim(s, GoSpace)
  }

  /** A trimmed string is a fixed point of trimming. */
  lemma TrimIdempotent(s: string, ws: set<char>)
    ensures Trim(Trim(s, ws), ws) == Trim(s, ws)
  {
  }

  /**
   * Trimming never cuts into a factor that starts and ends with a
   * non-whitespace character: such a factor of `s` is a factor of `Trim(s)`.
   */
  lemma TrimKeepsInnerFactor(s: string, ws: set<char>, k: nat, m: string)
    requires |m| > 0 && m[0] !in ws && m[|m| - 1] !in ws
    requires k + |m| <= |s| && s[k..k + |m|] == m
    ensures Contains(Trim(s, ws), m)
  {
    var r := Trim(s, ws);
    var i := |s| - |TrimLeft(s, ws)|;
    assert OccursAt(s, r, i) && AllIn(s[..i], ws) && AllIn(s[i + |r|..], ws) by {
      TrimIsFactor(s, ws);
    }
    assert OccursAt(r, m, k - i) by {
      InnerFactor(s, ws, r, i, k, m);
    }
  }

  /** A factor that starts and ends outside `ws` lies within the part of `s` that runs of `ws` surround. */
  lemma InnerFactor(s: string, ws: set<char>, r: string, i: nat, k: nat, m: string)
    requires OccursAt(s, r, i) && AllIn(s[..i], ws) && AllIn(s[i + |r|..], ws)
    requires |m| > 0 && m[0] !in ws && m[|m| - 1] !in ws
    requires OccursAt(s, m, k)
    ensures OccursAt(r, m, k - i)
  {
    EndsOfFactor(s, m, k);
    LeadingRun(s, ws, i);
    TrailingRun(s, ws, i + |r|);
    FactorInside(s, r, i, m, k);
  }

  /** Every character of a leading run of `ws` characters is in `ws`. */
  lemma LeadingRun(s: string, ws: set<char>, i: nat)
    requires i <= |s| && AllIn(s[..i], ws)
    ensures forall k :: 0 <= k < i ==> s[k] in ws
  {
    forall k | 0 <= k < i ensures s[k] in ws {
      assert s[..i][k] == s[k];
    }
  }

  /** Every character of a trailing run of `ws` characters is in `ws`. */
  lemma TrailingRun(s: string, ws: set<char>, j: nat)
    requires j <= |s| && AllIn(s[j..], ws)
    ensures forall k :: j <= k < |s| ==> s[k] in ws
  {
    forall k | j <= k < |s| ensures s[k] in ws {
      assert s[j..][k - j] == s[k];
    }
  }

  lemma EndsOfFactor(s: string, m: string, k: nat)
    requires OccursAt(s, m, k) && |m| > 0
    ensures s[k] == m[0] && s[k + |m| - 1] == m[|m| - 1]
  {
    assert s[k..k + |m|][0] == s[k];
    assert s[k..k + |m|][|m| - 1] == s[k + |m| - 1];
  }

  /** A factor of `a` lying within the factor `b` is a factor of `b`. */
  lemma FactorInside(a: string, b: string, i: nat, c: string, k: nat)
    requires OccursAt(a, b, i) && OccursAt(a, c, k)
    requires i <= k && k + |c| <= i + |b|
    ensures OccursAt(b, c, k - i)
  {
    assert forall t :: 0 <= t < |c| ==> c[t] == a[k + t] == b[k - i + t];
  }

  /** A prefix is the factor at index 0. */
  lemma PrefixOccurs(s: string, p: string)
    requires HasPrefix(s, p)
    ensures OccursAt(s, p, 0)
  {
    assert s[0..|p|] == s[..|p|];
  }

  /** A character absent from a string is absent from each of its factors. */
  lemma FactorLacks(a: string, b: string, i: nat, c: char)
    requires OccursAt(a, b, i) && c !in a
    ensures c !in b
  {
    forall k | 0 <= k < |b| ensures b[k] != c {
      assert b[k] == a[i + k];
    }
  }

  /** A factor of a factor is a factor. */
  lemma FactorOfFactor(a: string, b: string, i: nat, c: string, j: nat)
    requires OccursAt(a, b, i) && OccursAt(b, c, j)
    ensures OccursAt(a, c, i + j)
  {
    assert forall k :: 0 <= k < |c| ==> c[k] == b[j + k] == a[i + j + k];
  }

  /** A string that neither starts nor ends with whitespace loses exactly one trailing newline to trimming. */
  lemma TrimDropsFinalNewline(s: string, ws: set<char>)
    requires |s| > 0 && s[0] !in ws && s[|s| - 1] !in ws && '\n' in ws
    ensures Trim(s + "\n", ws) == s
  {
    var t := s + "\n";
    assert t[0] == s[0] && t[|t| - 1] == '\n';
    assert TrimLeft(t, ws) == t;
    assert t[..|t| - 1] == s;
    assert TrimRight(t, ws) == TrimRight(s, ws);
    assert TrimRight(s, ws) == s;
  }

  function LowerChar(c: char): char {
    if 'A' <= c <= 'Z' then (c as int + 32) as char else c
  }

  function UpperChar(c: char): char {
    if 'a' <= c <= 'z' then (c as int - 32) as char else c
  }

  /** ASCII lower-casing, character by character. */
  function Lower(s: string): (r: string)
    ensures |r| == |s|
    ensures forall i :: 0 <= i < |s| ==> r[i] == LowerChar(s[i])
  {
    seq(|s|, i requires 0 <= i < |s| => LowerChar(s[i]))
  }

  /** ASCII upper-casing, character by character. */
  function Upper(s: string): (r: string)
    ensures |r| == |s|
    ensures forall i :: 0 <= i < |s| ==> r[i] == UpperChar(s[i])
  {
    seq(|s|, i requires 0 <= i < |s| => UpperChar(s[i]))
  }

  lemma LowerIdempotent(s: string)
    ensures Lower(Lower(s)) == Lower(s)
  {
  }

  /** Go's `strings.TrimSuffix`: removes one occurrence of `suffix` at the end, if present. */
  function TrimSuffix(s: string, suffix: string): (r: string)
    ensures HasSuffix(s, suffix) ==> r + suffix == s
    ensures !HasSuffix(s, suffix) ==> r == s
  {
    if HasSuffix(s, suffix) then s[..|s| - |suffix|] else s
  }

  /** `strings.Split(s, "\n")[0]`: the text before the first newline, or all of `s`. */
  function FirstLine(s: string): (r: string)
    ensures HasPrefix(s, r)
    ensures '\n' !in r
    ensures |r| < |s| ==> s[|r|] == '\n'
  {
    if |s| == 0 || s[0] == '\n' then [] else [s[0]] + FirstLine(s[1..])
  }
}
