/**
 * String helpers shared by every module: the subset of Go's `strings`
 * package (and Python's `str`) that the modelled code uses.
 * A string is a sequence of characters; one character stands for one
 * byte of the Go string unless a module says otherwise.
 */
module Text {

  /** `sub` occurs in `s` starting at index `j`. */
  predicate MatchAt(s: string, sub: string, j: int)
  {
    0 <= j && j + |sub| <= |s| && s[j..j + |sub|] == sub
  }

  /** The first match of `sub` at or after `k`, or -1. */
  function IndexFrom(s: string, sub: string, k: nat): (r: int)
    requires k <= |s|
    ensures r == -1 || (k <= r && r + |sub| <= |s|)
    decreases |s| - k
  {
    if k + |sub| > |s| then -1
    else if s[k..k + |sub|] == sub then k
    else if k == |s| then -1
    else IndexFrom(s, sub, k + 1)
  }

  /** Go `strings.Index`: the first index of `sub` in `s`, or -1. */
  function Index(s: string, sub: string): (r: int)
    ensures r == -1 || (0 <= r && r + |sub| <= |s|)
  {
    IndexFrom(s, sub, 0)
  }

  lemma {:induction false} IndexFromSpec(s: string, sub: string, k: nat)
    requires k <= |s|
    ensures var r := IndexFrom(s, sub, k);
            && (r == -1 || MatchAt(s, sub, r))
            && (r == -1 ==> forall j :: k <= j <= |s| - |sub| ==> !MatchAt(s, sub, j))
            && (r >= 0 ==> forall j :: k <= j < r ==> !MatchAt(s, sub, j))
    decreases |s| - k
  {
    if k + |sub| <= |s| && s[k..k + |sub|] != sub && k < |s| {
      IndexFromSpec(s, sub, k + 1);
    }
  }

  /** Index finds the first match, and -1 means there is none. */
  lemma IndexSpec(s: string, sub: string)
    ensures var r := Index(s, sub);
            && (r == -1 || MatchAt(s, sub, r))
            && (r == -1 ==> forall j :: 0 <= j <= |s| - |sub| ==> !MatchAt(s, sub, j))
            && (r >= 0 ==> forall j :: 0 <= j < r ==> !MatchAt(s, sub, j))
  {
    IndexFromSpec(s, sub, 0);
  }

  /** Go `strings.Contains`. */
  predicate Contains(s: string, sub: string)
  {
    Index(s, sub) >= 0
  }

  lemma ContainsAt(s: string, sub: string, j: int)
    requires MatchAt(s, sub, j)
    ensures Contains(s, sub)
  {
    IndexSpec(s, sub);
  }

  predicate HasPrefix(s: string, p: string)
  {
    |p| <= |s| && s[..|p|] == p
  }

  predicate HasSuffix(s: string, p: string)
  {
    |p| <= |s| && s[|s| - |p|..] == p
  }

  /** Go `strings.TrimSuffix`. */
  function TrimSuffix(s: string, p: string): string
  {
    if HasSuffix(s, p) then s[..|s| - |p|] else s
  }

  /** White space as Go's `unicode.IsSpace` sees it in the ASCII range. */
  predicate IsSpace(c: char)
  {
    c == ' ' || c == '\t' || c == '\n' || c == '\r' || c == '\U{B}' || c == '\U{C}'
  }

  predicate AllSpace(s: string)
  {
    forall i :: 0 <= i < |s| ==> IsSpace(s[i])
  }

  function TrimLeftSpace(s: string): (r: string)
    ensures |r| <= |s|
    ensures r == [] || !IsSpace(r[0])
  {
    if s != [] && IsSpace(s[0]) then TrimLeftSpace(s[1..]) else s
  }

  function TrimRightSpace(s: string): (r: string)
    ensures |r| <= |s|
  {
    if s != [] && IsSpace(s[|s| - 1]) then TrimRightSpace(s[..|s| - 1]) else s
  }

  /** Go `strings.TrimSpace` (Python `str.strip()`). */
  function TrimSpace(s: string): (r: string)
    ensures |r| <= |s|
  {
    TrimRightSpace(TrimLeftSpace(s))
  }

  /** Go `strings.TrimRight(s, set)`: drop trailing characters found in `set`. */
  function TrimRightSet(s: string, set_: set<char>): (r: string)
    ensures |r| <= |s| && s[..|r|] == r
    ensures r == [] || r[|r| - 1] !in set_
    ensures forall i :: |r| <= i < |s| ==> s[i] in set_
  {
    if s != [] && s[|s| - 1] in set_ then TrimRightSet(s[..|s| - 1], set_) else s
  }

  /** Go `strings.Trim(s, set)`. */
  function TrimLeftSet(s: string, set_: set<char>): (r: string)
    ensures |r| <= |s|
    ensures r == [] || r[0] !in set_
  {
    if s != [] && s[0] in set_ then TrimLeftSet(s[1..], set_) else s
  }

  function TrimSet(s: string, set_: set<char>): (r: string)
    ensures |r| <= |s|
  {
    TrimRightSet(TrimLeftSet(s, set_), set_)
  }

  function LowerChar(c: char): char
  {
    if 'A' <= c <= 'Z' then (c as int + 32) as char else c
  }

  /** Go `strings.ToLower` on the ASCII letters. */
  function Lower(s: string): (r: string)
    ensures |r| == |s|
    ensures forall i :: 0 <= i < |s| ==> r[i] == LowerChar(s[i])
  {
    if s == [] then [] else [LowerChar(s[0])] + Lower(s[1..])
  }

  /** Go `strings.Join`. */
  function Join(parts: seq<string>, sep: string): string
  {
    if |parts| == 0 then ""
    else if |parts| == 1 then parts[0]
    else parts[0] + sep + Join(parts[1..], sep)
  }

  /** Go `strings.Split` for a non-empty separator. */
  function Split(s: string, sep: string): (r: seq<string>)
    requires sep != []
    ensures |r| >= 1
    decreases |s|
  {
    var i := Index(s, sep);
    if i < 0 then [s] else [s[..i]] + Split(s[i + |sep|..], sep)
  }

  /** Go `strings.Fields`: the maximal runs of non-space characters. */
  function Fields(s: string): (r: seq<string>)
    ensures forall w <- r :: IsWord(w)
    decreases |s|
  {
    var t := TrimLeftSpace(s);
    if t == [] then []
    else
      var w := Word(t);
      var rest := t[|w|..];
      assert |rest| < |s|;
      var more := Fields(rest);
      [w] + more
  }

  /** A non-empty run of non-space characters. */
  predicate IsWord(s: string)
  {
    |s| > 0 && NoSpace(s)
  }

  predicate NoSpace(s: string)
  {
    forall i :: 0 <= i < |s| ==> !IsSpace(s[i])
  }

  /** The leading run of non-space characters. */
  function Word(s: string): (r: string)
    requires s != [] && !IsSpace(s[0])
    ensures r != [] && |r| <= |s| && s[..|r|] == r
    ensures NoSpace(r)
  {
    if |s| == 1 || IsSpace(s[1]) then s[..1] else s[..1] + Word(s[1..])
  }

  /** Replace every occurrence of the character `c` by `rep`. */
  function ReplaceChar(s: string, c: char, rep: string): (r: string)
    ensures c !in rep ==> c !in r
  {
    if s == [] then ""
    else (if s[0] == c then rep else [s[0]]) + ReplaceChar(s[1..], c, rep)
  }

  function DigitChar(d: nat): char
    requires d < 10
  {
    ('0' as int + d) as char
  }

  /** Decimal rendering of a natural number, as `%d` prints it. */
  function NatToString(n: nat): (r: string)
    ensures r != []
  {
    if n < 10 then [DigitChar(n)] else NatToString(n / 10) + [DigitChar(n % 10)]
  }

  /** Decimal rendering of an integer, as `%d` prints it. */
  function IntToString(n: int): (r: string)
    ensures r != []
  {
    if n < 0 then "-" + NatToString(-n) else NatToString(n)
  }

  /** Go `%q` for text without control characters: quotes, with `\` and `"` escaped. */
  function Quote(s: string): (r: string)
    ensures |r| >= 2 && r[0] == '"' && r[|r| - 1] == '"'
  {
    "\"" + ReplaceChar(ReplaceChar(s, '\\', "\\\\"), '"', "\\\"") + "\""
  }

  /** Every character of a join comes from one of the parts or from the separator. */
  lemma {:induction false} JoinMembers(parts: seq<string>, sep: string, c: char)
    requires c in Join(parts, sep)
    ensures c in sep || exists p <- parts :: c in p
    decreases |parts|
  {
    if |parts| > 1 {
      var rest := Join(parts[1..], sep);
      assert Join(parts, sep) == parts[0] + sep + rest;
      if c !in parts[0] && c !in sep {
        assert c in rest;
        JoinMembers(parts[1..], sep, c);
        var p :| p in parts[1..] && c in p;
        assert p in parts;
      }
    }
  }

  /** A string of white space trims to nothing. */
  lemma {:induction false} TrimLeftAllSpace(s: string)
    requires AllSpace(s)
    ensures TrimLeftSpace(s) == []
    decreases |s|
  {
    if s != [] {
      TrimLeftAllSpace(s[1..]);
    }
  }

  /** Lower-casing keeps white space white space. */
  lemma LowerAllSpace(s: string)
    requires AllSpace(s)
    ensures AllSpace(Lower(s))
  {
  }

  /** A string of white space has no fields. */
  lemma FieldsOfBlank(s: string)
    requires AllSpace(s)
    ensures Fields(s) == []
  {
    TrimLeftAllSpace(s);
  }

  /** The last match of `sub` in `s` that starts before `k`, or -1. */
  function LastIndexBefore(s: string, sub: string, k: nat): (r: int)
    requires k <= |s|
    ensures r == -1 || (0 <= r < k && MatchAt(s, sub, r))
  {
    if k == 0 then -1
    else if MatchAt(s, sub, k - 1) then k - 1
    else LastIndexBefore(s, sub, k - 1)
  }

  /** Go `strings.LastIndex`. */
  function LastIndex(s: string, sub: string): (r: int)
    ensures r == -1 || MatchAt(s, sub, r)
  {
    LastIndexBefore(s, sub, |s|)
  }

  /** A match inside a slice is a match in the whole string. */
  lemma MatchInSlice(s: string, a: nat, b: nat, sub: string, j: int)
    requires a <= b <= |s| && MatchAt(s[a..b], sub, j)
    ensures MatchAt(s, sub, a + j)
  {
    var t := s[a..b];
    var u := s[a + j..a + j + |sub|];
    assert forall i :: 0 <= i < |sub| ==> t[j + i] == u[i];
    assert t[j..j + |sub|] == u;
  }

  /** A string without `sub` has no slice containing it. */
  lemma NoMatchInSlice(s: string, a: nat, b: nat, sub: string)
    requires a <= b <= |s| && !Contains(s, sub)
    ensures !Contains(s[a..b], sub)
  {
    var t := s[a..b];
    IndexSpec(t, sub);
    if Index(t, sub) >= 0 {
      MatchInSlice(s, a, b, sub, Index(t, sub));
      ContainsAt(s, sub, a + Index(t, sub));
    }
  }

  lemma {:induction false} TrimLeftSpaceSlice(s: string)
    ensures s[|s| - |TrimLeftSpace(s)|..] == TrimLeftSpace(s)
  {
    if s != [] && IsSpace(s[0]) {
      TrimLeftSpaceSlice(s[1..]);
    }
  }

  lemma {:induction false} TrimRightSpaceSlice(s: string)
    ensures s[..|TrimRightSpace(s)|] == TrimRightSpace(s)
    ensures TrimRightSpace(s) == [] || !IsSpace(TrimRightSpace(s)[|TrimRightSpace(s)| - 1])
  {
    if s != [] && IsSpace(s[|s| - 1]) {
      TrimRightSpaceSlice(s[..|s| - 1]);
    }
  }

  /**
   * TrimSpace yields a slice of its input with no white space at either end.
   */
  function TrimSpaceStart(s: string): nat
  {
    |s| - |TrimLeftSpace(s)|
  }

  lemma TrimSpaceShape(s: string)
    ensures var r := TrimSpace(s);
            var a := TrimSpaceStart(s);
            && a + |r| <= |s| && s[a..a + |r|] == r
            && (r == [] || (!IsSpace(r[0]) && !IsSpace(r[|r| - 1])))
  {
    var l := TrimLeftSpace(s);
    var r := TrimSpace(s);
    TrimLeftSpaceSlice(s);
    TrimRightSpaceSlice(l);
    var a := |s| - |l|;
    assert s[a..a + |r|] == l[..|r|] == r;
  }

  /** A string without `sub` keeps none after TrimSpace. */
  lemma TrimSpaceNoMatch(s: string, sub: string)
    requires !Contains(s, sub)
    ensures !Contains(TrimSpace(s), sub)
  {
    TrimSpaceShape(s);
    var r := TrimSpace(s);
    var a := TrimSpaceStart(s);
    NoMatchInSlice(s, a, a + |r|, sub);
  }

  /** The first `n` bytes of a long string followed by "...", a short one whole. */
  function FirstN(s: string, n: nat): (r: string)
    ensures |s| <= n ==> r == s
    ensures |s| > n ==> |r| == n + 3 && r[..n] == s[..n] && HasSuffix(r, "...")
  {
    if |s| <= n then s else s[..n] + "..."
  }
}
