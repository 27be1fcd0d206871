/**
 * File search by name through the Spotlight index: one query, and when it
 * finds nothing and the name has an extension, a second query on the stem
 * whose hits are filtered back to that extension. The query text reaches
 * the shell single-quoted.
 */
module Mdfind {
  import opened Text

  // ---------------------------------------------------------------------
  // Shell quoting
  // ---------------------------------------------------------------------

  const QuoteEscape: string := "'\\''"

  /** shellQuote: wrap in single quotes, each inner quote closed, escaped and reopened. */
  function ShellQuote(s: string): string
  {
    "'" + ReplaceChar(s, '\'', QuoteEscape) + "'"
  }

  function Cons(c: char, r: Option<string>): Option<string>
  {
    if r.Some? then Some([c] + r.value) else None
  }

  datatype Option<T> = None | Some(value: T)

  /**
   * How a POSIX shell reads a word made of single-quoted runs,
   * backslash-escaped characters and plain characters; None for an
   * unterminated quote or a trailing backslash.
   */
  function ShellRead(w: string, quoted: bool): Option<string>
  {
    if w == [] then (if quoted then None else Some(""))
    else if quoted then
      if w[0] == '\'' then ShellRead(w[1..], false) else Cons(w[0], ShellRead(w[1..], true))
    else if w[0] == '\'' then ShellRead(w[1..], true)
    else if w[0] == '\\' then (if |w| >= 2 then Cons(w[1], ShellRead(w[2..], false)) else None)
    else Cons(w[0], ShellRead(w[1..], false))
  }

  lemma {:induction false} ReadQuotedRun(s: string)
    ensures ShellRead(ReplaceChar(s, '\'', QuoteEscape) + "'", true) == Some(s)
  {
    if s != [] {
      var rest := ReplaceChar(s[1..], '\'', QuoteEscape) + "'";
      ReadQuotedRun(s[1..]);
      if s[0] == '\'' {
        var w := QuoteEscape + rest;
        assert ReplaceChar(s, '\'', QuoteEscape) + "'" == w;
        assert w[1..] == "\\''" + rest;
        assert w[1..][2..] == "'" + rest;
        assert ("'" + rest)[1..] == rest;
        assert ShellRead(w[1..], false) == Cons('\'', ShellRead("'" + rest, false));
        assert [s[0]] + s[1..] == s;
      } else {
        var w := [s[0]] + rest;
        assert ReplaceChar(s, '\'', QuoteEscape) + "'" == w;
        assert w[1..] == rest;
        assert [s[0]] + s[1..] == s;
      }
    }
  }

  /** The shell reads back exactly the quoted text, whatever quotes it holds. */
  lemma ShellQuoteRoundTrip(s: string)
    ensures ShellRead(ShellQuote(s), false) == Some(s)
  {
    ReadQuotedRun(s);
    assert ShellQuote(s)[1..] == ReplaceChar(s, '\'', QuoteEscape) + "'";
  }

  // ---------------------------------------------------------------------
  // Extensions
  // ---------------------------------------------------------------------

  /** filepath.Ext: from the last dot of the last path element, or "". */
  function Ext(p: string): (r: string)
  {
    ExtBefore(p, |p|)
  }

  function ExtBefore(p: string, n: nat): string
    requires n <= |p|
  {
    if n == 0 then ""
    else if p[n - 1] == '/' then ""
    else if p[n - 1] == '.' then p[n - 1..]
    else ExtBefore(p, n - 1)
  }

  /** An element's extension is empty, or a dot and what follows it up to the end, with no dot or separator after. */
  lemma {:induction false} ExtBeforeSpec(p: string, n: nat)
    requires n <= |p| && forall k :: n <= k < |p| ==> p[k] != '.' && p[k] != '/'
    ensures var r := ExtBefore(p, n);
            r == "" || (r[0] == '.' && HasSuffix(p, r) && forall k :: 1 <= k < |r| ==> r[k] != '.' && r[k] != '/')
  {
    if n > 0 && p[n - 1] != '/' && p[n - 1] != '.' {
      ExtBeforeSpec(p, n - 1);
    } else if n > 0 && p[n - 1] == '.' {
      var r := p[n - 1..];
      assert forall k :: 1 <= k < |r| ==> r[k] == p[n - 1 + k];
    }
  }

  lemma ExtSpec(p: string)
    ensures var r := Ext(p);
            r == "" || (r[0] == '.' && HasSuffix(p, r) && forall k :: 1 <= k < |r| ==> r[k] != '.' && r[k] != '/')
  {
    ExtBeforeSpec(p, |p|);
  }

  // ---------------------------------------------------------------------
  // The search
  // ---------------------------------------------------------------------

  /** The outcome of one mdfind query: its trimmed output, or the shell error. */
  datatype Found = Found(out: string) | Failed(err: string)

  /** The lines that end with the extension, in order. */
  function Matching(lines: seq<string>, ext: string): seq<string>
  {
    if lines == [] then []
    else Matching(lines[..|lines| - 1], ext) + (if HasSuffix(lines[|lines| - 1], ext) then [lines[|lines| - 1]] else [])
  }

  /** The post-filter loop. */
  method FilterByExt(lines: seq<string>, ext: string) returns (filtered: seq<string>)
    ensures filtered == Matching(lines, ext)
  {
    filtered := [];
    for i := 0 to |lines|
      invariant filtered == Matching(lines[..i], ext)
    {
      assert lines[..i + 1][..i] == lines[..i];
      if HasSuffix(lines[i], ext) {
        filtered := filtered + [lines[i]];
      } else {
        assert filtered == filtered + [];
      }
    }
    assert lines[..|lines|] == lines;
  }

  /** Exactly the lines ending with the extension are kept, and in their order. */
  lemma {:induction false} MatchingSpec(lines: seq<string>, ext: string)
    ensures forall l <- Matching(lines, ext) :: HasSuffix(l, ext)
    ensures forall l <- lines :: HasSuffix(l, ext) ==> l in Matching(lines, ext)
    ensures |Matching(lines, ext)| <= |lines|
  {
    if lines != [] {
      var init := lines[..|lines| - 1];
      MatchingSpec(init, ext);
      assert lines == init + [lines[|lines| - 1]];
    }
  }

  function NotFound(query: string): string
  {
    "(no files found with name matching " + Quote(query) + ")"
  }

  /** RunMdfind, as a value; `query` runs one mdfind query. */
  function Search(run: string -> Found, query: string): Found
  {
    var first := run(query);
    if first.Failed? then first
    else if first.out != "" then first
    else
      var ext := Ext(query);
      if ext == "" then Found(NotFound(query))
      else
        var second := run(TrimSuffix(query, ext));
        if second.Found? && second.out != "" && Matching(Split(second.out, "\n"), ext) != [] then
          Found(Join(Matching(Split(second.out, "\n"), ext), "\n"))
        else Found(NotFound(query))
  }

  /** RunMdfind: the first query, then the retry on the stem with the post-filter. */
  method RunMdfind(run: string -> Found, query: string) returns (r: Found)
    ensures r == Search(run, query)
  {
    var result := run(query);
    if result.Failed? {
      return result;
    }
    if result.out != "" {
      return result;
    }
    var ext := Ext(query);
    if ext != "" {
      var stem := TrimSuffix(query, ext);
      var result2 := run(stem);
      if result2.Found? && result2.out != "" {
        var filtered := FilterByExt(Split(result2.out, "\n"), ext);
        if |filtered| > 0 {
          return Found(Join(filtered, "\n"));
        }
      }
    }
    return Found(NotFound(query));
  }

  /**
   * The first query's error or non-empty output is the answer; a retry
   * happens only for a name with an extension, runs on the name without
   * it, and its errors are swallowed; every other case is the not-found
   * line quoting the name.
   */
  lemma SearchSpec(run: string -> Found, query: string)
    ensures run(query).Failed? ==> Search(run, query) == run(query)
    ensures run(query).Found? && run(query).out != "" ==> Search(run, query) == run(query)
    ensures run(query) == Found("") && Ext(query) == "" ==> Search(run, query) == Found(NotFound(query))
    ensures run(query) == Found("") && Ext(query) != "" && run(TrimSuffix(query, Ext(query))).Failed? ==>
              Search(run, query) == Found(NotFound(query))
    ensures Search(run, query).Failed? ==> Search(run, query) == run(query)
  {
  }

  /** A retry answer is made only of stem hits that carry the original extension. */
  lemma RetrySpec(run: string -> Found, query: string)
    requires run(query) == Found("") && Ext(query) != ""
    requires Search(run, query) != Found(NotFound(query))
    ensures var hits := Split(run(TrimSuffix(query, Ext(query))).out, "\n");
            && run(TrimSuffix(query, Ext(query))).Found?
            && Search(run, query) == Found(Join(Matching(hits, Ext(query)), "\n"))
            && Matching(hits, Ext(query)) != []
            && (forall l <- Matching(hits, Ext(query)) :: l in hits && HasSuffix(l, Ext(query)))
  {
    var hits := Split(run(TrimSuffix(query, Ext(query))).out, "\n");
    MatchingSpec(hits, Ext(query));
    MatchingSubset(hits, Ext(query));
  }

  lemma {:induction false} MatchingSubset(lines: seq<string>, ext: string)
    ensures forall l <- Matching(lines, ext) :: l in lines
  {
    if lines != [] {
      MatchingSubset(lines[..|lines| - 1], ext);
      assert lines == lines[..|lines| - 1] + [lines[|lines| - 1]];
    }
  }
}
