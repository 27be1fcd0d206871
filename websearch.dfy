/**
 * Rendering of a web search response: at most five pages, each as its
 * title, its summary (or snippet), its publication day and its URL, with
 * a blank line between pages.
 */
module WebSearch {
  import opened Text

  /** At most this many pages are rendered. */
  const MaxResults: nat := 5

  datatype WebPage = WebPage(name: string, url: string, snippet: string, summary: string, siteName: string, datePublished: string)

  /** The publication date is absent, or long enough to cut its first ten characters (the day). */
  predicate DateOk(p: WebPage)
  {
    p.datePublished == "" || |p.datePublished| >= 10
  }

  predicate AllDatesOk(pages: seq<WebPage>)
  {
    forall i :: 0 <= i < |pages| ==> DateOk(pages[i])
  }

  /** Every page that is rendered has a usable date. */
  predicate DatesOk(pages: seq<WebPage>)
  {
    AllDatesOk(Shown(pages))
  }

  /** The summary when there is one, else the snippet. */
  function PageText(p: WebPage): string
  {
    if p.summary != "" then p.summary else p.snippet
  }

  /** One page: title line, text line if any, day and URL line. */
  function Block(p: WebPage): string
    requires DateOk(p)
  {
    p.name + "\n"
      + (if PageText(p) != "" then PageText(p) + "\n" else "")
      + (if p.datePublished != "" then p.datePublished[..10] + " " else "")
      + p.url + "\n"
  }

  /** Blocks stacked in order, each after the first preceded by one more newline. */
  function Stack(blocks: seq<string>): string
  {
    if blocks == [] then ""
    else Stack(blocks[..|blocks| - 1]) + (if |blocks| > 1 then "\n" else "") + blocks[|blocks| - 1]
  }

  function Blocks(pages: seq<WebPage>): (bs: seq<string>)
    requires AllDatesOk(pages)
    ensures |bs| == |pages|
  {
    seq(|pages|, k requires 0 <= k < |pages| => Block(pages[k]))
  }

  function Shown(pages: seq<WebPage>): seq<WebPage>
  {
    if |pages| <= MaxResults then pages else pages[..MaxResults]
  }

  /** formatBochaResult, as a value. */
  function Formatted(query: string, pages: seq<WebPage>): string
    requires DatesOk(pages)
  {
    if pages == [] then "No results found for: " + Quote(query)
    else TrimRightSet(Stack(Blocks(Shown(pages))), {'\n'})
  }

  /** One page's lines, written one after another. */
  method WritePage(p: WebPage) returns (b: string)
    requires DateOk(p)
    ensures b == Block(p)
  {
    b := p.name + "\n";
    var text := p.snippet;
    if p.summary != "" {
      text := p.summary;
    }
    if text != "" {
      b := b + text + "\n";
    }
    if p.datePublished != "" {
      b := b + p.datePublished[..10] + " ";
    }
    b := b + p.url + "\n";
  }

  /** formatBochaResult: the loop with its cap and break, then the trailing newlines trimmed. */
  method FormatBochaResult(query: string, pages: seq<WebPage>) returns (r: string)
    requires DatesOk(pages)
    ensures r == Formatted(query, pages)
  {
    if |pages| == 0 {
      return "No results found for: " + Quote(query);
    }
    ghost var bs := Blocks(Shown(pages));
    var sb := "";
    var i := 0;
    while i < |pages|
      invariant 0 <= i <= |pages| && i <= MaxResults
      invariant sb == Stack(bs[..i])
    {
      if i >= MaxResults {
        break;
      }
      var sep := if i > 0 then "\n" else "";
      var b := WritePage(pages[i]);
      assert b == bs[i];
      assert bs[..i + 1][..i] == bs[..i];
      sb := sb + sep + b;
      i := i + 1;
    }
    assert bs[..i] == bs;
    r := TrimRightSet(sb, {'\n'});
  }

  // ---------------------------------------------------------------------
  // Properties
  // ---------------------------------------------------------------------

  /** No pages: the not-found line quoting the query. */
  lemma NoResults(query: string)
    ensures Formatted(query, []) == "No results found for: " + Quote(query)
  {
  }

  /** Pages after the fifth never show. */
  lemma CapSpec(query: string, pages: seq<WebPage>)
    requires DatesOk(pages) && |pages| > MaxResults
    ensures DatesOk(pages[..MaxResults])
    ensures Formatted(query, pages) == Formatted(query, pages[..MaxResults])
  {
    assert pages[..MaxResults][..MaxResults] == pages[..MaxResults];
  }

  /**
   * A block starts with the title line, ends with the URL line, and holds a
   * text line exactly when the summary or snippet is non-empty, the
   * summary winning; the day is the date's first ten characters.
   */
  lemma BlockSpec(p: WebPage)
    requires DateOk(p)
    ensures var b := Block(p);
            && b[..|p.name| + 1] == p.name + "\n"
            && |b| >= |p.url| + 1 && b[|b| - |p.url| - 1..] == p.url + "\n"
            && (p.summary != "" ==> b[|p.name| + 1..|p.name| + 1 + |p.summary| + 1] == p.summary + "\n")
            && (p.summary == "" && p.snippet != "" ==> b[|p.name| + 1..|p.name| + 1 + |p.snippet| + 1] == p.snippet + "\n")
            && (p.summary == "" && p.snippet == "" && p.datePublished == "" ==> b == p.name + "\n" + p.url + "\n")
  {
  }

  /** Every earlier stack is a prefix of a later one. */
  lemma {:induction false} StackPrefix(blocks: seq<string>, i: nat)
    requires i <= |blocks|
    ensures Stack(blocks[..i]) <= Stack(blocks)
    decreases |blocks| - i
  {
    if i < |blocks| {
      StackPrefix(blocks, i + 1);
      assert blocks[..i + 1][..i] == blocks[..i];
    } else {
      assert blocks[..i] == blocks;
    }
  }

  /**
   * Each block appears whole in the stack, right after the blocks before
   * it and, from the second block on, one newline.
   */
  lemma BlockInStack(blocks: seq<string>, i: nat)
    requires i < |blocks|
    ensures var at := |Stack(blocks[..i])| + (if i > 0 then 1 else 0);
            && at + |blocks[i]| <= |Stack(blocks)|
            && Stack(blocks)[at..at + |blocks[i]|] == blocks[i]
            && (i > 0 ==> Stack(blocks)[at - 1] == '\n')
            && (i > 0 && blocks[i - 1] != [] ==> Stack(blocks)[at - 2] == blocks[i - 1][|blocks[i - 1]| - 1])
  {
    StackPrefix(blocks, i + 1);
    assert blocks[..i + 1][..i] == blocks[..i];
    var b := Stack(blocks[..i + 1]);
    var at := |Stack(blocks[..i])| + (if i > 0 then 1 else 0);
    assert b == Stack(blocks[..i]) + (if i > 0 then "\n" else "") + blocks[i];
    assert Stack(blocks)[..|b|] == b;
    if i > 0 {
      assert blocks[..i][..i - 1] == blocks[..i - 1];
      assert Stack(blocks[..i]) == Stack(blocks[..i - 1]) + (if i > 1 then "\n" else "") + blocks[i - 1];
    }
  }

  lemma BlockEndsInNewline(p: WebPage)
    requires DateOk(p)
    ensures Block(p) != [] && Block(p)[|Block(p)| - 1] == '\n'
  {
  }

  /**
   * Each shown page's block appears whole in the output's body; from the
   * second page on it follows a blank line, since every block ends with
   * a newline.
   */
  lemma PageShown(pages: seq<WebPage>, i: nat)
    requires AllDatesOk(pages) && i < |pages|
    ensures var body := Stack(Blocks(pages));
            var at := |Stack(Blocks(pages)[..i])| + (if i > 0 then 1 else 0);
            && at + |Block(pages[i])| <= |body|
            && body[at..at + |Block(pages[i])|] == Block(pages[i])
            && (i > 0 ==> body[at - 2..at] == "\n\n")
  {
    var bs := Blocks(pages);
    BlockInStack(bs, i);
    if i > 0 {
      BlockEndsInNewline(pages[i - 1]);
    }
  }

  /** The result is the body of the shown pages up to its trailing newlines. */
  lemma TrimSpec(query: string, pages: seq<WebPage>)
    requires DatesOk(pages) && pages != []
    ensures var body := Stack(Blocks(Shown(pages)));
            var r := Formatted(query, pages);
            && r <= body
            && (forall k :: |r| <= k < |body| ==> body[k] == '\n')
            && (r == [] || r[|r| - 1] != '\n')
  {
  }
}
