/**
 * The tech-news script: read the first entries of five RSS feeds, keep
 * those from the last 24 hours (and undated ones), sort them newest first
 * with undated entries last, and list the top ten. Feed downloading and
 * parsing is a parameter (`fetch`, by URL), as are the current time and
 * the date formatter; times are whole seconds since the Unix epoch, UTC.
 */
module TechNews {
  import opened Text

  datatype Option<T> = None | Some(value: T)

  const PerFeedCap: nat := 5
  const TopCount: nat := 10
  const Day: int := 24 * 60 * 60
  /** datetime.min (0001-01-01 00:00 UTC), the sort key of an undated entry. */
  const MinStamp: int := -62135596800

  /**
   * A parsed feed entry. A date field is None when it is missing or
   * empty; a missing title makes the attribute lookup raise.
   */
  datatype FeedEntry = FeedEntry(title: Option<string>, published: Option<int>, updated: Option<int>, link: Option<string>)

  /** The result of parsing one feed URL: its entries, or an exception. */
  datatype Fetched = Parsed(entries: seq<FeedEntry>) | Raised

  /** One collected headline. */
  datatype Item = Item(headline: string, source: string, date: Option<int>, link: string)

  datatype Feed = Feed(url: string, name: string)

  const Feeds: seq<Feed> := [
    Feed("https://techcrunch.com/feed/", "TechCrunch"),
    Feed("https://www.theverge.com/rss/index.xml", "The Verge"),
    Feed("https://www.wired.com/feed/rss", "Wired"),
    Feed("https://arstechnica.com/feed/", "Ars Technica"),
    Feed("https://feeds.bbci.co.uk/news/technology/rss.xml", "BBC Tech")]

  function Min(a: nat, b: nat): nat
  {
    if a <= b then a else b
  }

  // ---------------------------------------------------------------------
  // fetch_feed
  // ---------------------------------------------------------------------

  /** The entry's date: its publication date, else its update date, else none. */
  function DateOf(e: FeedEntry): Option<int>
  {
    if e.published.Some? then e.published else e.updated
  }

  function ItemOf(e: FeedEntry, source: string): Item
    requires e.title.Some?
  {
    Item(e.title.value, source, DateOf(e), if e.link.Some? then e.link.value else "")
  }

  /** The items of some entries, or None when one of them has no title. */
  function Items(es: seq<FeedEntry>, source: string): Option<seq<Item>>
  {
    if es == [] then Some([])
    else
      var init := Items(es[..|es| - 1], source);
      var e := es[|es| - 1];
      if init.None? || e.title.None? then None else Some(init.value + [ItemOf(e, source)])
  }

  /** fetch_feed, as a value: any exception makes the feed contribute nothing. */
  function FeedItems(f: Fetched, source: string): seq<Item>
  {
    if f.Raised? then []
    else
      var items := Items(f.entries[..Min(PerFeedCap, |f.entries|)], source);
      if items.None? then [] else items.value
  }

  /** fetch_feed: the first five entries become items, in order. */
  method FetchFeed(f: Fetched, source: string) returns (entries: seq<Item>)
    ensures entries == FeedItems(f, source)
  {
    if f.Raised? {
      return [];
    }
    var es := f.entries[..Min(PerFeedCap, |f.entries|)];
    entries := [];
    for i := 0 to |es|
      invariant Items(es[..i], source) == Some(entries)
    {
      assert es[..i + 1][..i] == es[..i];
      var e := es[i];
      if e.title.None? {
        NoTitleSpoils(es, i + 1, source);
        assert es[..i + 1][i] == e;
        return [];
      }
      var pubDate := None;
      if e.published.Some? {
        pubDate := e.published;
      } else if e.updated.Some? {
        pubDate := e.updated;
      }
      entries := entries + [Item(e.title.value, source, pubDate, if e.link.Some? then e.link.value else "")];
    }
    assert es[..|es|] == es;
  }

  /** Once an entry without a title is read, the whole feed yields nothing. */
  lemma {:induction false} NoTitleSpoils(es: seq<FeedEntry>, n: nat, source: string)
    requires 0 < n <= |es| && es[n - 1].title.None?
    ensures Items(es, source).None?
    decreases |es|
  {
    if n < |es| {
      assert es[..|es| - 1][n - 1] == es[n - 1];
      NoTitleSpoils(es[..|es| - 1], n, source);
    }
  }

  /** Items keeps every entry, in order, when all have titles. */
  lemma {:induction false} ItemsSpec(es: seq<FeedEntry>, source: string)
    ensures Items(es, source).Some? <==> forall i :: 0 <= i < |es| ==> es[i].title.Some?
    ensures Items(es, source).Some? ==>
              && |Items(es, source).value| == |es|
              && forall i :: 0 <= i < |es| ==> Items(es, source).value[i] == ItemOf(es[i], source)
  {
    if es != [] {
      var init := es[..|es| - 1];
      ItemsSpec(init, source);
      if es[|es| - 1].title.Some? && Items(init, source).None? {
        var i :| 0 <= i < |init| && init[i].title.None?;
        assert es[i] == init[i];
      }
    }
  }

  /** The date is the publication date when there is one, else the update date, else none. */
  lemma DateOfSpec(e: FeedEntry)
    ensures e.published.Some? ==> DateOf(e) == e.published
    ensures e.published.None? && e.updated.Some? ==> DateOf(e) == e.updated
    ensures e.published.None? && e.updated.None? ==> DateOf(e).None?
  {
  }

  /**
   * A feed yields at most five items; when it raised, or one of its first
   * five entries has no title, it yields none; otherwise one item per
   * entry among the first five, in order, each with the feed's name.
   */
  lemma FeedItemsSpec(f: Fetched, source: string)
    ensures |FeedItems(f, source)| <= PerFeedCap
    ensures f.Raised? ==> FeedItems(f, source) == []
    ensures f.Parsed? && (forall i :: 0 <= i < Min(PerFeedCap, |f.entries|) ==> f.entries[i].title.Some?) ==>
              && |FeedItems(f, source)| == Min(PerFeedCap, |f.entries|)
              && forall i :: 0 <= i < Min(PerFeedCap, |f.entries|) ==> FeedItems(f, source)[i] == ItemOf(f.entries[i], source)
    ensures f.Parsed? && (exists i :: 0 <= i < Min(PerFeedCap, |f.entries|) && f.entries[i].title.None?) ==>
              FeedItems(f, source) == []
  {
    if f.Parsed? {
      var es := f.entries[..Min(PerFeedCap, |f.entries|)];
      ItemsSpec(es, source);
      if exists i :: 0 <= i < Min(PerFeedCap, |f.entries|) && f.entries[i].title.None? {
        var i :| 0 <= i < Min(PerFeedCap, |f.entries|) && f.entries[i].title.None?;
        assert es[i] == f.entries[i];
      }
    }
  }

  // ---------------------------------------------------------------------
  // Collecting recent entries
  // ---------------------------------------------------------------------

  /** An entry is kept when it is undated or no older than the cutoff. */
  predicate Keep(x: Item, cutoff: int)
  {
    x.date.None? || x.date.value >= cutoff
  }

  /** The kept items, in order. */
  function Recent(items: seq<Item>, cutoff: int): seq<Item>
  {
    if items == [] then []
    else Recent(items[..|items| - 1], cutoff) + (if Keep(items[|items| - 1], cutoff) then [items[|items| - 1]] else [])
  }

  /** The kept items of one feed. */
  function Contribution(fetch: string -> Fetched, f: Feed, cutoff: int): seq<Item>
  {
    Recent(FeedItems(fetch(f.url), f.name), cutoff)
  }

  /** The kept items of every feed, feed by feed. */
  function Collected(fetch: string -> Fetched, feeds: seq<Feed>, cutoff: int): seq<Item>
  {
    if feeds == [] then []
    else Collected(fetch, feeds[..|feeds| - 1], cutoff) + Contribution(fetch, feeds[|feeds| - 1], cutoff)
  }

  /** The collecting loops of main. */
  method Gather(fetch: string -> Fetched, feeds: seq<Feed>, cutoff: int) returns (all: seq<Item>)
    ensures all == Collected(fetch, feeds, cutoff)
  {
    all := [];
    for i := 0 to |feeds|
      invariant all == Collected(fetch, feeds[..i], cutoff)
    {
      assert feeds[..i + 1][..i] == feeds[..i];
      var entries := FetchFeed(fetch(feeds[i].url), feeds[i].name);
      all := AppendRecent(all, entries, cutoff);
    }
    assert feeds[..|feeds|] == feeds;
  }

  /** The inner loop of main: each recent or undated entry of one feed is appended. */
  method AppendRecent(all: seq<Item>, entries: seq<Item>, cutoff: int) returns (all': seq<Item>)
    ensures all' == all + Recent(entries, cutoff)
  {
    all' := all;
    for j := 0 to |entries|
      invariant all' == all + Recent(entries[..j], cutoff)
    {
      assert entries[..j + 1][..j] == entries[..j];
      if Keep(entries[j], cutoff) {
        all' := all' + [entries[j]];
      } else {
        assert all' == all' + [];
      }
    }
    assert entries[..|entries|] == entries;
  }

  /** Exactly the items that are undated or recent are kept, and no more. */
  lemma {:induction false} RecentSpec(items: seq<Item>, cutoff: int)
    ensures forall x :: x in Recent(items, cutoff) <==> x in items && Keep(x, cutoff)
    ensures |Recent(items, cutoff)| <= |items|
  {
    if items != [] {
      var init := items[..|items| - 1];
      RecentSpec(init, cutoff);
      assert items == init + [items[|items| - 1]];
    }
  }

  /** Collecting over two lists of feeds is collecting over each, one after the other. */
  lemma {:induction false} CollectedAppend(fetch: string -> Fetched, a: seq<Feed>, b: seq<Feed>, cutoff: int)
    ensures Collected(fetch, a + b, cutoff) == Collected(fetch, a, cutoff) + Collected(fetch, b, cutoff)
    decreases |b|
  {
    if b == [] {
      assert a + b == a;
    } else {
      var b' := b[..|b| - 1];
      var f := b[|b| - 1];
      ghost var A, B', C := Collected(fetch, a, cutoff), Collected(fetch, b', cutoff), Contribution(fetch, f, cutoff);
      assert (a + b)[..|a + b| - 1] == a + b';
      assert Collected(fetch, a + b, cutoff) == Collected(fetch, a + b', cutoff) + C;
      CollectedAppend(fetch, a, b', cutoff);
      assert Collected(fetch, b, cutoff) == B' + C;
      AppendAssoc(A, B', C);
    }
  }

  lemma AppendAssoc(x: seq<Item>, y: seq<Item>, z: seq<Item>)
    ensures (x + y) + z == x + (y + z)
  {
  }

  /** A feed that raises drops out on its own: the others are collected as if it were not there. */
  lemma FailureIsolated(fetch: string -> Fetched, a: seq<Feed>, f: Feed, b: seq<Feed>, cutoff: int)
    requires fetch(f.url).Raised?
    ensures Collected(fetch, a + [f] + b, cutoff) == Collected(fetch, a, cutoff) + Collected(fetch, b, cutoff)
  {
    ghost var A, B, F, AF := Collected(fetch, a, cutoff), Collected(fetch, b, cutoff), Collected(fetch, [f], cutoff), Collected(fetch, a + [f], cutoff);
    RaisedSingle(fetch, f, cutoff);
    CollectedAppend(fetch, a + [f], b, cutoff);
    CollectedAppend(fetch, a, [f], cutoff);
    assert AF == A + F;
    assert F == [];
    assert AF == A;
  }

  lemma RaisedSingle(fetch: string -> Fetched, f: Feed, cutoff: int)
    requires fetch(f.url).Raised?
    ensures Collected(fetch, [f], cutoff) == []
  {
    assert [f][..0] == [];
  }

  /** Everything collected came from some feed and passed the filter. */
  lemma {:induction false} CollectedSpec(fetch: string -> Fetched, feeds: seq<Feed>, cutoff: int)
    ensures forall x :: x in Collected(fetch, feeds, cutoff) ==>
              Keep(x, cutoff) && exists f :: f in feeds && x in FeedItems(fetch(f.url), f.name)
  {
    if feeds != [] {
      var init := feeds[..|feeds| - 1];
      var f := feeds[|feeds| - 1];
      CollectedSpec(fetch, init, cutoff);
      RecentSpec(FeedItems(fetch(f.url), f.name), cutoff);
      assert Collected(fetch, feeds, cutoff) == Collected(fetch, init, cutoff) + Recent(FeedItems(fetch(f.url), f.name), cutoff);
      forall x | x in Collected(fetch, feeds, cutoff)
        ensures Keep(x, cutoff) && exists g :: g in feeds && x in FeedItems(fetch(g.url), g.name)
      {
        if x in Collected(fetch, init, cutoff) {
          var g :| g in init && x in FeedItems(fetch(g.url), g.name);
          assert g in feeds;
        } else {
          assert f in feeds;
        }
      }
    }
  }

  // ---------------------------------------------------------------------
  // The sort
  // ---------------------------------------------------------------------

  /** The sort key: the date, or datetime.min for an undated entry. */
  function Key(x: Item): int
  {
    if x.date.Some? then x.date.value else MinStamp
  }

  /** Newest first. */
  predicate Sorted(s: seq<Item>)
  {
    forall i, j :: 0 <= i < j < |s| ==> Key(s[i]) >= Key(s[j])
  }

  /** The items with key k, in order. */
  function WithKey(s: seq<Item>, k: int): seq<Item>
  {
    if s == [] then []
    else WithKey(s[..|s| - 1], k) + (if Key(s[|s| - 1]) == k then [s[|s| - 1]] else [])
  }

  /** x placed after every element whose key is at least its own. */
  function Insert(t: seq<Item>, x: Item): (r: seq<Item>)
    ensures |r| == |t| + 1
  {
    if t == [] || Key(t[|t| - 1]) >= Key(x) then t + [x]
    else Insert(t[..|t| - 1], x) + [t[|t| - 1]]
  }

  /** A stable sort by descending key, as list.sort with reverse=True performs it. */
  function SortDesc(s: seq<Item>): (r: seq<Item>)
    ensures |r| == |s|
  {
    if s == [] then [] else Insert(SortDesc(s[..|s| - 1]), s[|s| - 1])
  }

  /** Every element of an insertion is x or an element of t. */
  lemma {:induction false} InsertMultiset(t: seq<Item>, x: Item)
    ensures multiset(Insert(t, x)) == multiset(t) + multiset{x}
  {
    if t != [] && Key(t[|t| - 1]) < Key(x) {
      var init := t[..|t| - 1];
      InsertMultiset(init, x);
      assert t == init + [t[|t| - 1]];
    }
  }

  lemma {:induction false} InsertSorted(t: seq<Item>, x: Item)
    requires Sorted(t)
    ensures Sorted(Insert(t, x))
  {
    if t != [] && Key(t[|t| - 1]) < Key(x) {
      var init := t[..|t| - 1];
      var last := t[|t| - 1];
      InsertSorted(init, x);
      InsertMultiset(init, x);
      var r' := Insert(init, x);
      forall i | 0 <= i < |r'|
        ensures Key(r'[i]) >= Key(last)
      {
        assert r'[i] in multiset(init) + multiset{x};
        if r'[i] != x {
          var m :| 0 <= m < |init| && init[m] == r'[i];
          assert t[m] == init[m];
        }
      }
      assert Insert(t, x) == r' + [last];
    }
  }

  /** Inserting x appends it to the items of its own key and leaves the other keys alone. */
  lemma {:induction false} InsertWithKey(t: seq<Item>, x: Item, k: int)
    ensures WithKey(Insert(t, x), k) == WithKey(t, k) + (if Key(x) == k then [x] else [])
  {
    var r := Insert(t, x);
    if t == [] || Key(t[|t| - 1]) >= Key(x) {
      assert r[..|r| - 1] == t;
    } else {
      var init := t[..|t| - 1];
      var last := t[|t| - 1];
      InsertWithKey(init, x, k);
      assert r[..|r| - 1] == Insert(init, x);
      assert WithKey(t, k) == WithKey(init, k) + (if Key(last) == k then [last] else []);
    }
  }

  lemma {:induction false} SortDescSpec(s: seq<Item>)
    ensures Sorted(SortDesc(s))
    ensures multiset(SortDesc(s)) == multiset(s)
    ensures forall k :: WithKey(SortDesc(s), k) == WithKey(s, k)
  {
    SortDescSorted(s);
    forall k
      ensures WithKey(SortDesc(s), k) == WithKey(s, k)
    {
      SortDescWithKey(s, k);
    }
  }

  lemma {:induction false} SortDescSorted(s: seq<Item>)
    ensures Sorted(SortDesc(s))
    ensures multiset(SortDesc(s)) == multiset(s)
  {
    if s != [] {
      var init := s[..|s| - 1];
      SortDescSorted(init);
      InsertSorted(SortDesc(init), s[|s| - 1]);
      InsertMultiset(SortDesc(init), s[|s| - 1]);
      assert s == init + [s[|s| - 1]];
    }
  }

  /** The sort is stable: the items of each key keep their relative order. */
  lemma {:induction false} SortDescWithKey(s: seq<Item>, k: int)
    ensures WithKey(SortDesc(s), k) == WithKey(s, k)
  {
    if s != [] {
      var init := s[..|s| - 1];
      SortDescWithKey(init, k);
      InsertWithKey(SortDesc(init), s[|s| - 1], k);
    }
  }

  /**
   * The sort is in place: each item is inserted into the sorted prefix
   * before it, past every item whose key is smaller.
   */
  method SortByDate(a: array<Item>)
    modifies a
    ensures a[..] == SortDesc(old(a[..]))
  {
    ghost var s := a[..];
    for i := 0 to a.Length
      invariant a[..i] == SortDesc(s[..i])
      invariant a[i..] == s[i..]
    {
      assert a[i] == s[i];
      InsertLast(a, i);
      assert s[..i + 1][..i] == s[..i];
    }
    assert s[..a.Length] == s;
  }

  /** One insertion step: a[i] moves left past the items with a smaller key. */
  method InsertLast(a: array<Item>, i: nat)
    requires i < a.Length
    modifies a
    ensures a[..i + 1] == Insert(old(a[..i]), old(a[i]))
    ensures a[i + 1..] == old(a[i + 1..])
  {
    ghost var t := a[..i];
    var x := a[i];
    var j := i;
    while j > 0 && Key(a[j - 1]) < Key(x)
      invariant 0 <= j <= i
      invariant forall k :: 0 <= k < j ==> a[k] == t[k]
      invariant forall k :: j < k <= i ==> a[k] == t[k - 1]
      invariant forall k :: i < k < a.Length ==> a[k] == old(a[k])
      invariant forall k :: j <= k < i ==> Key(t[k]) < Key(x)
    {
      a[j] := a[j - 1];
      j := j - 1;
    }
    InsertSplit(t, j, x);
    a[j] := x;
    assert a[..i + 1] == t[..j] + [x] + t[j..];
  }

  /** x goes after the first j items when those after them all have smaller keys and the j-th does not. */
  lemma {:induction false} InsertSplit(t: seq<Item>, j: nat, x: Item)
    requires j <= |t| && (j == 0 || Key(t[j - 1]) >= Key(x))
    requires forall k :: j <= k < |t| ==> Key(t[k]) < Key(x)
    ensures Insert(t, x) == t[..j] + [x] + t[j..]
  {
    if j == |t| {
      assert t[..j] == t && t[j..] == [];
    } else {
      var init := t[..|t| - 1];
      InsertSplit(init, j, x);
      assert init[..j] == t[..j];
      assert t[j..] == init[j..] + [t[|t| - 1]];
    }
  }

  /**
   * After the sort, an undated entry is followed only by undated ones,
   * provided every dated entry is later than datetime.min.
   */
  lemma UndatedLast(s: seq<Item>)
    requires forall x :: x in s && x.date.Some? ==> x.date.value > MinStamp
    ensures forall i, j :: 0 <= i < j < |SortDesc(s)| && SortDesc(s)[i].date.None? ==> SortDesc(s)[j].date.None?
  {
    SortDescSpec(s);
    var r := SortDesc(s);
    forall i, j | 0 <= i < j < |r| && r[i].date.None?
      ensures r[j].date.None?
    {
      assert r[j] in multiset(s);
    }
  }

  // ---------------------------------------------------------------------
  // main
  // ---------------------------------------------------------------------

  /** The cutoff: 24 hours before now. */
  function Cutoff(now: int): int
  {
    now - Day
  }

  /** main, as a value: the first ten of the sorted recent entries. */
  function Top(fetch: string -> Fetched, now: int): seq<Item>
  {
    var sorted := SortDesc(Collected(fetch, Feeds, Cutoff(now)));
    sorted[..Min(TopCount, |sorted|)]
  }

  /** main: collect, sort the list in place, take the first ten. */
  method TopHeadlines(fetch: string -> Fetched, now: int) returns (top: seq<Item>)
    ensures top == Top(fetch, now)
  {
    var cutoffTime := now - Day;
    var all := Gather(fetch, Feeds, cutoffTime);
    var a := new Item[|all|](k requires 0 <= k < |all| => all[k]);
    assert a[..] == all;
    SortByDate(a);
    top := a[..Min(TopCount, a.Length)];
  }

  /** At most ten headlines, newest first: the head of a stable sort of everything collected. */
  lemma TopSpec(fetch: string -> Fetched, now: int)
    ensures var top := Top(fetch, now);
            var all := Collected(fetch, Feeds, Cutoff(now));
            && |top| == Min(TopCount, |all|)
            && top == SortDesc(all)[..|top|]
            && Sorted(top)
  {
    SortDescSpec(Collected(fetch, Feeds, Cutoff(now)));
  }

  /** Every headline listed is undated or no more than a day old, and was collected from a feed. */
  lemma TopRecent(fetch: string -> Fetched, now: int)
    ensures forall x :: x in Top(fetch, now) ==> Keep(x, Cutoff(now)) && x in Collected(fetch, Feeds, Cutoff(now))
  {
    var all := Collected(fetch, Feeds, Cutoff(now));
    var sorted := SortDesc(all);
    SortDescSpec(all);
    CollectedSpec(fetch, Feeds, Cutoff(now));
    forall x | x in Top(fetch, now)
      ensures Keep(x, Cutoff(now)) && x in all
    {
      assert x in sorted;
      assert x in multiset(sorted);
    }
  }

  /** A collected entry is left out only when ten entries at least as new were listed. */
  lemma TopComplete(fetch: string -> Fetched, now: int)
    ensures var top := Top(fetch, now);
            forall x :: x in Collected(fetch, Feeds, Cutoff(now)) && x !in top ==>
              |top| == TopCount && forall y :: y in top ==> Key(y) >= Key(x)
  {
    var all := Collected(fetch, Feeds, Cutoff(now));
    var sorted := SortDesc(all);
    var top := Top(fetch, now);
    SortDescSpec(all);
    forall x | x in all && x !in top
      ensures |top| == TopCount && forall y :: y in top ==> Key(y) >= Key(x)
    {
      assert x in multiset(sorted);
      var m :| 0 <= m < |sorted| && sorted[m] == x;
      assert m >= |top|;
      forall y | y in top
        ensures Key(y) >= Key(x)
      {
        var n :| 0 <= n < |top| && top[n] == y;
        assert sorted[n] == y;
      }
    }
  }

  /** Undated entries survive the filter, and come after every dated one at the top when the clock is past year 1. */
  lemma TopUndatedLast(fetch: string -> Fetched, now: int)
    requires Cutoff(now) > MinStamp
    ensures var top := Top(fetch, now);
            forall i, j :: 0 <= i < j < |top| && top[i].date.None? ==> top[j].date.None?
  {
    var all := Collected(fetch, Feeds, Cutoff(now));
    CollectedSpec(fetch, Feeds, Cutoff(now));
    UndatedLast(all);
  }

  // ---------------------------------------------------------------------
  // The listing
  // ---------------------------------------------------------------------

  /** The date column: the formatted date, or "Unknown" for an undated entry. */
  function DateText(date: Option<int>, format: int -> string): string
  {
    if date.Some? then format(date.value) else "Unknown"
  }

  const Rule: string := "================================================================================"

  /** The four lines printed for the n-th headline. */
  function ItemLines(n: nat, x: Item, format: int -> string): seq<string>
  {
    [NatToString(n) + ". " + x.headline, "   Source: " + x.source, "   Date: " + DateText(x.date, format), ""]
  }

  function Entries(top: seq<Item>, format: int -> string): seq<string>
  {
    if top == [] then [] else Entries(top[..|top| - 1], format) + ItemLines(|top|, top[|top| - 1], format)
  }

  /** The printed lines: a title with the count, a rule of 80 '=', then each headline numbered from 1. */
  function Listing(top: seq<Item>, format: int -> string): seq<string>
  {
    ["Top " + NatToString(|top|) + " Technology News Headlines\n", Rule] + Entries(top, format)
  }

  lemma DateTextSpec(date: Option<int>, format: int -> string)
    ensures date.None? ==> DateText(date, format) == "Unknown"
    ensures date.Some? ==> DateText(date, format) == format(date.value)
  {
  }

  /** Four lines per headline, in order, numbered from 1. */
  lemma {:induction false} EntriesSpec(top: seq<Item>, format: int -> string)
    ensures |Entries(top, format)| == 4 * |top|
    ensures forall i :: 0 <= i < |top| ==> Entries(top, format)[4 * i..4 * i + 4] == ItemLines(i + 1, top[i], format)
  {
    if top != [] {
      var init := top[..|top| - 1];
      EntriesSpec(init, format);
      var e := Entries(top, format);
      assert e == Entries(init, format) + ItemLines(|top|, top[|top| - 1], format);
      forall i | 0 <= i < |top|
        ensures e[4 * i..4 * i + 4] == ItemLines(i + 1, top[i], format)
      {
        if i < |init| {
          assert e[4 * i..4 * i + 4] == Entries(init, format)[4 * i..4 * i + 4];
          assert top[i] == init[i];
        } else {
          assert 4 * i == |Entries(init, format)|;
        }
      }
    }
  }

  lemma ListingSpec(top: seq<Item>, format: int -> string)
    ensures var l := Listing(top, format);
            && |l| == 2 + 4 * |top|
            && l[1] == Rule && |Rule| == 80
            && forall i :: 0 <= i < |top| ==>
                 l[2 + 4 * i] == NatToString(i + 1) + ". " + top[i].headline
                 && l[2 + 4 * i + 2] == "   Date: " + DateText(top[i].date, format)
  {
    EntriesSpec(top, format);
    var l := Listing(top, format);
    forall i | 0 <= i < |top|
      ensures l[2 + 4 * i] == NatToString(i + 1) + ". " + top[i].headline
      ensures l[2 + 4 * i + 2] == "   Date: " + DateText(top[i].date, format)
    {
      assert l[2 + 4 * i] == Entries(top, format)[4 * i..4 * i + 4][0];
      assert l[2 + 4 * i + 2] == Entries(top, format)[4 * i..4 * i + 4][2];
    }
  }
}
