/**
 * R2, the planner: memory calibration (recency sort, cap, keyword filter and
 * the MUST NOT / SHOULD PREFER constraint text), the merge of GGS blocked
 * tools into the constraints of a replan, the bounded cc-consultation loop
 * around the LLM, and the emission of the dispatch manifest and subtasks.
 *
 * JSON encoding and decoding, the LLM, the cc subprocess and UUID generation
 * are parameters of the operations that use them.
 */
module Planner {
  import opened Types
  import opened Text
  import Llm

  const MaxMemoryEntries: nat := 10
  const MaxCCCalls: nat := 2
  const BrainLLM: string := "llm"
  const BrainCC: string := "cc"
  const Procedural: string := "procedural"
  const Episodic: string := "episodic"

  // ---------------------------------------------------------------------
  // Brain mode
  // ---------------------------------------------------------------------

  /** Any mode other than "cc" means "llm". */
  function NormalizeBrainMode(mode: string): (r: string)
    ensures r == BrainCC || r == BrainLLM
    ensures r == BrainCC <==> mode == BrainCC
  {
    if mode != BrainCC then BrainLLM else mode
  }

  // ---------------------------------------------------------------------
  // Keywords of an intent
  // ---------------------------------------------------------------------

  /** The words of at least three bytes, in order. */
  function LongWords(ws: seq<string>): (r: seq<string>)
  {
    if ws == [] then []
    else LongWords(ws[..|ws| - 1]) + (if |ws[|ws| - 1]| >= 3 then [ws[|ws| - 1]] else [])
  }

  /** The keywords of an intent: its lower-cased words of three bytes or more. */
  function Keywords(s: string): seq<string>
  {
    LongWords(Fields(Lower(s)))
  }

  method MemTokenize(s: string) returns (words: seq<string>)
    ensures words == Keywords(s)
  {
    var fs := Fields(Lower(s));
    words := [];
    for i := 0 to |fs|
      invariant words == LongWords(fs[..i])
    {
      assert fs[..i + 1][..i] == fs[..i];
      if |fs[i]| >= 3 {
        words := words + [fs[i]];
      }
    }
    assert fs[..|fs|] == fs;
  }

  lemma {:induction false} LongWordsMembers(ws: seq<string>)
    ensures forall w :: w in LongWords(ws) <==> w in ws && |w| >= 3
  {
    if ws != [] {
      LongWordsMembers(ws[..|ws| - 1]);
      assert ws == ws[..|ws| - 1] + [ws[|ws| - 1]];
    }
  }

  /** Every character of a field of `s` is a character of `s`. */
  lemma {:induction false} FieldsChars(s: string)
    ensures forall w <- Fields(s), c <- w :: c in s
    decreases |s|
  {
    var t := TrimLeftSpace(s);
    TrimLeftSpaceSlice(s);
    if t != [] {
      var w := Word(t);
      var rest := t[|w|..];
      FieldsChars(rest);
      assert Fields(s) == [w] + Fields(rest);
      forall c | c in w ensures c in s {
        var k :| 0 <= k < |w| && w[k] == c;
        assert t[k] == c;
        assert s[|s| - |t| + k] == c;
      }
      forall c | c in rest ensures c in s {
        var k :| 0 <= k < |rest| && rest[k] == c;
        assert s[|s| - |t| + |w| + k] == c;
      }
    }
  }

  predicate NoUpper(s: string)
  {
    forall i :: 0 <= i < |s| ==> !('A' <= s[i] <= 'Z')
  }

  lemma LowerNoUpper(s: string)
    ensures forall c <- Lower(s) :: !('A' <= c <= 'Z')
  {
    forall c | c in Lower(s) ensures !('A' <= c <= 'Z') {
      var k :| 0 <= k < |s| && Lower(s)[k] == c;
    }
  }

  /** A string without upper-case letters is its own lower case. */
  lemma LowerFixed(s: string)
    requires NoUpper(s)
    ensures Lower(s) == s
  {
  }

  /**
   * The keywords are exactly the fields of the lower-cased intent that are
   * at least three bytes long; each is lower case and free of white space,
   * and a blank intent has none.
   */
  lemma KeywordsSpec(s: string)
    ensures forall w :: w in Keywords(s) <==> w in Fields(Lower(s)) && |w| >= 3
    ensures forall w <- Keywords(s) :: |w| >= 3 && IsWord(w) && Lower(w) == w
    ensures AllSpace(s) ==> Keywords(s) == []
  {
    var fs := Fields(Lower(s));
    LongWordsMembers(fs);
    FieldsChars(Lower(s));
    LowerNoUpper(s);
    forall w | w in Keywords(s) ensures Lower(w) == w {
      assert forall i :: 0 <= i < |w| ==> w[i] in w;
      LowerFixed(w);
    }
    if AllSpace(s) {
      assert AllSpace(Lower(s));
      FieldsOfBlank(Lower(s));
    }
  }

  // ---------------------------------------------------------------------
  // Ordering by timestamp
  // ---------------------------------------------------------------------

  /** Go's `<` on strings: byte-wise lexicographic order. */
  predicate LexLess(a: string, b: string)
    decreases |a|
  {
    |b| > 0 && (|a| == 0 || a[0] < b[0] || (a[0] == b[0] && LexLess(a[1..], b[1..])))
  }

  lemma {:induction false} LexLessAsymmetric(a: string, b: string)
    ensures !(LexLess(a, b) && LexLess(b, a))
    decreases |a|
  {
    if |a| > 0 && |b| > 0 && a[0] == b[0] {
      LexLessAsymmetric(a[1..], b[1..]);
    }
  }

  lemma {:induction false} LexLessTotal(a: string, b: string)
    ensures a == b || LexLess(a, b) || LexLess(b, a)
    decreases |a|
  {
    if |a| > 0 && |b| > 0 && a[0] == b[0] {
      LexLessTotal(a[1..], b[1..]);
      if a[1..] == b[1..] {
        assert a == [a[0]] + a[1..] && b == [b[0]] + b[1..];
      }
    }
  }

  lemma {:induction false} LexLessTransitive(a: string, b: string, c: string)
    requires LexLess(a, b) && LexLess(b, c)
    ensures LexLess(a, c)
    decreases |a|
  {
    if |a| > 0 && a[0] == b[0] && b[0] == c[0] {
      LexLessTransitive(a[1..], b[1..], c[1..]);
    }
  }

  /** "Not older than" is transitive. */
  lemma NotLessTransitive(a: string, b: string, c: string)
    requires !LexLess(a, b) && !LexLess(b, c)
    ensures !LexLess(a, c)
  {
    LexLessTotal(a, b);
    LexLessTotal(b, c);
    LexLessAsymmetric(a, c);
    if LexLess(b, a) && LexLess(c, b) {
      LexLessTransitive(c, b, a);
    }
  }

  /** Newest first: no entry is older than one that follows it. */
  predicate NewestFirst(s: seq<MemoryEntry>)
  {
    forall i, j :: 0 <= i < j < |s| ==> !LexLess(s[i].timestamp, s[j].timestamp)
  }

  /** Place `e` before the first entry that is strictly older. */
  function Insert(e: MemoryEntry, s: seq<MemoryEntry>): seq<MemoryEntry>
  {
    if s == [] then [e]
    else if LexLess(s[0].timestamp, e.timestamp) then [e] + s
    else [s[0]] + Insert(e, s[1..])
  }

  /**
   * The entries sorted newest first by their ISO-8601 timestamp strings, as
   * `sort.Slice` with a descending `>` leaves them.
   */
  function ByRecency(s: seq<MemoryEntry>): seq<MemoryEntry>
  {
    if s == [] then [] else Insert(s[0], ByRecency(s[1..]))
  }

  lemma {:induction false} InsertPermutes(e: MemoryEntry, s: seq<MemoryEntry>)
    ensures multiset(Insert(e, s)) == multiset(s) + multiset{e}
  {
    if s != [] && !LexLess(s[0].timestamp, e.timestamp) {
      InsertPermutes(e, s[1..]);
      assert s == [s[0]] + s[1..];
    }
  }

  lemma {:induction false} InsertNewestFirst(e: MemoryEntry, s: seq<MemoryEntry>)
    requires NewestFirst(s)
    ensures NewestFirst(Insert(e, s))
  {
    if s != [] {
      if LexLess(s[0].timestamp, e.timestamp) {
        LexLessAsymmetric(s[0].timestamp, e.timestamp);
        forall j | 0 <= j < |s| ensures !LexLess(e.timestamp, s[j].timestamp) {
          if j > 0 {
            NotLessTransitive(e.timestamp, s[0].timestamp, s[j].timestamp);
          }
        }
      } else {
        var t := Insert(e, s[1..]);
        InsertNewestFirst(e, s[1..]);
        InsertPermutes(e, s[1..]);
        forall j | 0 <= j < |t| ensures !LexLess(s[0].timestamp, t[j].timestamp) {
          assert t[j] in multiset(t);
          if t[j] != e {
            assert t[j] in multiset(s[1..]);
            var k :| 0 <= k < |s[1..]| && s[1..][k] == t[j];
            assert s[k + 1] == t[j];
          }
        }
      }
    }
  }

  /** Sorting yields a newest-first permutation of the entries. */
  lemma {:induction false} ByRecencySorted(s: seq<MemoryEntry>)
    ensures NewestFirst(ByRecency(s))
    ensures multiset(ByRecency(s)) == multiset(s)
  {
    if s != [] {
      ByRecencySorted(s[1..]);
      InsertNewestFirst(s[0], ByRecency(s[1..]));
      InsertPermutes(s[0], ByRecency(s[1..]));
      assert s == [s[0]] + s[1..];
    }
  }

  /** The first `MaxMemoryEntries` entries, or all of them. */
  function Capped(s: seq<MemoryEntry>): (r: seq<MemoryEntry>)
  {
    if |s| > MaxMemoryEntries then s[..MaxMemoryEntries] else s
  }

  /**
   * The cap keeps at most ten entries of the input, and no entry it drops
   * is newer than one it keeps.
   */
  lemma CappedKeepsNewest(es: seq<MemoryEntry>)
    ensures var s := ByRecency(es);
            var kept := Capped(s);
            && |kept| == (if |es| > MaxMemoryEntries then MaxMemoryEntries else |es|)
            && multiset(kept) <= multiset(es)
            && (forall i, j :: 0 <= i < |kept| <= j < |s| ==> !LexLess(kept[i].timestamp, s[j].timestamp))
  {
    var s := ByRecency(es);
    ByRecencySorted(es);
    if |s| > MaxMemoryEntries {
      assert s == s[..MaxMemoryEntries] + s[MaxMemoryEntries..];
      assert multiset(s) == multiset(s[..MaxMemoryEntries]) + multiset(s[MaxMemoryEntries..]);
    }
  }

  // ---------------------------------------------------------------------
  // Keyword filter
  // ---------------------------------------------------------------------

  /** Some keyword occurs in the haystack. */
  predicate Overlaps(haystack: string, kws: seq<string>)
  {
    exists k :: 0 <= k < |kws| && Contains(haystack, kws[k])
  }

  /** The entries whose lower-cased JSON contains a keyword, in order. */
  function RelevantOf(s: seq<MemoryEntry>, kws: seq<string>, marshal: MemoryEntry -> string): seq<MemoryEntry>
  {
    if s == [] then []
    else
      var e := s[|s| - 1];
      RelevantOf(s[..|s| - 1], kws, marshal) + (if Overlaps(Lower(marshal(e)), kws) then [e] else [])
  }

  lemma {:induction false} RelevantOfSpec(s: seq<MemoryEntry>, kws: seq<string>, marshal: MemoryEntry -> string)
    ensures forall e <- RelevantOf(s, kws, marshal) :: e in s && Overlaps(Lower(marshal(e)), kws)
    ensures forall e <- s :: Overlaps(Lower(marshal(e)), kws) ==> e in RelevantOf(s, kws, marshal)
    ensures NewestFirst(s) ==> NewestFirst(RelevantOf(s, kws, marshal))
  {
    if s != [] {
      var init := s[..|s| - 1];
      var e := s[|s| - 1];
      RelevantOfSpec(init, kws, marshal);
      assert s == init + [e];
      if NewestFirst(s) {
        var r := RelevantOf(s, kws, marshal);
        var ri := RelevantOf(init, kws, marshal);
        assert NewestFirst(init);
        forall i | 0 <= i < |ri| ensures !LexLess(ri[i].timestamp, e.timestamp) {
          assert ri[i] in init;
          var k :| 0 <= k < |init| && init[k] == ri[i];
          assert s[k] == ri[i];
        }
      }
    }
  }

  /** No entry shares a keyword, so none is relevant. */
  lemma {:induction false} RelevantOfNone(s: seq<MemoryEntry>, kws: seq<string>, marshal: MemoryEntry -> string)
    requires forall e <- s :: !Overlaps(Lower(marshal(e)), kws)
    ensures RelevantOf(s, kws, marshal) == []
  {
    if s != [] {
      assert s[|s| - 1] in s;
      RelevantOfNone(s[..|s| - 1], kws, marshal);
    }
  }

  /** The entries of one type, in order. */
  function OfType(s: seq<MemoryEntry>, t: string): seq<MemoryEntry>
  {
    if s == [] then []
    else OfType(s[..|s| - 1], t) + (if s[|s| - 1].entryType == t then [s[|s| - 1]] else [])
  }

  lemma {:induction false} OfTypeSpec(s: seq<MemoryEntry>, t: string)
    ensures forall e :: e in OfType(s, t) <==> e in s && e.entryType == t
    ensures NewestFirst(s) ==> NewestFirst(OfType(s, t))
  {
    if s != [] {
      var init := s[..|s| - 1];
      var e := s[|s| - 1];
      OfTypeSpec(init, t);
      assert s == init + [e];
      if NewestFirst(s) {
        var ri := OfType(init, t);
        assert NewestFirst(init);
        forall i | 0 <= i < |ri| ensures !LexLess(ri[i].timestamp, e.timestamp) {
          assert ri[i] in init;
          var k :| 0 <= k < |init| && init[k] == ri[i];
          assert s[k] == ri[i];
        }
      }
    }
  }

  // ---------------------------------------------------------------------
  // Constraint text
  // ---------------------------------------------------------------------

  const SummaryLimit: nat := 180
  const Ellipsis: string := "…"
  const TagsOpen: string := "[tags: "
  const MustNotHeading: string := "MUST NOT" + " (prior failures — do not repeat these approaches):\n"
  const PreferHeading: string := "SHOULD PREFER" + " (prior successes — these approaches worked):\n"
  const LinePrefix: string := "  - "

  /** The content JSON cut to 180 bytes, with an ellipsis when cut. */
  function ClipContent(s: string): string
  {
    if |s| > SummaryLimit then s[..SummaryLimit] + Ellipsis else s
  }

  /** A one-line description of a memory entry: its tags, then its clipped content JSON. */
  function EntrySummary(e: MemoryEntry, contentJson: Value -> string): string
  {
    var s := ClipContent(contentJson(e.content));
    if |e.tags| > 0 then TagsOpen + Join(e.tags, ", ") + "] " + s else s
  }

  /**
   * Content of up to 180 bytes is kept whole; longer content keeps its first
   * 180 bytes and gains the ellipsis. The tag prefix is there exactly when
   * the entry has tags, and the clipped content always ends the summary.
   */
  lemma EntrySummarySpec(e: MemoryEntry, contentJson: Value -> string)
    ensures var s := contentJson(e.content);
            var c := ClipContent(s);
            && (|s| <= SummaryLimit ==> c == s)
            && (|s| > SummaryLimit ==> |c| == SummaryLimit + 1 && c[..SummaryLimit] == s[..SummaryLimit] && HasSuffix(c, Ellipsis))
            && HasSuffix(EntrySummary(e, contentJson), c)
            && (|e.tags| > 0 ==> HasPrefix(EntrySummary(e, contentJson), TagsOpen + Join(e.tags, ", ") + "] "))
            && (|e.tags| == 0 ==> EntrySummary(e, contentJson) == c)
  {
    var s := contentJson(e.content);
    var c := ClipContent(s);
    var r := EntrySummary(e, contentJson);
    if |e.tags| > 0 {
      var p := TagsOpen + Join(e.tags, ", ") + "] ";
      assert r == p + c;
      assert r[|r| - |c|..] == c;
      assert r[..|p|] == p;
    }
  }

  /** The constraint lines for the given entries, in order. */
  function Lines(es: seq<MemoryEntry>, contentJson: Value -> string): (r: seq<string>)
    ensures |r| == |es|
    ensures forall i :: 0 <= i < |es| ==> r[i] == LinePrefix + EntrySummary(es[i], contentJson)
  {
    seq(|es|, i requires 0 <= i < |es| => LinePrefix + EntrySummary(es[i], contentJson))
  }

  /** Each line followed by a newline. */
  function Block(lines: seq<string>): string
  {
    if lines == [] then "" else Block(lines[..|lines| - 1]) + lines[|lines| - 1] + "\n"
  }

  /** The MUST NOT section (when there are failures), then the SHOULD PREFER section (when there are successes). */
  function Render(mustNots: seq<string>, shouldPrefers: seq<string>): string
  {
    var first := if mustNots != [] then MustNotHeading + Block(mustNots) else "";
    var second := if shouldPrefers != [] then (if first != "" then "\n" else "") + PreferHeading + Block(shouldPrefers) else "";
    first + second
  }

  /** The recent entries that share a keyword with the intent, newest first. */
  function Relevant(entries: seq<MemoryEntry>, intent: string, marshal: MemoryEntry -> string): seq<MemoryEntry>
  {
    RelevantOf(Capped(ByRecency(entries)), Keywords(intent), marshal)
  }

  /** The constraint text that calibration derives from memory. */
  function CalibrateSpec(entries: seq<MemoryEntry>, intent: string,
                         marshal: MemoryEntry -> string, contentJson: Value -> string): string
  {
    var rel := Relevant(entries, intent, marshal);
    Render(Lines(OfType(rel, Procedural), contentJson), Lines(OfType(rel, Episodic), contentJson))
  }

  /** Whether some keyword occurs in the haystack; stops at the first that does. */
  method HasKeyword(haystack: string, kws: seq<string>) returns (found: bool)
    ensures found == Overlaps(haystack, kws)
  {
    var j := 0;
    while j < |kws|
      invariant 0 <= j <= |kws|
      invariant forall k :: 0 <= k < j ==> !Contains(haystack, kws[k])
    {
      if Contains(haystack, kws[j]) {
        return true;
      }
      j := j + 1;
    }
    return false;
  }

  /** The entries whose lower-cased JSON contains a keyword. */
  method KeepRelevant(sorted: seq<MemoryEntry>, kws: seq<string>, marshal: MemoryEntry -> string)
    returns (relevant: seq<MemoryEntry>)
    ensures relevant == RelevantOf(sorted, kws, marshal)
  {
    relevant := [];
    for i := 0 to |sorted|
      invariant relevant == RelevantOf(sorted[..i], kws, marshal)
    {
      var e := sorted[i];
      var found := HasKeyword(Lower(marshal(e)), kws);
      assert sorted[..i + 1][..i] == sorted[..i];
      if found {
        relevant := relevant + [e];
      }
    }
    assert sorted[..|sorted|] == sorted;
  }

  /** One constraint line per procedural and per episodic entry; other types give none. */
  method SplitByType(relevant: seq<MemoryEntry>, contentJson: Value -> string)
    returns (mustNots: seq<string>, shouldPrefers: seq<string>)
    ensures mustNots == Lines(OfType(relevant, Procedural), contentJson)
    ensures shouldPrefers == Lines(OfType(relevant, Episodic), contentJson)
  {
    mustNots := [];
    shouldPrefers := [];
    for i := 0 to |relevant|
      invariant mustNots == Lines(OfType(relevant[..i], Procedural), contentJson)
      invariant shouldPrefers == Lines(OfType(relevant[..i], Episodic), contentJson)
    {
      var e := relevant[i];
      assert relevant[..i + 1][..i] == relevant[..i];
      var line := LinePrefix + EntrySummary(e, contentJson);
      if e.entryType == Procedural {
        mustNots := mustNots + [line];
      } else if e.entryType == Episodic {
        shouldPrefers := shouldPrefers + [line];
      }
    }
    assert relevant[..|relevant|] == relevant;
  }

  /** Append each line and a newline. */
  method WriteLines(sb: string, lines: seq<string>) returns (r: string)
    ensures r == sb + Block(lines)
  {
    r := sb;
    for k := 0 to |lines|
      invariant r == sb + Block(lines[..k])
    {
      assert lines[..k + 1][..k] == lines[..k];
      r := r + lines[k] + "\n";
    }
    assert lines[..|lines|] == lines;
  }

  /** Sort newest first, cap at ten, keep entries that share a keyword with the intent, then render. */
  method Calibrate(entries: seq<MemoryEntry>, intent: string,
                   marshal: MemoryEntry -> string, contentJson: Value -> string) returns (out: string)
    ensures out == CalibrateSpec(entries, intent, marshal, contentJson)
  {
    if |entries| == 0 {
      return "";
    }
    var sorted := ByRecency(entries);
    if |sorted| > MaxMemoryEntries {
      sorted := sorted[..MaxMemoryEntries];
    }
    var kws := MemTokenize(intent);
    var relevant := KeepRelevant(sorted, kws, marshal);
    if |relevant| == 0 {
      return "";
    }
    var mustNots, shouldPrefers := SplitByType(relevant, contentJson);
    out := WriteSections(mustNots, shouldPrefers);
  }

  /** The string builder of calibration: the MUST NOT section, then the SHOULD PREFER section. */
  method WriteSections(mustNots: seq<string>, shouldPrefers: seq<string>) returns (sb: string)
    ensures sb == Render(mustNots, shouldPrefers)
  {
    sb := "";
    if |mustNots| > 0 {
      sb := WriteLines(MustNotHeading, mustNots);
    }
    if |shouldPrefers| > 0 {
      if |sb| > 0 {
        sb := sb + "\n";
      }
      sb := WriteLines(sb + PreferHeading, shouldPrefers);
    }
  }

  /**
   * The rendered text is empty exactly when both sections are, starts with
   * the MUST NOT heading exactly when there are failures, and otherwise
   * starts with the SHOULD PREFER heading when there are successes.
   */
  lemma RenderSpec(mustNots: seq<string>, shouldPrefers: seq<string>)
    ensures var r := Render(mustNots, shouldPrefers);
            && (r == "" <==> mustNots == [] && shouldPrefers == [])
            && (HasPrefix(r, MustNotHeading) <==> mustNots != [])
            && (mustNots == [] && shouldPrefers != [] ==> HasPrefix(r, PreferHeading))
            && (r == "" || r[0] == 'M' || r[0] == 'S')
  {
    var r := Render(mustNots, shouldPrefers);
    assert MustNotHeading[0] == 'M' && PreferHeading[0] == 'S';
    if mustNots != [] {
      var tail := Block(mustNots) + (if shouldPrefers != [] then "\n" + PreferHeading + Block(shouldPrefers) else "");
      assert r == MustNotHeading + tail;
      PrefixOfConcat(MustNotHeading, tail);
    } else if shouldPrefers != [] {
      assert r == PreferHeading + Block(shouldPrefers);
      PrefixOfConcat(PreferHeading, Block(shouldPrefers));
    }
  }

  lemma PrefixOfConcat(a: string, b: string)
    ensures HasPrefix(a + b, a)
    ensures a != [] ==> (a + b)[0] == a[0]
  {
    assert (a + b)[..|a|] == a;
  }

  /** Every entry the cap keeps is one of the input entries. */
  lemma CappedMembers(es: seq<MemoryEntry>)
    ensures forall e <- Capped(ByRecency(es)) :: e in es
  {
    CappedKeepsNewest(es);
    var kept := Capped(ByRecency(es));
    forall e | e in kept ensures e in es {
      assert e in multiset(kept);
    }
  }

  /**
   * Calibration yields nothing exactly when no recent, keyword-sharing entry
   * is procedural or episodic; in particular for no entries or no overlap.
   */
  lemma CalibrateEmpty(entries: seq<MemoryEntry>, intent: string,
                       marshal: MemoryEntry -> string, contentJson: Value -> string)
    ensures var rel := Relevant(entries, intent, marshal);
            (CalibrateSpec(entries, intent, marshal, contentJson) == "" <==>
             OfType(rel, Procedural) == [] && OfType(rel, Episodic) == [])
    ensures entries == [] ==> CalibrateSpec(entries, intent, marshal, contentJson) == ""
    ensures (forall e <- entries :: !Overlaps(Lower(marshal(e)), Keywords(intent)))
              ==> CalibrateSpec(entries, intent, marshal, contentJson) == ""
  {
    var rel := Relevant(entries, intent, marshal);
    var s := Capped(ByRecency(entries));
    CappedMembers(entries);
    if forall e <- entries :: !Overlaps(Lower(marshal(e)), Keywords(intent)) {
      RelevantOfNone(s, Keywords(intent), marshal);
    }
    RenderSpec(Lines(OfType(rel, Procedural), contentJson), Lines(OfType(rel, Episodic), contentJson));
  }

  /**
   * What calibration renders: entries come from the ten newest, share a
   * keyword with the intent, and appear newest first; failures go under
   * MUST NOT, successes under SHOULD PREFER, and the MUST NOT section leads
   * whenever there is one.
   */
  lemma CalibrateSections(entries: seq<MemoryEntry>, intent: string,
                          marshal: MemoryEntry -> string, contentJson: Value -> string)
    ensures var rel := Relevant(entries, intent, marshal);
            var must := OfType(rel, Procedural);
            var prefer := OfType(rel, Episodic);
            var out := CalibrateSpec(entries, intent, marshal, contentJson);
            && (forall e <- rel :: e in Capped(ByRecency(entries)) && Overlaps(Lower(marshal(e)), Keywords(intent)))
            && NewestFirst(rel) && NewestFirst(must) && NewestFirst(prefer)
            && (forall e :: e in must <==> e in rel && e.entryType == Procedural)
            && (forall e :: e in prefer <==> e in rel && e.entryType == Episodic)
            && (HasPrefix(out, MustNotHeading) <==> must != [])
            && (must == [] && prefer != [] ==> HasPrefix(out, PreferHeading))
  {
    var s := Capped(ByRecency(entries));
    var rel := Relevant(entries, intent, marshal);
    ByRecencySorted(entries);
    assert NewestFirst(s);
    RelevantOfSpec(s, Keywords(intent), marshal);
    OfTypeSpec(rel, Procedural);
    OfTypeSpec(rel, Episodic);
    RenderSpec(Lines(OfType(rel, Procedural), contentJson), Lines(OfType(rel, Episodic), contentJson));
  }

  // ---------------------------------------------------------------------
  // Replan constraints
  // ---------------------------------------------------------------------

  const GgsHeading: string := "MUST NOT" + " (GGS blocked_tools — dynamic, for this task only):\n"
  const NoConstraints: string := "(none)"

  /** One "Do not use tool" line per blocked tool, in order. */
  function ToolLines(blocked: seq<string>): string
  {
    if blocked == [] then ""
    else ToolLines(blocked[..|blocked| - 1]) + "  - Do not use tool: " + blocked[|blocked| - 1] + "\n"
  }

  /** The GGS block leads, a blank line separates it from the memory constraints, and "(none)" stands for nothing. */
  function MergeConstraints(memory: string, blocked: seq<string>): string
  {
    var c := if |blocked| > 0 then
               (var g := GgsHeading + ToolLines(blocked); if memory == "" then g else g + "\n" + memory)
             else memory;
    if c == "" then NoConstraints else c
  }

  method BlockedToolsBlock(blocked: seq<string>) returns (ggsBlock: string)
    ensures ggsBlock == GgsHeading + ToolLines(blocked)
  {
    ggsBlock := GgsHeading;
    for i := 0 to |blocked|
      invariant ggsBlock == GgsHeading + ToolLines(blocked[..i])
    {
      assert blocked[..i + 1][..i] == blocked[..i];
      ggsBlock := ggsBlock + "  - Do not use tool: " + blocked[i] + "\n";
    }
    assert blocked[..|blocked|] == blocked;
  }

  /** The constraint text of a replan: calibrated memory merged with the tools GGS blocked. */
  method ReplanConstraints(entries: seq<MemoryEntry>, intent: string, blocked: seq<string>,
                           marshal: MemoryEntry -> string, contentJson: Value -> string)
    returns (constraints: string)
    ensures constraints == MergeConstraints(CalibrateSpec(entries, intent, marshal, contentJson), blocked)
  {
    constraints := Calibrate(entries, intent, marshal, contentJson);
    if |blocked| > 0 {
      var ggsBlock := BlockedToolsBlock(blocked);
      if constraints == "" {
        constraints := ggsBlock;
      } else {
        constraints := ggsBlock + "\n" + constraints;
      }
    }
    if constraints == "" {
      constraints := NoConstraints;
    }
  }

  /**
   * The blocked-tools block comes before the memory constraints, memory
   * alone passes through, and "(none)" appears exactly when both are empty.
   */
  lemma MergeConstraintsSpec(entries: seq<MemoryEntry>, intent: string, blocked: seq<string>,
                             marshal: MemoryEntry -> string, contentJson: Value -> string)
    ensures var memory := CalibrateSpec(entries, intent, marshal, contentJson);
            var c := MergeConstraints(memory, blocked);
            && (c == NoConstraints <==> memory == "" && blocked == [])
            && (blocked != [] ==> HasPrefix(c, GgsHeading + ToolLines(blocked)) && HasSuffix(c, memory))
            && (blocked == [] && memory != "" ==> c == memory)
  {
    var rel := Relevant(entries, intent, marshal);
    RenderSpec(Lines(OfType(rel, Procedural), contentJson), Lines(OfType(rel, Episodic), contentJson));
    MergeShape(CalibrateSpec(entries, intent, marshal, contentJson), blocked);
  }

  lemma MergeShape(memory: string, blocked: seq<string>)
    requires memory == "" || memory[0] == 'M' || memory[0] == 'S'
    ensures var c := MergeConstraints(memory, blocked);
            && (c == NoConstraints <==> memory == "" && blocked == [])
            && (blocked != [] ==> HasPrefix(c, GgsHeading + ToolLines(blocked)) && HasSuffix(c, memory))
            && (blocked == [] && memory != "" ==> c == memory)
  {
    var c := MergeConstraints(memory, blocked);
    var g := GgsHeading + ToolLines(blocked);
    assert GgsHeading[0] == 'M' && NoConstraints[0] == '(';
    PrefixOfConcat(GgsHeading, ToolLines(blocked));
    if blocked != [] {
      if memory == "" {
        assert c == g;
      } else {
        assert c == g + ("\n" + memory);
        PrefixOfConcat(g, "\n" + memory);
        assert c[|c| - |memory|..] == memory;
      }
    }
  }

  // ---------------------------------------------------------------------
  // The cc-consultation loop
  // ---------------------------------------------------------------------

  /** The fields of `{"action": …, "prompt": …}` when a reply decodes as that object. */
  datatype Act = Act(action: string, prompt: string)

  /** How a planning session with the LLM ends. */
  datatype Planning =
    | ChatFailed(ccCalls: nat)
    | Planned(raw: string, ccCalls: nat)

  const FinalRequest: string := "\n\nNow output the final JSON wrapper object (task_criteria + subtasks):"

  /** The question of a cc tool call, when the cleaned reply is one. */
  function CCQuestion(raw: string, parseAct: string -> Option<Act>): Option<string>
  {
    var trimmed := TrimSpace(raw);
    if HasPrefix(trimmed, "[") then None
    else match parseAct(trimmed)
      case Some(a) => if a.action == "call_cc" && a.prompt != "" then Some(a.prompt) else None
      case None => None
  }

  /** One consultation as it is appended to the running history. */
  function CCEntry(n: nat, question: string, answer: string): string
  {
    "\n\n[cc call " + NatToString(n) + "]\nQ: " + question + "\nA: " + answer
  }

  /**
   * The session from the current prompt on: ask the LLM; a cc call below
   * the limit is answered and the LLM asked again with the history;
   * anything else is the final plan.
   */
  function Consult(userPrompt: string, current: string, history: string, ccCalls: nat,
                   chat: string -> Option<string>, parseAct: string -> Option<Act>,
                   cc: string -> string): Planning
    requires ccCalls <= MaxCCCalls
    decreases MaxCCCalls - ccCalls
  {
    match chat(current)
    case None => ChatFailed(ccCalls)
    case Some(reply) =>
      var raw := Llm.StripFences(reply);
      var q := if ccCalls < MaxCCCalls then CCQuestion(raw, parseAct) else None;
      if q.Some? then
        var h := history + CCEntry(ccCalls + 1, q.value, cc(q.value));
        Consult(userPrompt, userPrompt + h + FinalRequest, h, ccCalls + 1, chat, parseAct, cc)
      else Planned(raw, ccCalls)
  }

  /**
   * However the LLM answers, the session makes at most two cc calls, and a
   * final plan below the limit is never itself a cc call.
   */
  lemma {:induction false} ConsultBounded(userPrompt: string, current: string, history: string, ccCalls: nat,
                                          chat: string -> Option<string>, parseAct: string -> Option<Act>,
                                          cc: string -> string)
    requires ccCalls <= MaxCCCalls
    ensures var r := Consult(userPrompt, current, history, ccCalls, chat, parseAct, cc);
            && ccCalls <= r.ccCalls <= MaxCCCalls
            && (r.Planned? && r.ccCalls < MaxCCCalls ==> CCQuestion(r.raw, parseAct).None?)
    decreases MaxCCCalls - ccCalls
  {
    match chat(current)
    case None =>
    case Some(reply) =>
      var raw := Llm.StripFences(reply);
      var q := if ccCalls < MaxCCCalls then CCQuestion(raw, parseAct) else None;
      if q.Some? {
        var h := history + CCEntry(ccCalls + 1, q.value, cc(q.value));
        ConsultBounded(userPrompt, userPrompt + h + FinalRequest, h, ccCalls + 1, chat, parseAct, cc);
      }
  }

  /** The LLM planning loop; `llmCalls` counts the chat requests it makes. */
  method DispatchViaLLM(userPrompt: string, chat: string -> Option<string>,
                        parseAct: string -> Option<Act>, cc: string -> string)
    returns (outcome: Planning, llmCalls: nat)
    ensures outcome == Consult(userPrompt, userPrompt, "", 0, chat, parseAct, cc)
    ensures llmCalls == outcome.ccCalls + 1 && llmCalls <= MaxCCCalls + 1
  {
    var currentUser := userPrompt;
    var history := "";
    var ccCalls: nat := 0;
    llmCalls := 0;
    while true
      invariant ccCalls <= MaxCCCalls && llmCalls == ccCalls
      invariant Consult(userPrompt, currentUser, history, ccCalls, chat, parseAct, cc)
                == Consult(userPrompt, userPrompt, "", 0, chat, parseAct, cc)
      decreases MaxCCCalls - ccCalls
    {
      var reply := chat(currentUser);
      llmCalls := llmCalls + 1;
      if reply.None? {
        return ChatFailed(ccCalls), llmCalls;
      }
      var raw := Llm.StripFences(reply.value);
      var trimmed := TrimSpace(raw);
      if !HasPrefix(trimmed, "[") && ccCalls < MaxCCCalls {
        var act := parseAct(trimmed);
        if act.Some? && act.value.action == "call_cc" && act.value.prompt != "" {
          ccCalls := ccCalls + 1;
          var ccOut := cc(act.value.prompt);
          history := history + CCEntry(ccCalls, act.value.prompt, ccOut);
          currentUser := userPrompt + history + FinalRequest;
          continue;
        }
      }
      return Planned(raw, ccCalls), llmCalls;
    }
  }

  // ---------------------------------------------------------------------
  // Subtask emission
  // ---------------------------------------------------------------------

  /** The fields of `{"task_criteria": …, "subtasks": …}` when a reply decodes as that object. */
  datatype Wrapper = Wrapper(taskCriteria: seq<string>, subtasks: seq<SubTask>)

  /** The result of emitting a plan: the messages published, manifest first. */
  datatype Emission =
    | LLMFailed
    | ParseFailed(raw: string)
    | NoSubTasks
    | Emitted(manifest: DispatchManifest, subTasks: seq<SubTask>, messages: seq<Message>)

  /** A subtask as dispatched: its own id or a fresh one, and the task as its parent. */
  function Stamp(st: SubTask, freshId: string, taskId: string): SubTask
  {
    st.(subTaskId := if st.subTaskId == "" then freshId else st.subTaskId, parentTaskId := taskId)
  }

  function StampAll(sts: seq<SubTask>, newId: nat -> string, taskId: string): (r: seq<SubTask>)
    ensures |r| == |sts|
  {
    seq(|sts|, i requires 0 <= i < |sts| => Stamp(sts[i], newId(i), taskId))
  }

  function SubTaskIds(sts: seq<SubTask>): (r: seq<string>)
    ensures |r| == |sts|
  {
    seq(|sts|, i requires 0 <= i < |sts| => sts[i].subTaskId)
  }

  /**
   * Stamping keeps every field but the two ids, gives every subtask the
   * task as its parent, keeps existing ids and fills empty ones.
   */
  lemma StampAllSpec(sts: seq<SubTask>, newId: nat -> string, taskId: string)
    requires forall i: nat :: newId(i) != ""
    ensures var r := StampAll(sts, newId, taskId);
            forall i :: 0 <= i < |sts| ==>
              && r[i].parentTaskId == taskId
              && r[i].subTaskId != ""
              && (sts[i].subTaskId != "" ==> r[i].subTaskId == sts[i].subTaskId)
              && r[i].(subTaskId := sts[i].subTaskId, parentTaskId := sts[i].parentTaskId) == sts[i]
  {
  }

  /** Fill empty ids and set the parent, in place, collecting the ids in order. */
  method StampIds(parsed: seq<SubTask>, newId: nat -> string, taskId: string)
    returns (stamped: seq<SubTask>, ids: seq<string>)
    ensures stamped == StampAll(parsed, newId, taskId)
    ensures ids == SubTaskIds(stamped)
  {
    var a := new SubTask[|parsed|](i requires 0 <= i < |parsed| => parsed[i]);
    ids := [];
    for i := 0 to a.Length
      invariant |ids| == i
      invariant forall k :: 0 <= k < i ==> a[k] == Stamp(parsed[k], newId(k), taskId)
      invariant forall k :: i <= k < a.Length ==> a[k] == parsed[k]
      invariant forall k :: 0 <= k < i ==> ids[k] == a[k].subTaskId
    {
      if a[i].subTaskId == "" {
        a[i] := a[i].(subTaskId := newId(i));
      }
      a[i] := a[i].(parentTaskId := taskId);
      ids := ids + [a[i].subTaskId];
    }
    stamped := a[..];
  }

  /** The manifest message first, then one message per subtask. */
  method FanOut(manifest: DispatchManifest, sts: seq<SubTask>, msgId: nat -> string)
    returns (messages: seq<Message>)
    ensures |messages| == |sts| + 1
    ensures messages[0] == ManifestMessage(msgId(0), manifest)
    ensures forall i :: 0 <= i < |sts| ==> messages[i + 1] == SubTaskMessage(msgId(i + 1), sts[i])
  {
    messages := [ManifestMessage(msgId(0), manifest)];
    for i := 0 to |sts|
      invariant |messages| == i + 1
      invariant messages[0] == ManifestMessage(msgId(0), manifest)
      invariant forall k :: 0 <= k < i ==> messages[k + 1] == SubTaskMessage(msgId(k + 1), sts[k])
    {
      messages := messages + [SubTaskMessage(msgId(i + 1), sts[i])];
    }
  }

  /** The wrapper object when it decodes with subtasks, else the bare array; None when neither decodes. */
  function ParsePlan(raw: string, parseWrapper: string -> Option<Wrapper>,
                     parseArray: string -> Option<seq<SubTask>>): Option<Wrapper>
  {
    var trimmed := TrimSpace(raw);
    var w := if HasPrefix(trimmed, "{") then parseWrapper(trimmed) else None;
    if w.Some? && |w.value.subtasks| > 0 then w
    else match parseArray(raw)
      case Some(sts) => Some(Wrapper([], sts))
      case None => None
  }

  function ManifestMessage(id: string, m: DispatchManifest): Message
  {
    Message(id, RolePlanner, RoleMetaVal, MsgDispatchManifest, PManifest(m))
  }

  function SubTaskMessage(id: string, st: SubTask): Message
  {
    Message(id, RolePlanner, RoleExecutor, MsgSubTask, PSubTask(st))
  }

  /**
   * Parse the plan, stamp ids and parent, then publish the manifest followed
   * by each subtask. `newId(i)` is the fresh id for subtask `i`;
   * `msgId(k)` the id of the k-th message published.
   */
  /**
   * What emitSubTasks makes of a raw plan: a parse failure or an empty plan
   * is reported as such; otherwise the stamped subtasks are emitted after a
   * manifest listing their ids, each message with its own id.
   */
  ghost predicate EmitsPlan(e: Emission, spec: TaskSpec, raw: string, ccCalls: nat, plannerBrain: string,
                            parseWrapper: string -> Option<Wrapper>, parseArray: string -> Option<seq<SubTask>>,
                            newId: nat -> string, msgId: nat -> string)
  {
    && (ParsePlan(raw, parseWrapper, parseArray).None? <==> e.ParseFailed?)
    && (e.NoSubTasks? <==> (ParsePlan(raw, parseWrapper, parseArray).Some?
                            && ParsePlan(raw, parseWrapper, parseArray).value.subtasks == []))
    && (e.Emitted? ==>
          var plan := ParsePlan(raw, parseWrapper, parseArray).value;
          var sts := StampAll(plan.subtasks, newId, spec.taskId);
          && plan.subtasks != []
          && e.subTasks == sts
          && e.manifest == DispatchManifest(spec.taskId, SubTaskIds(sts), spec, plannerBrain, ccCalls, plan.taskCriteria)
          && |e.messages| == |sts| + 1
          && e.messages[0] == ManifestMessage(msgId(0), e.manifest)
          && (forall i :: 0 <= i < |sts| ==> e.messages[i + 1] == SubTaskMessage(msgId(i + 1), sts[i])))
    && !e.LLMFailed?
  }

  method EmitSubTasks(spec: TaskSpec, raw: string, ccCalls: nat, plannerBrain: string,
                      parseWrapper: string -> Option<Wrapper>, parseArray: string -> Option<seq<SubTask>>,
                      newId: nat -> string, msgId: nat -> string)
    returns (e: Emission)
    ensures EmitsPlan(e, spec, raw, ccCalls, plannerBrain, parseWrapper, parseArray, newId, msgId)
  {
    var subTasks: Option<seq<SubTask>> := None;
    var taskCriteria: seq<string> := [];
    var trimmed := TrimSpace(raw);
    if HasPrefix(trimmed, "{") {
      var wrapper := parseWrapper(trimmed);
      if wrapper.Some? && |wrapper.value.subtasks| > 0 {
        subTasks := Some(wrapper.value.subtasks);
        taskCriteria := wrapper.value.taskCriteria;
      }
    }
    if subTasks.None? {
      var arr := parseArray(raw);
      if arr.None? {
        return ParseFailed(raw);
      }
      subTasks := arr;
    }
    var parsed := subTasks.value;
    if |parsed| == 0 {
      return NoSubTasks;
    }
    var stamped, ids := StampIds(parsed, newId, spec.taskId);
    var manifest := DispatchManifest(spec.taskId, ids, spec, plannerBrain, ccCalls, taskCriteria);
    var messages := FanOut(manifest, stamped, msgId);
    e := Emitted(manifest, stamped, messages);
  }

  // ---------------------------------------------------------------------
  // The planner object
  // ---------------------------------------------------------------------

  class Planner {
    var brainMode: string

    ghost predicate Valid()
      reads this
    {
      brainMode == BrainLLM || brainMode == BrainCC
    }

    constructor(mode: string)
      ensures brainMode == NormalizeBrainMode(mode) && Valid()
    {
      brainMode := NormalizeBrainMode(mode);
    }

    method SetBrainMode(mode: string)
      modifies this
      ensures brainMode == NormalizeBrainMode(mode) && Valid()
    {
      brainMode := NormalizeBrainMode(mode);
    }

    /**
     * Route a prompt to the active brain and emit its plan. The cc brain is
     * one subprocess call, `ccBrain`, given the system and user prompts.
     */
    method Dispatch(spec: TaskSpec, userPrompt: string, sysPrompt: string,
                    chat: string -> Option<string>, parseAct: string -> Option<Act>, cc: string -> string,
                    ccBrain: string -> string,
                    parseWrapper: string -> Option<Wrapper>, parseArray: string -> Option<seq<SubTask>>,
                    newId: nat -> string, msgId: nat -> string)
      returns (e: Emission)
      requires Valid()
      ensures brainMode == BrainCC ==>
                EmitsPlan(e, spec, Llm.StripFences(ccBrain(sysPrompt + "\n\n" + userPrompt)), 0, BrainCC,
                          parseWrapper, parseArray, newId, msgId)
      ensures brainMode == BrainLLM ==>
                var outcome := Consult(userPrompt, userPrompt, "", 0, chat, parseAct, cc);
                && (outcome.ChatFailed? ==> e == LLMFailed)
                && (!outcome.ChatFailed? ==>
                      EmitsPlan(e, spec, outcome.raw, outcome.ccCalls, BrainLLM, parseWrapper, parseArray, newId, msgId))
      ensures brainMode == BrainLLM && Consult(userPrompt, userPrompt, "", 0, chat, parseAct, cc).ChatFailed?
              <==> e.LLMFailed?
      ensures e.Emitted? ==> e.manifest.plannerBrain == brainMode && e.manifest.ccCalls <= MaxCCCalls
      ensures e.Emitted? && brainMode == BrainCC ==> e.manifest.ccCalls == 0
    {
      if brainMode == BrainCC {
        var raw := Llm.StripFences(ccBrain(sysPrompt + "\n\n" + userPrompt));
        e := EmitSubTasks(spec, raw, 0, BrainCC, parseWrapper, parseArray, newId, msgId);
      } else {
        var outcome, llmCalls := DispatchViaLLM(userPrompt, chat, parseAct, cc);
        if outcome.ChatFailed? {
          return LLMFailed;
        }
        e := EmitSubTasks(spec, outcome.raw, outcome.ccCalls, BrainLLM, parseWrapper, parseArray, newId, msgId);
      }
    }
  }
}
