/**
 * R5, the MKCT memory store. Megrams are kept in a key-value store (LevelDB
 * in the program, a map here) under four key families:
 *
 *   m|<id>                    the megram record
 *   x|<space>|<entity>|<id>   inverted index for a tag-pair scan
 *   l|<level>|<id>            level index for the dreamer passes
 *   r|<id>                    last-recalled time stamp
 *
 * A prefix scan of the store is given to each operation as the sequence of
 * keys it visits; `Scan` states that this is exactly the set of keys with the
 * prefix, each once. Exponential time decay is an input: `decay(m, None)`
 * yields the decay factor of a megram measured from its creation time (the
 * GC pass), `decay(m, Some(r))` the one measured from its last recall r when
 * that is later (the potential query); None when a time stamp does not parse.
 */
module Memory {
  import opened Types
  import opened Text

  const PrefixMegram: string := "m|"
  const PrefixIdx: string := "x|"
  const PrefixLevel: string := "l|"
  const PrefixRecall: string := "r|"

  /** The MKCT levels in the order the summary reports them. */
  const Levels: seq<string> := ["M", "K", "C", "T"]

  datatype Megram = Megram(
    id: string,
    level: string,
    createdAt: string,
    space: string,
    entity: string,
    content: string,
    state: string,
    f: real,
    sigma: real,
    k: real)

  datatype SOPRecord = SOPRecord(id: string, space: string, entity: string, content: string, sigma: real)

  /** A stored value: a megram record, an empty index value, or a time stamp. */
  datatype Cell = Record(m: Megram) | Nil | Stamp(t: string)

  type Db = map<string, Cell>

  // ---------------------------------------------------------------------
  // Quantization matrix
  // ---------------------------------------------------------------------

  datatype Quant = Quant(f: real, sigma: real, k: real)

  /** GGS macro-state ↦ (f, σ, k). */
  const QuantTable: map<string, Quant> := map[
    "abandon" := Quant(0.95, -1.0, 0.05),
    "accept" := Quant(0.90, 1.0, 0.05),
    "change_approach" := Quant(0.85, -1.0, 0.05),
    "success" := Quant(0.80, 1.0, 0.05),
    "break_symmetry" := Quant(0.75, 1.0, 0.05),
    "change_path" := Quant(0.30, 0.0, 0.20),
    "refine" := Quant(0.10, 0.5, 0.50)]

  /** The exported copy of the quantization matrix. */
  function QuantizationMatrix(): (r: map<string, Quant>)
    ensures r.Keys == QuantTable.Keys
    ensures forall s :: s in r ==> r[s] == QuantTable[s]
  {
    map s | s in QuantTable :: QuantTable[s]
  }

  /**
   * The matrix covers exactly the seven GGS macro-states, every weight f is
   * in (0, 1], every decay rate is positive, and σ is negative exactly for the
   * two failure states.
   */
  lemma QuantizationMatrixShape()
    ensures QuantizationMatrix().Keys ==
            {"abandon", "accept", "change_approach", "success", "break_symmetry", "change_path", "refine"}
    ensures forall s :: s in QuantizationMatrix() ==>
              var q := QuantizationMatrix()[s];
              0.0 < q.f <= 1.0 && q.k > 0.0 && -1.0 <= q.sigma <= 1.0
    ensures forall s :: s in QuantizationMatrix() ==>
              (QuantizationMatrix()[s].sigma < 0.0 <==> s == "abandon" || s == "change_approach")
  {
  }

  // ---------------------------------------------------------------------
  // Key helpers
  // ---------------------------------------------------------------------

  predicate NoBar(s: string)
  {
    '|' !in s
  }

  /** Replace every "|" by "_" so that keys split unambiguously. */
  function SafeKeyPart(s: string): (r: string)
    ensures NoBar(r)
  {
    ReplaceChar(s, '|', "_")
  }

  /** SafeKeyPart changes "|" into "_" and nothing else. */
  lemma {:induction false} SafeKeyPartPointwise(s: string)
    ensures |SafeKeyPart(s)| == |s|
    ensures forall i :: 0 <= i < |s| ==> SafeKeyPart(s)[i] == (if s[i] == '|' then '_' else s[i])
  {
    if s != [] {
      SafeKeyPartPointwise(s[1..]);
      assert SafeKeyPart(s) == (if s[0] == '|' then "_" else [s[0]]) + SafeKeyPart(s[1..]);
    }
  }

  function IdxPrefix(space: string, entity: string): string
  {
    PrefixIdx + SafeKeyPart(space) + "|" + SafeKeyPart(entity) + "|"
  }

  function IdxKey(space: string, entity: string, id: string): string
  {
    IdxPrefix(space, entity) + id
  }

  function LevelKey(level: string, id: string): string
  {
    PrefixLevel + level + "|" + id
  }

  function PrimaryKey(id: string): string
  {
    PrefixMegram + id
  }

  function RecallKey(id: string): string
  {
    PrefixRecall + id
  }

  /** The megram id at the end of an index key, or "" when the key lacks the prefix. */
  function MegIdFromIdxKey(fullKey: string, prefix: string): (r: string)
    ensures HasPrefix(fullKey, prefix) ==> fullKey == prefix + r
  {
    if HasPrefix(fullKey, prefix) then fullKey[|prefix|..] else ""
  }

  /** Decoding an index key with its own prefix gives back the id. */
  lemma IdxKeyRoundTrip(space: string, entity: string, id: string)
    ensures MegIdFromIdxKey(IdxKey(space, entity, id), IdxPrefix(space, entity)) == id
  {
    var p := IdxPrefix(space, entity);
    assert (p + id)[..|p|] == p;
    assert (p + id)[|p|..] == id;
  }

  lemma MegIdWithoutPrefix(fullKey: string, prefix: string)
    requires !HasPrefix(fullKey, prefix)
    ensures MegIdFromIdxKey(fullKey, prefix) == ""
  {
  }

  /** A "|"-free head followed by "|" is determined by the string. */
  lemma BarSplit(a1: string, r1: string, a2: string, r2: string)
    requires NoBar(a1) && NoBar(a2)
    requires a1 + "|" + r1 == a2 + "|" + r2
    ensures a1 == a2 && r1 == r2
  {
    var s1 := a1 + "|" + r1;
    var s2 := a2 + "|" + r2;
    BarHeadLength(a1, r1, a2, r2);
    BarHeadLength(a2, r2, a1, r1);
    assert a1 == s1[..|a1|] == s2[..|a2|] == a2;
    assert r1 == s1[|a1| + 1..] == s2[|a2| + 1..] == r2;
  }

  lemma BarHeadLength(a1: string, r1: string, a2: string, r2: string)
    requires NoBar(a2)
    requires a1 + "|" + r1 == a2 + "|" + r2
    ensures |a1| >= |a2|
  {
    var s := a2 + "|" + r2;
    assert s[|a1|] == '|';
    assert forall i :: 0 <= i < |a2| ==> s[i] == a2[i] && a2[i] in a2;
  }

  /** Index keys parse unambiguously: the key fixes the escaped tags and the id. */
  lemma IdxKeyUnambiguous(s1: string, e1: string, id1: string, s2: string, e2: string, id2: string)
    requires IdxKey(s1, e1, id1) == IdxKey(s2, e2, id2)
    ensures SafeKeyPart(s1) == SafeKeyPart(s2)
    ensures SafeKeyPart(e1) == SafeKeyPart(e2)
    ensures id1 == id2
  {
    var a1, b1 := SafeKeyPart(s1), SafeKeyPart(e1);
    var a2, b2 := SafeKeyPart(s2), SafeKeyPart(e2);
    var t1 := a1 + "|" + (b1 + "|" + id1);
    var t2 := a2 + "|" + (b2 + "|" + id2);
    IdxKeyTail(s1, e1, id1);
    IdxKeyTail(s2, e2, id2);
    StripPrefix(PrefixIdx, t1, t2);
    BarSplit(a1, b1 + "|" + id1, a2, b2 + "|" + id2);
    BarSplit(b1, id1, b2, id2);
  }

  lemma IdxKeyTail(s: string, e: string, id: string)
    ensures IdxKey(s, e, id) == PrefixIdx + (SafeKeyPart(s) + "|" + (SafeKeyPart(e) + "|" + id))
  {
  }

  lemma StripPrefix(p: string, x: string, y: string)
    requires p + x == p + y
    ensures x == y
  {
    assert x == (p + x)[|p|..];
    assert y == (p + y)[|p|..];
  }

  lemma PrimaryKeyInjective(id1: string, id2: string)
    requires PrimaryKey(id1) == PrimaryKey(id2)
    ensures id1 == id2
  {
    StripPrefix(PrefixMegram, id1, id2);
  }

  /** Level keys of "|"-free levels parse unambiguously. */
  lemma LevelKeyUnambiguous(l1: string, id1: string, l2: string, id2: string)
    requires NoBar(l1) && NoBar(l2)
    requires LevelKey(l1, id1) == LevelKey(l2, id2)
    ensures l1 == l2 && id1 == id2
  {
    assert LevelKey(l1, id1) == PrefixLevel + (l1 + "|" + id1);
    assert LevelKey(l2, id2) == PrefixLevel + (l2 + "|" + id2);
    StripPrefix(PrefixLevel, l1 + "|" + id1, l2 + "|" + id2);
    BarSplit(l1, id1, l2, id2);
  }

  /** The four key families start with different letters. */
  lemma KeyFamilies(id: string, s: string, e: string, i2: string, l: string, i3: string, i4: string)
    ensures PrimaryKey(id)[0] == 'm' && IdxKey(s, e, i2)[0] == 'x'
    ensures LevelKey(l, i3)[0] == 'l' && RecallKey(i4)[0] == 'r'
  {
  }

  // ---------------------------------------------------------------------
  // Slugs, tool calls and the decision plane
  // ---------------------------------------------------------------------

  predicate IsSlugChar(c: char)
  {
    'a' <= c <= 'z' || '0' <= c <= '9'
  }

  predicate AllSlug(s: string)
  {
    forall i :: 0 <= i < |s| ==> IsSlugChar(s[i])
  }

  /** The characters of `w` that may appear in a slug, in order. */
  function SlugChars(w: string): (r: string)
    ensures |r| <= |w| && AllSlug(r)
  {
    if w == [] then ""
    else SlugChars(w[..|w| - 1]) + (if IsSlugChar(w[|w| - 1]) then [w[|w| - 1]] else "")
  }

  /** The non-empty slug parts of the given words. */
  function SlugParts(words: seq<string>): (r: seq<string>)
    ensures |r| <= |words|
    ensures forall p <- r :: p != [] && AllSlug(p)
  {
    if words == [] then []
    else
      var b := SlugChars(words[|words| - 1]);
      SlugParts(words[..|words| - 1]) + (if |b| > 0 then [b] else [])
  }

  function Take3(words: seq<string>): seq<string>
  {
    if |words| < 3 then words else words[..3]
  }

  /** "intent:" followed by the slug parts of the first three lower-cased words, joined by "_". */
  function Slug(intent: string): string
  {
    "intent:" + Join(SlugParts(Take3(Fields(Lower(intent)))), "_")
  }

  method KeepSlugChars(w: string) returns (b: string)
    ensures b == SlugChars(w)
  {
    b := "";
    for j := 0 to |w|
      invariant b == SlugChars(w[..j])
    {
      assert w[..j + 1][..j] == w[..j];
      if IsSlugChar(w[j]) {
        b := b + [w[j]];
      }
    }
    assert w[..|w|] == w;
  }

  method IntentSlug(intent: string) returns (slug: string)
    ensures slug == Slug(intent)
  {
    var words := Fields(Lower(intent));
    var max := 3;
    if |words| < max {
      max := |words|;
    }
    var taken := words[..max];
    assert taken == Take3(words);
    var parts := CollectSlugParts(taken);
    slug := "intent:" + Join(parts, "_");
  }

  /** The part loop of IntentSlug: the non-empty slug form of each word, in order. */
  method CollectSlugParts(words: seq<string>) returns (parts: seq<string>)
    ensures parts == SlugParts(words)
  {
    parts := [];
    for i := 0 to |words|
      invariant parts == SlugParts(words[..i])
    {
      var b := KeepSlugChars(words[i]);
      assert words[..i + 1][..i] == words[..i];
      if |b| > 0 {
        parts := parts + [b];
      }
    }
    assert words[..|words|] == words;
  }

  /**
   * A slug starts with "intent:", is built from at most three non-empty
   * parts of a–z and 0–9, and never holds "|", so it is safe in a key.
   */
  lemma SlugShape(intent: string)
    ensures HasPrefix(Slug(intent), "intent:")
    ensures |SlugParts(Take3(Fields(Lower(intent))))| <= 3
    ensures NoBar(Slug(intent))
  {
    var parts := SlugParts(Take3(Fields(Lower(intent))));
    var j := Join(parts, "_");
    if '|' in j {
      JoinMembers(parts, "_", '|');
      assert false;
    }
    assert Slug(intent) == "intent:" + j;
  }

  /** An empty or blank intent has the bare slug. */
  lemma SlugOfBlank(intent: string)
    requires AllSpace(intent)
    ensures Slug(intent) == "intent:"
  {
    LowerAllSpace(intent);
    FieldsOfBlank(Lower(intent));
  }

  /** A JSON object with string fields, or None when the text is not one. */
  type Unmarshal = string -> Option<map<string, string>>

  function Field(m: map<string, string>, key: string): string
  {
    TrimSpace(if key in m then m[key] else "")
  }

  /** The target: the first non-blank of "query", "command" and "path". */
  function TargetOf(parsed: Option<map<string, string>>): string
  {
    match parsed
    case None => ""
    case Some(m) =>
      if Field(m, "query") != "" then Field(m, "query")
      else if Field(m, "command") != "" then Field(m, "command")
      else Field(m, "path")
  }

  const Arrow: string := " → "

  /** The JSON input of a tool call: after the first ": ", cut at the first " → ". */
  function JsonPart(tc: string): string
    requires Index(tc, ": ") >= 0
  {
    var rest := tc[Index(tc, ": ") + 2..];
    var a := Index(rest, Arrow);
    if a >= 0 then rest[..a] else rest
  }

  /** The JSON part never holds the arrow: everything from the first one is dropped. */
  lemma JsonPartNoArrow(tc: string)
    requires Index(tc, ": ") >= 0
    ensures !Contains(JsonPart(tc), Arrow)
  {
    var rest := tc[Index(tc, ": ") + 2..];
    var a := Index(rest, Arrow);
    IndexSpec(rest, Arrow);
    var r := JsonPart(tc);
    IndexSpec(r, Arrow);
    if Contains(r, Arrow) {
      var j := Index(r, Arrow);
      if a >= 0 {
        assert r == rest[..a];
        assert r[j..j + |Arrow|] == rest[j..j + |Arrow|];
        assert MatchAt(rest, Arrow, j);
        assert false;
      }
    }
  }

  const TargetKeys: seq<string> := ["query", "command", "path"]

  method ParseToolCall(tc: string, unmarshal: Unmarshal) returns (toolName: string, target: string)
    ensures Index(tc, ": ") < 0 ==> toolName == "" && target == ""
    ensures Index(tc, ": ") >= 0 ==>
      toolName == TrimSpace(tc[..Index(tc, ": ")]) && target == TargetOf(unmarshal(JsonPart(tc)))
  {
    var colonIdx := Index(tc, ": ");
    if colonIdx < 0 {
      return "", "";
    }
    toolName := TrimSpace(tc[..colonIdx]);
    var rest := tc[colonIdx + 2..];
    var arrowIdx := Index(rest, Arrow);
    if arrowIdx >= 0 {
      rest := rest[..arrowIdx];
    }
    assert rest == JsonPart(tc);
    var parsed := unmarshal(rest);
    if parsed.None? {
      return toolName, "";
    }
    var m := parsed.value;
    assert TargetKeys[0] == "query" && TargetKeys[1] == "command" && TargetKeys[2] == "path";
    for i := 0 to |TargetKeys|
      invariant forall j :: 0 <= j < i ==> Field(m, TargetKeys[j]) == ""
    {
      var val := Field(m, TargetKeys[i]);
      if val != "" {
        return toolName, val;
      }
    }
    return toolName, "";
  }

  datatype Action = Ignore | Exploit | Avoid | Caution
  {
    function Name(): string
    {
      match this
      case Ignore => "Ignore"
      case Exploit => "Exploit"
      case Avoid => "Avoid"
      case Caution => "Caution"
    }
  }

  function DeriveAction(attention: real, decision: real): Action
  {
    if attention < 0.5 then Ignore
    else if decision > 0.2 then Exploit
    else if decision < -0.2 then Avoid
    else Caution
  }

  /** The decision plane: each action holds on exactly one region. */
  lemma DecisionPlane(attention: real, decision: real)
    ensures DeriveAction(attention, decision) == Ignore <==> attention < 0.5
    ensures DeriveAction(attention, decision) == Exploit <==> attention >= 0.5 && decision > 0.2
    ensures DeriveAction(attention, decision) == Avoid <==> attention >= 0.5 && decision < -0.2
    ensures DeriveAction(attention, decision) == Caution <==>
      attention >= 0.5 && -0.2 <= decision <= 0.2
  {
  }

  // ---------------------------------------------------------------------
  // Records
  // ---------------------------------------------------------------------

  /** The megram stored under m|id, if the stored value decodes as one. */
  function Fetch(db: Db, id: string): Option<Megram>
  {
    if PrimaryKey(id) in db && db[PrimaryKey(id)].Record? then Some(db[PrimaryKey(id)].m) else None
  }

  function RecallOf(db: Db, id: string): Option<string>
  {
    if RecallKey(id) in db && db[RecallKey(id)].Stamp? then Some(db[RecallKey(id)].t) else None
  }

  /**
   * Every record is stored under its own id, has a "|"-free level, and its
   * inverted-index and level keys are present.
   */
  ghost predicate Indexed(db: Db)
  {
    forall id {:trigger PrimaryKey(id)} :: PrimaryKey(id) in db && db[PrimaryKey(id)].Record? ==>
      var m := db[PrimaryKey(id)].m;
      m.id == id && NoBar(m.level) && IdxKey(m.space, m.entity, id) in db && LevelKey(m.level, id) in db
  }

  /** `keys` is the scan of `prefix`: every key of the store with the prefix, once each. */
  ghost predicate Scan(db: Db, prefix: string, keys: seq<string>)
  {
    && (forall i, j :: 0 <= i < j < |keys| ==> keys[i] != keys[j])
    && (forall k :: k in keys <==> k in db && HasPrefix(k, prefix))
  }

  /** A queued megram gets an id, a creation time and level "M" when it lacks them. */
  function WithDefaults(m: Megram, freshId: string, now: string): (r: Megram)
    requires freshId != "" && now != ""
    ensures r.id != "" && r.createdAt != "" && r.level != ""
    ensures r.(id := m.id, createdAt := m.createdAt, level := m.level) == m
    ensures m.id != "" ==> r.id == m.id
    ensures m.createdAt != "" ==> r.createdAt == m.createdAt
    ensures m.level != "" ==> r.level == m.level
  {
    m.(id := if m.id == "" then freshId else m.id,
       createdAt := if m.createdAt == "" then now else m.createdAt,
       level := if m.level == "" then "M" else m.level)
  }

  lemma WithDefaultsIdempotent(m: Megram, freshId: string, now: string, freshId2: string, now2: string)
    requires freshId != "" && now != "" && freshId2 != "" && now2 != ""
    ensures WithDefaults(WithDefaults(m, freshId, now), freshId2, now2) == WithDefaults(m, freshId, now)
  {
  }

  /**
   * The soft-overwrite megram for a rule: nothing when the rule is unknown,
   * otherwise a copy of its level, tags, f and k with σ = −1.
   */
  function NegativeFeedback(db: Db, ruleId: string, content: string, freshId: string, now: string): (r: Option<Megram>)
    ensures r.None? <==> Fetch(db, ruleId).None?
    ensures r.Some? ==>
      var orig := Fetch(db, ruleId).value;
      && r.value.sigma == -1.0 && r.value.state == "negative_feedback"
      && r.value.level == orig.level && r.value.space == orig.space && r.value.entity == orig.entity
      && r.value.f == orig.f && r.value.k == orig.k
      && r.value.id == freshId && r.value.content == content
  {
    match Fetch(db, ruleId)
    case None => None
    case Some(orig) =>
      Some(Megram(freshId, orig.level, now, orig.space, orig.entity, content, "negative_feedback", orig.f, -1.0, orig.k))
  }

  function ToSOP(m: Megram): SOPRecord
  {
    SOPRecord(m.id, m.space, m.entity, m.content, m.sigma)
  }

  // ---------------------------------------------------------------------
  // Store transitions as functions
  // ---------------------------------------------------------------------

  function Persist(db: Db, m: Megram): Db
  {
    db[PrimaryKey(m.id) := Record(m)][IdxKey(m.space, m.entity, m.id) := Nil][LevelKey(m.level, m.id) := Nil]
  }

  function DeleteMegram(db: Db, id: string, level: string): Db
  {
    match Fetch(db, id)
    case None => db
    case Some(m) => db - {PrimaryKey(id), IdxKey(m.space, m.entity, id), LevelKey(level, id), RecallKey(id)}
  }

  /** A persisted record keeps the store indexed. */
  lemma PersistIndexed(db: Db, m: Megram)
    requires Indexed(db) && NoBar(m.level)
    ensures Indexed(Persist(db, m))
    ensures Fetch(Persist(db, m), m.id) == Some(m)
    ensures Persist(db, m).Keys == db.Keys + {PrimaryKey(m.id), IdxKey(m.space, m.entity, m.id), LevelKey(m.level, m.id)}
  {
    var db' := Persist(db, m);
    forall id | PrimaryKey(id) in db' && db'[PrimaryKey(id)].Record?
      ensures var n := db'[PrimaryKey(id)].m;
              n.id == id && NoBar(n.level) && IdxKey(n.space, n.entity, id) in db' && LevelKey(n.level, id) in db'
    {
      KeyFamilies(id, m.space, m.entity, m.id, m.level, m.id, id);
      if id != m.id {
        if PrimaryKey(id) == PrimaryKey(m.id) {
          PrimaryKeyInjective(id, m.id);
        }
        assert db'[PrimaryKey(id)] == db[PrimaryKey(id)];
      }
    }
  }

  /** Deleting a record removes it and keeps every other record indexed. */
  lemma DeleteIndexed(db: Db, id: string, level: string)
    requires Indexed(db) && NoBar(level)
    ensures Indexed(DeleteMegram(db, id, level))
    ensures Fetch(DeleteMegram(db, id, level), id).None?
    ensures DeleteMegram(db, id, level).Keys <= db.Keys
  {
    var db' := DeleteMegram(db, id, level);
    if Fetch(db, id).Some? {
      var m := Fetch(db, id).value;
      forall id2 | PrimaryKey(id2) in db' && db'[PrimaryKey(id2)].Record?
        ensures var n := db'[PrimaryKey(id2)].m;
                n.id == id2 && NoBar(n.level) && IdxKey(n.space, n.entity, id2) in db' && LevelKey(n.level, id2) in db'
      {
        var n := db[PrimaryKey(id2)].m;
        assert db'[PrimaryKey(id2)] == db[PrimaryKey(id2)];
        assert id2 != id;
        KeyFamilies(id, n.space, n.entity, id2, n.level, id2, id);
        KeyFamilies(id2, m.space, m.entity, id, level, id, id);
        if IdxKey(n.space, n.entity, id2) == IdxKey(m.space, m.entity, id) {
          IdxKeyUnambiguous(n.space, n.entity, id2, m.space, m.entity, id);
        }
        if LevelKey(n.level, id2) == LevelKey(level, id) {
          LevelKeyUnambiguous(n.level, id2, level, id);
        }
      }
    }
  }

  lemma PrefixLetter(k: string, prefix: string)
    requires HasPrefix(k, prefix) && |prefix| > 0
    ensures k[0] == prefix[0]
  {
  }

  /** A level-index key of another level is never the level key of `level`. */
  lemma OtherLevelKey(k: string, other: string, level: string, id: string)
    requires |other| == 1 && |level| == 1 && other != level
    requires HasPrefix(k, PrefixLevel + other + "|")
    ensures k != LevelKey(level, id)
  {
    assert k[2] == other[0];
    assert LevelKey(level, id)[2] == level[0];
    assert other[0] != level[0];
  }

  // ---------------------------------------------------------------------
  // Garbage collection
  // ---------------------------------------------------------------------

  function ScanId(key: string, prefix: string): string
  {
    if |prefix| <= |key| then key[|prefix|..] else ""
  }

  /**
   * A megram is expired when its attention |f|·decay falls below Λ_gc = 0.1,
   * with the decay measured from its creation time: a recall stamp does not
   * reset the GC clock.
   */
  predicate Expired(db: Db, id: string, decay: (Megram, Option<string>) -> Option<real>)
  {
    && Fetch(db, id).Some?
    && var m := Fetch(db, id).value;
       decay(m, None).Some? && DecayedAttention(m, decay(m, None).value) < 0.1
  }

  /** The attention potential |f|·decay of one megram. */
  function DecayedAttention(m: Megram, factor: real): real
  {
    Abs(m.f) * factor
  }

  /** The decision potential σ·f·decay of one megram. */
  function DecayedDecision(m: Megram, factor: real): real
  {
    m.sigma * m.f * factor
  }

  function Abs(x: real): real
  {
    if x < 0.0 then -x else x
  }

  /** The ids of a level scan whose megrams are expired, in scan order. */
  function ExpiredIds(db: Db, keys: seq<string>, prefix: string, decay: (Megram, Option<string>) -> Option<real>): (r: seq<string>)
    ensures forall id <- r :: Expired(db, id, decay)
  {
    if keys == [] then []
    else
      var id := ScanId(keys[|keys| - 1], prefix);
      ExpiredIds(db, keys[..|keys| - 1], prefix, decay) + (if Expired(db, id, decay) then [id] else [])
  }

  function DeleteAll(db: Db, ids: seq<string>, level: string): Db
  {
    if ids == [] then db else DeleteMegram(DeleteAll(db, ids[..|ids| - 1], level), ids[|ids| - 1], level)
  }

  function GcLevel(db: Db, keys: seq<string>, level: string, decay: (Megram, Option<string>) -> Option<real>): Db
  {
    DeleteAll(db, ExpiredIds(db, keys, PrefixLevel + level + "|", decay), level)
  }

  lemma {:induction false} DeleteAllIndexed(db: Db, ids: seq<string>, level: string)
    requires Indexed(db) && NoBar(level)
    ensures Indexed(DeleteAll(db, ids, level))
    ensures DeleteAll(db, ids, level).Keys <= db.Keys
    ensures forall id <- ids :: Fetch(DeleteAll(db, ids, level), id).None?
  {
    if ids != [] {
      var pre := ids[..|ids| - 1];
      var last := ids[|ids| - 1];
      DeleteAllIndexed(db, pre, level);
      var d1 := DeleteAll(db, pre, level);
      DeleteIndexed(d1, last, level);
      forall id <- ids
        ensures Fetch(DeleteAll(db, ids, level), id).None?
      {
        if id != last {
          assert id in pre;
          assert Fetch(d1, id).None?;
        }
      }
    }
  }

  /** Deletion at level `level` leaves every key of another one-letter level untouched. */
  lemma {:induction false} DeleteAllKeepsLevel(db: Db, ids: seq<string>, level: string, other: string, k: string)
    requires |other| == 1 && |level| == 1 && other != level
    requires k in db && HasPrefix(k, PrefixLevel + other + "|")
    ensures k in DeleteAll(db, ids, level) && DeleteAll(db, ids, level)[k] == db[k]
  {
    if ids != [] {
      var pre := ids[..|ids| - 1];
      var id := ids[|ids| - 1];
      DeleteAllKeepsLevel(db, pre, level, other, k);
      var d1 := DeleteAll(db, pre, level);
      if Fetch(d1, id).Some? {
        var m := Fetch(d1, id).value;
        PrefixLetter(k, PrefixLevel + other + "|");
        KeyFamilies(id, m.space, m.entity, id, level, id, id);
        OtherLevelKey(k, other, level, id);
      }
    }
  }

  // ---------------------------------------------------------------------
  // Trust bankruptcy
  // ---------------------------------------------------------------------

  /** A C-level megram loses its time immunity: level K with k = 0.05. */
  function Demoted(m: Megram): Megram
  {
    m.(level := "K", k := 0.05)
  }

  /** The live decision potential of the megram's tag pair is negative. */
  predicate Bankrupt(db: Db, id: string, decision: (string, string) -> Option<real>)
  {
    && Fetch(db, id).Some?
    && var m := Fetch(db, id).value;
       decision(m.space, m.entity).Some? && decision(m.space, m.entity).value < 0.0
  }

  /** The ids of a C-level scan whose megrams are bankrupt, in scan order. */
  function BankruptIds(db: Db, keys: seq<string>, prefix: string, decision: (string, string) -> Option<real>): (r: seq<string>)
    ensures forall id <- r :: Bankrupt(db, id, decision)
  {
    if keys == [] then []
    else
      var id := ScanId(keys[|keys| - 1], prefix);
      BankruptIds(db, keys[..|keys| - 1], prefix, decision) + (if Bankrupt(db, id, decision) then [id] else [])
  }

  /** The demoted records of the bankrupt ids. */
  function Demotions(db: Db, ids: seq<string>): (r: seq<Megram>)
    requires forall id <- ids :: Fetch(db, id).Some?
    ensures |r| == |ids|
    ensures forall j :: 0 <= j < |ids| ==> r[j] == Demoted(Fetch(db, ids[j]).value)
  {
    seq(|ids|, j requires 0 <= j < |ids| => Demoted(Fetch(db, ids[j]).value))
  }

  /** One demotion batch: rewrite the record, drop l|C|id, add l|K|id. */
  function Demote(db: Db, m: Megram): Db
  {
    (db[PrimaryKey(m.id) := Record(m)] - {LevelKey("C", m.id)})[LevelKey("K", m.id) := Nil]
  }

  function DemoteAll(db: Db, ms: seq<Megram>): Db
  {
    if ms == [] then db else Demote(DemoteAll(db, ms[..|ms| - 1]), ms[|ms| - 1])
  }

  function TrustPass(db: Db, cKeys: seq<string>, decision: (string, string) -> Option<real>): Db
  {
    DemoteAll(db, Demotions(db, BankruptIds(db, cKeys, PrefixLevel + "C" + "|", decision)))
  }

  /** The keys one demotion may touch. */
  predicate DemoteKey(k: string, id: string)
  {
    k == PrimaryKey(id) || k == LevelKey("C", id) || k == LevelKey("K", id)
  }

  /** Demotions change nothing but the three keys of each demoted record. */
  lemma {:induction false} DemoteAllFrame(db: Db, ms: seq<Megram>, k: string)
    requires forall m <- ms :: !DemoteKey(k, m.id)
    ensures (k in DemoteAll(db, ms) <==> k in db)
    ensures k in db ==> DemoteAll(db, ms)[k] == db[k]
  {
    if ms != [] {
      DemoteAllFrame(db, ms[..|ms| - 1], k);
    }
  }

  /** Demotions remove only C-level index keys. */
  lemma {:induction false} DemoteAllKeeps(db: Db, ms: seq<Megram>, k: string)
    requires k in db && !HasPrefix(k, PrefixLevel + "C|")
    ensures k in DemoteAll(db, ms)
  {
    if ms != [] {
      DemoteAllKeeps(db, ms[..|ms| - 1], k);
      var m := ms[|ms| - 1];
      assert HasPrefix(LevelKey("C", m.id), PrefixLevel + "C|");
    }
  }

  lemma DemoteIndexed(db: Db, m: Megram)
    requires Indexed(db) && m.level == "K" && IdxKey(m.space, m.entity, m.id) in db
    ensures Indexed(Demote(db, m))
  {
    var db' := Demote(db, m);
    forall id | PrimaryKey(id) in db' && db'[PrimaryKey(id)].Record?
      ensures var n := db'[PrimaryKey(id)].m;
              n.id == id && NoBar(n.level) && IdxKey(n.space, n.entity, id) in db' && LevelKey(n.level, id) in db'
    {
      KeyFamilies(id, m.space, m.entity, m.id, "C", m.id, id);
      if id == m.id {
        KeyFamilies(id, m.space, m.entity, id, "C", id, id);
      } else {
        if PrimaryKey(id) == PrimaryKey(m.id) {
          PrimaryKeyInjective(id, m.id);
        }
        var n := db[PrimaryKey(id)].m;
        assert db'[PrimaryKey(id)] == db[PrimaryKey(id)];
        KeyFamilies(id, n.space, n.entity, id, "C", m.id, id);
        if LevelKey(n.level, id) == LevelKey("C", m.id) {
          LevelKeyUnambiguous(n.level, id, "C", m.id);
        }
      }
    }
  }

  lemma {:induction false} DemoteAllIndexed(db: Db, ms: seq<Megram>)
    requires Indexed(db)
    requires forall m <- ms :: m.level == "K" && IdxKey(m.space, m.entity, m.id) in db
    ensures Indexed(DemoteAll(db, ms))
  {
    if ms != [] {
      var pre := ms[..|ms| - 1];
      var m := ms[|ms| - 1];
      DemoteAllIndexed(db, pre);
      var k := IdxKey(m.space, m.entity, m.id);
      KeyFamilies(m.id, m.space, m.entity, m.id, "C", m.id, m.id);
      assert k[0] != (PrefixLevel + "C|")[0];
      DemoteAllKeeps(db, pre, k);
      DemoteIndexed(DemoteAll(db, pre), m);
    }
  }

  /** Trust bankruptcy keeps the store indexed. */
  lemma TrustIndexed(db: Db, cKeys: seq<string>, decision: (string, string) -> Option<real>)
    requires Indexed(db)
    ensures Indexed(TrustPass(db, cKeys, decision))
  {
    var ids := BankruptIds(db, cKeys, PrefixLevel + "C" + "|", decision);
    var ms := Demotions(db, ids);
    forall m <- ms
      ensures m.level == "K" && IdxKey(m.space, m.entity, m.id) in db
    {
      var j :| 0 <= j < |ms| && ms[j] == m;
      assert m == Demoted(Fetch(db, ids[j]).value);
    }
    DemoteAllIndexed(db, ms);
  }

  /**
   * Trust bankruptcy removes no key but C-level index keys, so every record
   * and every inverted-index key stays present, and it changes nothing but the
   * record and level keys of the bankrupt ids.
   */
  lemma TrustFrame(db: Db, cKeys: seq<string>, decision: (string, string) -> Option<real>, k: string)
    requires Indexed(db)
    ensures k in db && !HasPrefix(k, PrefixLevel + "C|") ==> k in TrustPass(db, cKeys, decision)
    ensures (forall id <- BankruptIds(db, cKeys, PrefixLevel + "C" + "|", decision) :: !DemoteKey(k, id)) ==>
      (k in TrustPass(db, cKeys, decision) <==> k in db) &&
      (k in db ==> TrustPass(db, cKeys, decision)[k] == db[k])
  {
    var ids := BankruptIds(db, cKeys, PrefixLevel + "C" + "|", decision);
    var ms := Demotions(db, ids);
    if k in db && !HasPrefix(k, PrefixLevel + "C|") {
      DemoteAllKeeps(db, ms, k);
    }
    if forall id <- ids :: !DemoteKey(k, id) {
      forall m <- ms
        ensures !DemoteKey(k, m.id)
      {
        var j :| 0 <= j < |ms| && ms[j] == m;
        assert m.id == Fetch(db, ids[j]).value.id == ids[j];
      }
      DemoteAllFrame(db, ms, k);
    }
  }

  /** A demotion stores the record and moves its level key from l|C|id to l|K|id. */
  lemma DemoteEffect(db: Db, m: Megram)
    ensures var r := Demote(db, m);
            && Fetch(r, m.id) == Some(m)
            && LevelKey("K", m.id) in r && LevelKey("C", m.id) !in r
  {
    KeyFamilies(m.id, "", "", m.id, "K", m.id, m.id);
    assert LevelKey("K", m.id)[2] == 'K';
  }

  /** The keys of one id are not demotion keys of another id. */
  lemma OtherIdKeys(id: string, x: string)
    requires id != x
    ensures !DemoteKey(PrimaryKey(id), x) && !DemoteKey(LevelKey("K", id), x) && !DemoteKey(LevelKey("C", id), x)
  {
    KeyFamilies(id, "", "", id, "K", x, id);
    KeyFamilies(x, "", "", id, "C", id, id);
    if PrimaryKey(id) == PrimaryKey(x) {
      PrimaryKeyInjective(id, x);
    }
    assert LevelKey("K", id)[2] == 'K' && LevelKey("C", x)[2] == 'C';
    assert LevelKey("C", id)[2] == 'C' && LevelKey("K", x)[2] == 'K';
    if LevelKey("K", id) == LevelKey("K", x) {
      LevelKeyUnambiguous("K", id, "K", x);
    }
    if LevelKey("C", id) == LevelKey("C", x) {
      LevelKeyUnambiguous("C", id, "C", x);
    }
  }

  /** After a batch of demotions, each demoted id holds its (only) demoted record at level key K and no level key C. */
  lemma {:induction false} DemoteAllEffect(db: Db, ms: seq<Megram>, m: Megram)
    requires m in ms && forall n <- ms :: n.id == m.id ==> n == m
    ensures var r := DemoteAll(db, ms);
            && Fetch(r, m.id) == Some(m)
            && LevelKey("K", m.id) in r && LevelKey("C", m.id) !in r
  {
    var pre, last := ms[..|ms| - 1], ms[|ms| - 1];
    if last.id == m.id {
      DemoteEffect(DemoteAll(db, pre), m);
    } else {
      assert m in pre;
      DemoteAllEffect(db, pre, m);
      var d := DemoteAll(db, pre);
      OtherIdKeys(m.id, last.id);
      DemoteAllFrame(d, [last], PrimaryKey(m.id));
      DemoteAllFrame(d, [last], LevelKey("K", m.id));
      DemoteAllFrame(d, [last], LevelKey("C", m.id));
    }
  }

  /**
   * Every C-level megram whose decision potential is negative ends the pass
   * at level K with k = 0.05, indexed under l|K|id and no longer under l|C|id.
   */
  lemma TrustDemotes(db: Db, cKeys: seq<string>, decision: (string, string) -> Option<real>, id: string)
    requires Indexed(db) && id in BankruptIds(db, cKeys, PrefixLevel + "C" + "|", decision)
    ensures var r := TrustPass(db, cKeys, decision);
            var m := Fetch(db, id).value;
            && Fetch(r, id) == Some(m.(level := "K", k := 0.05))
            && LevelKey("K", id) in r && LevelKey("C", id) !in r
  {
    var ids := BankruptIds(db, cKeys, PrefixLevel + "C" + "|", decision);
    var ms := Demotions(db, ids);
    var j :| 0 <= j < |ids| && ids[j] == id;
    var m := ms[j];
    assert m.id == id;
    forall n <- ms | n.id == m.id
      ensures n == m
    {
      var i :| 0 <= i < |ms| && ms[i] == n;
      assert n.id == Fetch(db, ids[i]).value.id == ids[i];
    }
    DemoteAllEffect(db, ms, m);
  }

  // ---------------------------------------------------------------------
  // Queries
  // ---------------------------------------------------------------------

  predicate IsCRecord(db: Db, id: string)
  {
    id != "" && Fetch(db, id).Some? && Fetch(db, id).value.level == "C"
  }

  /** The ids of a tag-pair scan that name C-level records, in scan order. */
  function CIds(db: Db, keys: seq<string>, prefix: string): (r: seq<string>)
    ensures forall id <- r :: IsCRecord(db, id)
  {
    if keys == [] then []
    else
      var id := MegIdFromIdxKey(keys[|keys| - 1], prefix);
      CIds(db, keys[..|keys| - 1], prefix) + (if IsCRecord(db, id) then [id] else [])
  }

  /** The SOP records of the given stored ids. */
  function SOPs(db: Db, ids: seq<string>): (r: seq<SOPRecord>)
    requires forall id <- ids :: Fetch(db, id).Some?
    ensures |r| == |ids|
    ensures forall j :: 0 <= j < |ids| ==> r[j] == ToSOP(Fetch(db, ids[j]).value)
  {
    seq(|ids|, j requires 0 <= j < |ids| => ToSOP(Fetch(db, ids[j]).value))
  }

  /** Stamp the recall time of each id. */
  function Recall(db: Db, ids: seq<string>, now: string): Db
  {
    if ids == [] then db else Recall(db, ids[..|ids| - 1], now)[RecallKey(ids[|ids| - 1]) := Stamp(now)]
  }

  /** Recall stamps touch only r| keys, so every record reads the same. */
  lemma {:induction false} RecallFrame(db: Db, ids: seq<string>, now: string, k: string)
    requires k[..0] == [] && (|k| < 2 || k[..2] != PrefixRecall)
    ensures (k in Recall(db, ids, now) <==> k in db)
    ensures k in db ==> Recall(db, ids, now)[k] == db[k]
  {
    if ids != [] {
      RecallFrame(db, ids[..|ids| - 1], now, k);
      assert RecallKey(ids[|ids| - 1])[..2] == PrefixRecall;
    }
  }

  lemma RecallKeepsFetch(db: Db, ids: seq<string>, now: string, id: string)
    ensures Fetch(Recall(db, ids, now), id) == Fetch(db, id)
  {
    assert PrimaryKey(id)[..2] == PrefixMegram;
    RecallFrame(db, ids, now, PrimaryKey(id));
  }

  /** A recall stamp written by the C-level query never spares a megram from GC. */
  lemma RecallKeepsExpired(db: Db, ids: seq<string>, now: string, id: string, decay: (Megram, Option<string>) -> Option<real>)
    ensures Expired(Recall(db, ids, now), id, decay) <==> Expired(db, id, decay)
  {
    RecallKeepsFetch(db, ids, now, id);
  }

  lemma {:induction false} CIdsComplete(db: Db, keys: seq<string>, prefix: string, id: string)
    requires prefix + id in keys && IsCRecord(db, id)
    ensures id in CIds(db, keys, prefix)
  {
    var k := prefix + id;
    if k == keys[|keys| - 1] {
      assert k[..|prefix|] == prefix && k[|prefix|..] == id;
    } else {
      assert k in keys[..|keys| - 1];
      CIdsComplete(db, keys[..|keys| - 1], prefix, id);
    }
  }

  /** QueryC returns every C-level record indexed under the tag pair, and only those. */
  lemma QueryCExact(db: Db, space: string, entity: string, keys: seq<string>, id: string)
    requires Scan(db, IdxPrefix(space, entity), keys)
    ensures id in CIds(db, keys, IdxPrefix(space, entity)) <==>
      IsCRecord(db, id) && IdxKey(space, entity, id) in db
  {
    var prefix := IdxPrefix(space, entity);
    if IsCRecord(db, id) && IdxKey(space, entity, id) in db {
      assert HasPrefix(prefix + id, prefix);
      CIdsComplete(db, keys, prefix, id);
    }
    if id in CIds(db, keys, prefix) {
      CIdsFrom(db, keys, prefix, id);
    }
  }

  lemma {:induction false} CIdsFrom(db: Db, keys: seq<string>, prefix: string, id: string)
    requires id in CIds(db, keys, prefix)
    ensures prefix + id in keys
  {
    var last := keys[|keys| - 1];
    if id in CIds(db, keys[..|keys| - 1], prefix) {
      CIdsFrom(db, keys[..|keys| - 1], prefix, id);
    } else {
      assert id == MegIdFromIdxKey(last, prefix) && id != "";
      assert HasPrefix(last, prefix);
    }
  }

  /** The contribution of one scanned id to the potentials: (|f|·decay, σ·f·decay). */
  function Contribution(db: Db, id: string, decay: (Megram, Option<string>) -> Option<real>): (real, real)
  {
    if id == "" then (0.0, 0.0)
    else match Fetch(db, id)
      case None => (0.0, 0.0)
      case Some(m) =>
        match decay(m, RecallOf(db, id))
        case None => (0.0, 0.0)
        case Some(d) => (DecayedAttention(m, d), DecayedDecision(m, d))
  }

  function AttentionSum(db: Db, keys: seq<string>, prefix: string, decay: (Megram, Option<string>) -> Option<real>): real
  {
    if keys == [] then 0.0
    else AttentionSum(db, keys[..|keys| - 1], prefix, decay)
         + Contribution(db, MegIdFromIdxKey(keys[|keys| - 1], prefix), decay).0
  }

  function DecisionSum(db: Db, keys: seq<string>, prefix: string, decay: (Megram, Option<string>) -> Option<real>): real
  {
    if keys == [] then 0.0
    else DecisionSum(db, keys[..|keys| - 1], prefix, decay)
         + Contribution(db, MegIdFromIdxKey(keys[|keys| - 1], prefix), decay).1
  }

  /** With non-negative decay factors the attention potential is never negative. */
  lemma {:induction false} AttentionNonNegative(db: Db, keys: seq<string>, prefix: string, decay: (Megram, Option<string>) -> Option<real>)
    requires forall m, r :: decay(m, r).Some? ==> decay(m, r).value >= 0.0
    ensures AttentionSum(db, keys, prefix, decay) >= 0.0
  {
    if keys != [] {
      AttentionNonNegative(db, keys[..|keys| - 1], prefix, decay);
      var id := MegIdFromIdxKey(keys[|keys| - 1], prefix);
      if id != "" && Fetch(db, id).Some? {
        var m := Fetch(db, id).value;
        if decay(m, RecallOf(db, id)).Some? {
          var d := decay(m, RecallOf(db, id)).value;
          assert Abs(m.f) >= 0.0 && d >= 0.0;
          assert DecayedAttention(m, d) >= 0.0;
        }
      }
    }
  }

  datatype Potentials = Potentials(attention: real, decision: real, action: Action)

  /** The ids of a level scan whose records decode, in scan order. */
  function FetchedIds(db: Db, keys: seq<string>, prefix: string): (r: seq<string>)
    ensures |r| <= |keys|
    ensures forall id <- r :: Fetch(db, id).Some?
  {
    if keys == [] then []
    else
      var id := ScanId(keys[|keys| - 1], prefix);
      FetchedIds(db, keys[..|keys| - 1], prefix) + (if Fetch(db, id).Some? then [id] else [])
  }

  lemma {:induction false} DistinctCard(keys: seq<string>)
    requires forall i, j :: 0 <= i < j < |keys| ==> keys[i] != keys[j]
    ensures |set k | k in keys| == |keys|
  {
    if keys != [] {
      var pre := keys[..|keys| - 1];
      DistinctCard(pre);
      assert (set k | k in keys) == (set k | k in pre) + {keys[|keys| - 1]};
    }
  }

  /** The length of a scan is the number of keys with its prefix. */
  lemma ScanSize(db: Db, prefix: string, keys: seq<string>)
    requires Scan(db, prefix, keys)
    ensures |keys| == |set k | k in db && HasPrefix(k, prefix)|
  {
    DistinctCard(keys);
    assert (set k | k in keys) == (set k | k in db && HasPrefix(k, prefix));
  }

  /** The scan of trustBankruptcyPass: the demoted form of every bankrupt C-level megram, in scan order. */
  method CollectBankrupt(db: Db, cKeys: seq<string>, decision: (string, string) -> Option<real>)
    returns (toUpdate: seq<Megram>)
    ensures toUpdate == Demotions(db, BankruptIds(db, cKeys, PrefixLevel + "C" + "|", decision))
  {
    var prefix := PrefixLevel + "C" + "|";
    ghost var ids: seq<string> := [];
    toUpdate := [];
    for i := 0 to |cKeys|
      invariant ids == BankruptIds(db, cKeys[..i], prefix, decision)
      invariant toUpdate == Demotions(db, ids)
    {
      assert cKeys[..i + 1][..i] == cKeys[..i];
      var id := ScanId(cKeys[i], prefix);
      var fetched := Fetch(db, id);
      if fetched.None? {
        continue;
      }
      var m := fetched.value;
      var pots := decision(m.space, m.entity);
      if pots.None? {
        continue;
      }
      if pots.value < 0.0 {
        ids := ids + [id];
        toUpdate := toUpdate + [Demoted(m)];
      }
    }
    assert cKeys[..|cKeys|] == cKeys;
  }

  class Store {
    var db: Db

    constructor()
      ensures db == map[]
    {
      db := map[];
    }

    method PersistMegram(m: Megram)
      modifies this
      ensures db == Persist(old(db), m)
    {
      db := db[PrimaryKey(m.id) := Record(m)];
      db := db[IdxKey(m.space, m.entity, m.id) := Nil];
      db := db[LevelKey(m.level, m.id) := Nil];
    }

    method Delete(id: string, level: string)
      modifies this
      ensures db == DeleteMegram(old(db), id, level)
    {
      var fetched := Fetch(db, id);
      if fetched.None? {
        return;
      }
      var m := fetched.value;
      db := db - {PrimaryKey(id), IdxKey(m.space, m.entity, id), LevelKey(level, id), RecallKey(id)};
    }

    /**
     * The dreamer's trust-bankruptcy pass over the C-level scan: collect the
     * bankrupt records, then demote each.
     */
    method TrustBankruptcyPass(cKeys: seq<string>, decision: (string, string) -> Option<real>)
      returns (scanned: nat, demoted: nat)
      requires Scan(db, PrefixLevel + "C|", cKeys)
      modifies this
      ensures db == TrustPass(old(db), cKeys, decision)
      ensures scanned == |cKeys|
      ensures demoted == |BankruptIds(old(db), cKeys, PrefixLevel + "C" + "|", decision)|
    {
      var toUpdate := CollectBankrupt(db, cKeys, decision);
      scanned := |cKeys|;
      demoted := ApplyDemotions(toUpdate);
    }

    /** The demotion batch: each record rewritten, l|C|id dropped, l|K|id added. */
    method ApplyDemotions(toUpdate: seq<Megram>) returns (demoted: nat)
      modifies this
      ensures db == DemoteAll(old(db), toUpdate)
      ensures demoted == |toUpdate|
    {
      ghost var db0 := db;
      demoted := 0;
      for j := 0 to |toUpdate|
        invariant demoted == j
        invariant db == DemoteAll(db0, toUpdate[..j])
      {
        assert toUpdate[..j + 1][..j] == toUpdate[..j];
        var m := toUpdate[j];
        db := db[PrimaryKey(m.id) := Record(m)];
        db := db - {LevelKey("C", m.id)};
        db := db[LevelKey("K", m.id) := Nil];
        demoted := demoted + 1;
      }
      assert toUpdate[..|toUpdate|] == toUpdate;
    }

    /** The C-level SOPs of a tag pair, stamping each one's recall time. */
    method QueryC(space: string, entity: string, keys: seq<string>, now: string) returns (results: seq<SOPRecord>)
      requires Scan(db, IdxPrefix(space, entity), keys)
      modifies this
      ensures results == SOPs(old(db), CIds(old(db), keys, IdxPrefix(space, entity)))
      ensures db == Recall(old(db), CIds(old(db), keys, IdxPrefix(space, entity)), now)
    {
      var prefix := IdxPrefix(space, entity);
      ghost var db0 := db;
      ghost var ids: seq<string> := [];
      results := [];
      for i := 0 to |keys|
        invariant ids == CIds(db0, keys[..i], prefix)
        invariant results == SOPs(db0, ids)
        invariant db == Recall(db0, ids, now)
      {
        assert keys[..i + 1][..i] == keys[..i];
        var id := MegIdFromIdxKey(keys[i], prefix);
        if id == "" {
          continue;
        }
        RecallKeepsFetch(db0, ids, now, id);
        var fetched := Fetch(db, id);
        if fetched.None? {
          continue;
        }
        var m := fetched.value;
        if m.level != "C" {
          continue;
        }
        db := db[RecallKey(id) := Stamp(now)];
        results := results + [ToSOP(m)];
        ids := ids + [id];
      }
      assert keys[..|keys|] == keys;
    }

    /** The live dual-channel potentials of a tag pair. */
    method QueryMK(space: string, entity: string, keys: seq<string>, decay: (Megram, Option<string>) -> Option<real>)
      returns (p: Potentials)
      requires Scan(db, IdxPrefix(space, entity), keys)
      ensures p.attention == AttentionSum(db, keys, IdxPrefix(space, entity), decay)
      ensures p.decision == DecisionSum(db, keys, IdxPrefix(space, entity), decay)
      ensures p.action == DeriveAction(p.attention, p.decision)
      ensures keys == [] ==> p == Potentials(0.0, 0.0, Ignore)
    {
      var prefix := IdxPrefix(space, entity);
      var attention, decision := 0.0, 0.0;
      for i := 0 to |keys|
        invariant attention == AttentionSum(db, keys[..i], prefix, decay)
        invariant decision == DecisionSum(db, keys[..i], prefix, decay)
      {
        assert keys[..i + 1][..i] == keys[..i];
        var id := MegIdFromIdxKey(keys[i], prefix);
        if id == "" {
          continue;
        }
        var fetched := Fetch(db, id);
        if fetched.None? {
          continue;
        }
        var m := fetched.value;
        var d := decay(m, RecallOf(db, id));
        if d.None? {
          continue;
        }
        attention := attention + DecayedAttention(m, d.value);
        decision := decision + DecayedDecision(m, d.value);
      }
      assert keys[..|keys|] == keys;
      p := Potentials(attention, decision, DeriveAction(attention, decision));
    }

    /** Per-level megram counts and the SOPs of every decodable C-level record. */
    method Summary(mKeys: seq<string>, kKeys: seq<string>, cKeys: seq<string>, tKeys: seq<string>)
      returns (counts: map<string, nat>, cLevel: seq<SOPRecord>)
      requires Scan(db, PrefixLevel + "M|", mKeys) && Scan(db, PrefixLevel + "K|", kKeys)
      requires Scan(db, PrefixLevel + "C|", cKeys) && Scan(db, PrefixLevel + "T|", tKeys)
      ensures counts == map["M" := |mKeys|, "K" := |kKeys|, "C" := |cKeys|, "T" := |tKeys|]
      ensures cLevel == SOPs(db, FetchedIds(db, cKeys, PrefixLevel + "C" + "|"))
    {
      counts := map["M" := |mKeys|, "K" := |kKeys|, "C" := |cKeys|, "T" := |tKeys|];
      var prefix := PrefixLevel + "C" + "|";
      ghost var ids: seq<string> := [];
      cLevel := [];
      for i := 0 to |cKeys|
        invariant ids == FetchedIds(db, cKeys[..i], prefix)
        invariant cLevel == SOPs(db, ids)
      {
        assert cKeys[..i + 1][..i] == cKeys[..i];
        var id := ScanId(cKeys[i], prefix);
        var fetched := Fetch(db, id);
        if fetched.None? {
          continue;
        }
        cLevel := cLevel + [ToSOP(fetched.value)];
        ids := ids + [id];
      }
      assert cKeys[..|cKeys|] == cKeys;
    }

    /** One level of the GC pass: collect the expired ids of the scan, then delete them. */
    method GcScanLevel(level: string, keys: seq<string>, decay: (Megram, Option<string>) -> Option<real>)
      returns (scanned: nat, deleted: nat)
      modifies this
      ensures db == GcLevel(old(db), keys, level, decay)
      ensures scanned == |keys|
      ensures deleted == |ExpiredIds(old(db), keys, PrefixLevel + level + "|", decay)|
    {
      var prefix := PrefixLevel + level + "|";
      var toDelete: seq<string> := [];
      scanned := 0;
      for i := 0 to |keys|
        invariant scanned == i
        invariant toDelete == ExpiredIds(db, keys[..i], prefix, decay)
      {
        scanned := scanned + 1;
        assert keys[..i + 1][..i] == keys[..i];
        var id := ScanId(keys[i], prefix);
        assert ExpiredIds(db, keys[..i + 1], prefix, decay) ==
          toDelete + (if Expired(db, id, decay) then [id] else []);
        var fetched := Fetch(db, id);
        if fetched.None? {
          continue;
        }
        var m := fetched.value;
        var dec := decay(m, None);
        if dec.None? {
          continue;
        }
        if DecayedAttention(m, dec.value) < 0.1 {
          toDelete := toDelete + [id];
        }
      }
      assert keys[..|keys|] == keys;
      ghost var db0 := db;
      deleted := 0;
      for j := 0 to |toDelete|
        invariant deleted == j
        invariant db == DeleteAll(db0, toDelete[..j], level)
      {
        assert toDelete[..j + 1][..j] == toDelete[..j];
        Delete(toDelete[j], level);
        deleted := deleted + 1;
      }
      assert toDelete[..|toDelete|] == toDelete;
    }

    /**
     * The dreamer's GC pass: the M-level scan, then the K-level scan; C and T
     * levels are not scanned.
     */
    method GcPass(mKeys: seq<string>, kKeys: seq<string>, decay: (Megram, Option<string>) -> Option<real>)
      returns (scanned: nat, deleted: nat)
      requires Scan(db, PrefixLevel + "M|", mKeys) && Scan(db, PrefixLevel + "K|", kKeys)
      modifies this
      ensures db == GcLevel(GcLevel(old(db), mKeys, "M", decay), kKeys, "K", decay)
      ensures scanned == |mKeys| + |kKeys|
    {
      var s1, d1 := GcScanLevel("M", mKeys, decay);
      var s2, d2 := GcScanLevel("K", kKeys, decay);
      scanned := s1 + s2;
      deleted := d1 + d2;
    }
  }

  /** The GC pass keeps the store indexed and never touches a C- or T-level index key. */
  lemma GcKeepsCT(db: Db, mKeys: seq<string>, kKeys: seq<string>, decay: (Megram, Option<string>) -> Option<real>, k: string)
    requires k in db && (HasPrefix(k, PrefixLevel + "C|") || HasPrefix(k, PrefixLevel + "T|"))
    ensures var db' := GcLevel(GcLevel(db, mKeys, "M", decay), kKeys, "K", decay);
            k in db' && db'[k] == db[k]
  {
    var other := if HasPrefix(k, PrefixLevel + "C|") then "C" else "T";
    assert HasPrefix(k, PrefixLevel + other + "|");
    var d1 := GcLevel(db, mKeys, "M", decay);
    DeleteAllKeepsLevel(db, ExpiredIds(db, mKeys, PrefixLevel + "M" + "|", decay), "M", other, k);
    DeleteAllKeepsLevel(d1, ExpiredIds(d1, kKeys, PrefixLevel + "K" + "|", decay), "K", other, k);
  }

  lemma GcIndexed(db: Db, mKeys: seq<string>, kKeys: seq<string>, decay: (Megram, Option<string>) -> Option<real>)
    requires Indexed(db)
    ensures Indexed(GcLevel(GcLevel(db, mKeys, "M", decay), kKeys, "K", decay))
  {
    var d1 := GcLevel(db, mKeys, "M", decay);
    DeleteAllIndexed(db, ExpiredIds(db, mKeys, PrefixLevel + "M" + "|", decay), "M");
    DeleteAllIndexed(d1, ExpiredIds(d1, kKeys, PrefixLevel + "K" + "|", decay), "K");
  }

  lemma {:induction false} ExpiredIdsComplete(db: Db, keys: seq<string>, prefix: string, decay: (Megram, Option<string>) -> Option<real>, k: string)
    requires k in keys && Expired(db, ScanId(k, prefix), decay)
    ensures ScanId(k, prefix) in ExpiredIds(db, keys, prefix, decay)
  {
    if k != keys[|keys| - 1] {
      assert k in keys[..|keys| - 1];
      ExpiredIdsComplete(db, keys[..|keys| - 1], prefix, decay, k);
    }
  }

  /** Every expired M-level megram of the scan is gone after the GC pass. */
  lemma GcDeletesExpired(db: Db, mKeys: seq<string>, kKeys: seq<string>, decay: (Megram, Option<string>) -> Option<real>, id: string)
    requires Scan(db, PrefixLevel + "M|", mKeys)
    requires LevelKey("M", id) in db && Expired(db, id, decay)
    ensures Fetch(GcLevel(GcLevel(db, mKeys, "M", decay), kKeys, "K", decay), id).None?
  {
    var prefix := PrefixLevel + "M" + "|";
    var k := LevelKey("M", id);
    assert k == prefix + id;
    assert HasPrefix(k, prefix) && ScanId(k, prefix) == id;
    assert k in mKeys;
    ExpiredIdsComplete(db, mKeys, prefix, decay, k);
    var victims := ExpiredIds(db, mKeys, prefix, decay);
    DeleteAllRemoves(db, victims, "M", id);
    var d1 := GcLevel(db, mKeys, "M", decay);
    DeleteAllKeepsAbsent(d1, ExpiredIds(d1, kKeys, PrefixLevel + "K" + "|", decay), "K", id);
  }

  lemma {:induction false} DeleteAllRemoves(db: Db, ids: seq<string>, level: string, id: string)
    requires id in ids
    ensures Fetch(DeleteAll(db, ids, level), id).None?
  {
    var pre := ids[..|ids| - 1];
    if id != ids[|ids| - 1] {
      assert id in pre;
      DeleteAllRemoves(db, pre, level, id);
      DeleteKeepsAbsent(DeleteAll(db, pre, level), ids[|ids| - 1], level, id);
    }
  }

  lemma DeleteKeepsAbsent(db: Db, x: string, level: string, id: string)
    requires Fetch(db, id).None?
    ensures Fetch(DeleteMegram(db, x, level), id).None?
  {
  }

  lemma {:induction false} DeleteAllKeepsAbsent(db: Db, ids: seq<string>, level: string, id: string)
    requires Fetch(db, id).None?
    ensures Fetch(DeleteAll(db, ids, level), id).None?
  {
    if ids != [] {
      DeleteAllKeepsAbsent(db, ids[..|ids| - 1], level, id);
    }
  }
}
