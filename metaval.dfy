/**
 * The meta-validator role (R4b): it tracks the outcomes of each dispatched
 * task, applies the code-enforced hard gate (any failed subtask means a
 * replan), asks the LLM to merge the outputs only when every subtask
 * matched, and runs the replan counter with its abandon safety net.
 */
module MetaVal {
  import opened Types
  import opened Text

  /** Replan rounds after which the task is abandoned whatever the controller says. */
  const MaxReplans: nat := 3
  /** Punctuation trimmed from both ends of a tag word. */
  const TagTrim: set<char> := {'.', ',', ';', ':', '!', '?'}
  const StatusFailed: string := "failed"
  const StatusMatched: string := "matched"
  const GapSeparator: string := "; "

  /** What the validator keeps per task between outcomes. */
  datatype Tracker = Tracker(spec: TaskSpec, manifest: DispatchManifest, outcomes: seq<SubTaskOutcome>, expectedCount: nat)

  /** The merge verdict the LLM returns once every subtask matched. */
  datatype Verdict = Verdict(verdict: string, summary: string, mergedOutput: Value, gapSummary: string)

  /** The procedural lesson a replan writes to memory. */
  datatype Lesson = Lesson(lesson: string, gapSummary: string, failedTasks: seq<string>)

  /** The clock reading (milliseconds), its RFC 3339 text and the fresh entry id one evaluation uses. */
  datatype Clock = Clock(now: int, stamp: string, entryId: string)

  /** A publication on the bus: destination role and payload. */
  datatype Out = Out(to: Role, payload: Payload)

  /** The validator's state as a value. */
  datatype Books = Books(
    trackers: map<string, Tracker>,
    taskStart: map<string, int>,
    replanCounts: map<string, nat>,
    published: seq<Out>)

  // ---------------------------------------------------------------------
  // Outcome bookkeeping
  // ---------------------------------------------------------------------

  /** The outcomes with the given status, in order. */
  function WithStatus(os: seq<SubTaskOutcome>, status: string): seq<SubTaskOutcome>
  {
    if os == [] then []
    else
      var last := os[|os| - 1];
      WithStatus(os[..|os| - 1], status) + (if last.status == status then [last] else [])
  }

  /** Their subtask ids, in order. */
  function Ids(os: seq<SubTaskOutcome>): (r: seq<string>)
    ensures |r| == |os|
  {
    if os == [] then [] else Ids(os[..|os| - 1]) + [os[|os| - 1].subTaskId]
  }

  /** The number of correction rounds: the gap-trajectory lengths summed. */
  function Corrections(os: seq<SubTaskOutcome>): nat
  {
    if os == [] then 0 else Corrections(os[..|os| - 1]) + |os[|os| - 1].gapTrajectory|
  }

  /**
   * Filtering keeps exactly the outcomes of that status and keeps their
   * order: the filter of a concatenation is the concatenation of filters.
   */
  lemma {:induction false} WithStatusSpec(a: seq<SubTaskOutcome>, b: seq<SubTaskOutcome>, status: string)
    ensures WithStatus(a + b, status) == WithStatus(a, status) + WithStatus(b, status)
    ensures forall o :: o in WithStatus(a, status) <==> o in a && o.status == status
    decreases |b|
  {
    if b == [] {
      assert a + b == a;
    } else {
      var b' := b[..|b| - 1];
      assert (a + b)[..|a + b| - 1] == a + b';
      WithStatusSpec(a, b', status);
    }
    MembersWithStatus(a, status);
  }

  lemma {:induction false} MembersWithStatus(a: seq<SubTaskOutcome>, status: string)
    ensures forall o :: o in WithStatus(a, status) <==> o in a && o.status == status
    decreases |a|
  {
    if a != [] {
      var a' := a[..|a| - 1];
      MembersWithStatus(a', status);
      assert a == a' + [a[|a| - 1]];
    }
  }

  /** Correction rounds add up over a concatenation. */
  lemma {:induction false} CorrectionsAppend(a: seq<SubTaskOutcome>, b: seq<SubTaskOutcome>)
    ensures Corrections(a + b) == Corrections(a) + Corrections(b)
    decreases |b|
  {
    if b == [] {
      assert a + b == a;
    } else {
      var b' := b[..|b| - 1];
      assert (a + b)[..|a + b| - 1] == a + b';
      CorrectionsAppend(a, b');
    }
  }

  lemma WithStatusSnoc(os: seq<SubTaskOutcome>, i: nat, status: string)
    requires i < |os|
    ensures os[i].status == status ==> WithStatus(os[..i + 1], status) == WithStatus(os[..i], status) + [os[i]]
    ensures os[i].status != status ==> WithStatus(os[..i + 1], status) == WithStatus(os[..i], status)
  {
    assert os[..i + 1][..i] == os[..i];
    var w := WithStatus(os[..i], status);
    assert w + [] == w;
  }

  lemma IdsSnoc(os: seq<SubTaskOutcome>, o: SubTaskOutcome)
    ensures Ids(os + [o]) == Ids(os) + [o.subTaskId]
  {
    assert (os + [o])[..|os|] == os;
  }

  /**
   * The loop of `evaluate` over the outcomes: the failed ids in outcome
   * order and the total number of corrections.
   */
  method Collect(os: seq<SubTaskOutcome>) returns (failedIds: seq<string>, total: nat)
    ensures failedIds == Ids(WithStatus(os, StatusFailed))
    ensures total == Corrections(os)
  {
    failedIds := [];
    total := 0;
    for i := 0 to |os|
      invariant failedIds == Ids(WithStatus(os[..i], StatusFailed))
      invariant total == Corrections(os[..i])
    {
      WithStatusSnoc(os, i, StatusFailed);
      assert os[..i + 1][..i] == os[..i];
      if os[i].status == StatusFailed {
        IdsSnoc(WithStatus(os[..i], StatusFailed), os[i]);
        failedIds := failedIds + [os[i].subTaskId];
      }
      total := total + |os[i].gapTrajectory|;
    }
    assert os[..|os|] == os;
  }

  /** The ids of the outcomes with a status, collected by a loop (the matched ids of the accept path). */
  method IdsWithStatus(os: seq<SubTaskOutcome>, status: string) returns (ids: seq<string>)
    ensures ids == Ids(WithStatus(os, status))
  {
    ids := [];
    for i := 0 to |os|
      invariant ids == Ids(WithStatus(os[..i], status))
    {
      WithStatusSnoc(os, i, status);
      if os[i].status == status {
        IdsSnoc(WithStatus(os[..i], status), os[i]);
        ids := ids + [os[i].subTaskId];
      }
    }
    assert os[..|os|] == os;
  }

  /** A failed outcome's contribution to the gap summary: its reason when it has one, else its id. */
  function Part(o: SubTaskOutcome): string
  {
    if o.failureReason.Some? && o.failureReason.value != "" then o.failureReason.value else o.subTaskId
  }

  function Parts(os: seq<SubTaskOutcome>): (r: seq<string>)
    ensures |r| == |os|
    ensures forall k :: 0 <= k < |os| ==> r[k] == Part(os[k])
  {
    if os == [] then [] else Parts(os[..|os| - 1]) + [Part(os[|os| - 1])]
  }

  /** The non-empty failure reasons of the failed outcomes, in order. */
  function Reasons(os: seq<SubTaskOutcome>): seq<string>
  {
    if os == [] then []
    else
      var o := os[|os| - 1];
      Reasons(os[..|os| - 1])
        + (if o.status == StatusFailed && o.failureReason.Some? && o.failureReason.value != "" then [o.failureReason.value] else [])
  }

  /** The gap-summary loop of the hard gate. */
  method GapParts(os: seq<SubTaskOutcome>) returns (parts: seq<string>)
    ensures parts == Parts(WithStatus(os, StatusFailed))
  {
    parts := [];
    for i := 0 to |os|
      invariant parts == Parts(WithStatus(os[..i], StatusFailed))
    {
      assert os[..i + 1][..i] == os[..i];
      if os[i].status == StatusFailed {
        var before := WithStatus(os[..i], StatusFailed);
        assert (before + [os[i]])[..|before|] == before;
        parts := parts + [Part(os[i])];
      }
    }
    assert os[..|os| ] == os;
  }

  /** The abandon path's loop over the last outcomes. */
  method CollectReasons(os: seq<SubTaskOutcome>) returns (reasons: seq<string>)
    ensures reasons == Reasons(os)
  {
    reasons := [];
    for i := 0 to |os|
      invariant reasons == Reasons(os[..i])
    {
      assert os[..i + 1][..i] == os[..i];
      var o := os[i];
      if o.status == StatusFailed && o.failureReason.Some? && o.failureReason.value != "" {
        reasons := reasons + [o.failureReason.value];
      }
    }
    assert os[..|os|] == os;
  }

  /** `%v` of a list of ids. */
  function IdList(ids: seq<string>): string
  {
    "[" + Join(ids, " ") + "]"
  }

  /** The hard gate's gap summary: the failed outcomes' parts joined by "; ", or a count when that is empty. */
  function GapSummary(os: seq<SubTaskOutcome>): string
  {
    var failed := WithStatus(os, StatusFailed);
    var joined := Join(Parts(failed), GapSeparator);
    if joined == "" then NatToString(|failed|) + " subtask(s) failed: " + IdList(Ids(failed)) else joined
  }

  /** A text occurs in any text that starts with it. */
  lemma ContainsHead(a: string, b: string)
    ensures Contains(a + b, a)
  {
    assert MatchAt(a + b, a, 0) by {
      assert (a + b)[0..|a|] == a;
    }
    ContainsAt(a + b, a, 0);
  }

  /** Whatever occurs in a tail occurs in the whole. */
  lemma ContainsTail(a: string, b: string, x: string)
    requires Contains(b, x)
    ensures Contains(a + b, x)
  {
    IndexSpec(b, x);
    var i := Index(b, x);
    assert MatchAt(a + b, x, |a| + i) by {
      assert (a + b)[|a| + i..|a| + i + |x|] == b[i..i + |x|];
    }
    ContainsAt(a + b, x, |a| + i);
  }

  /** Each part of a join occurs in it. */
  lemma {:induction false} JoinContains(parts: seq<string>, sep: string, k: nat)
    requires k < |parts|
    ensures Contains(Join(parts, sep), parts[k])
    decreases |parts|
  {
    if |parts| == 1 {
      ContainsHead(parts[0], "");
      assert parts[0] + "" == Join(parts, sep);
    } else {
      var rest := Join(parts[1..], sep);
      assert Join(parts, sep) == parts[0] + (sep + rest);
      if k == 0 {
        ContainsHead(parts[0], sep + rest);
      } else {
        JoinContains(parts[1..], sep, k - 1);
        ContainsTail(parts[0] + sep, rest, parts[k]);
        assert (parts[0] + sep) + rest == parts[0] + (sep + rest);
      }
    }
  }

  /**
   * When a subtask failed the gap summary is never empty and names every
   * failed outcome by its reason, or by its id when it has none.
   */
  lemma GapSummarySpec(os: seq<SubTaskOutcome>)
    requires WithStatus(os, StatusFailed) != []
    ensures GapSummary(os) != ""
    ensures var failed := WithStatus(os, StatusFailed);
            forall k :: 0 <= k < |failed| ==> Contains(GapSummary(os), Part(failed[k]))
  {
    var failed := WithStatus(os, StatusFailed);
    var joined := Join(Parts(failed), GapSeparator);
    forall k | 0 <= k < |failed|
      ensures Contains(GapSummary(os), Part(failed[k]))
    {
      JoinContains(Parts(failed), GapSeparator, k);
      if joined == "" {
        IndexSpec(joined, Part(failed[k]));
        assert Part(failed[k]) == "";
        ContainsAt(GapSummary(os), "", 0);
      }
    }
  }

  // ---------------------------------------------------------------------
  // Memory tags
  // ---------------------------------------------------------------------

  /** The tags drawn from words: each word of four or more bytes, trimmed of punctuation and lowered. */
  function Tags(words: seq<string>): seq<string>
  {
    if words == [] then []
    else
      var w := words[|words| - 1];
      Tags(words[..|words| - 1]) + (if |w| >= 4 then [Lower(TrimSet(w, TagTrim))] else [])
  }

  /** The tag loop over the words of a text. */
  method TagWords(text: string) returns (tags: seq<string>)
    ensures tags == Tags(Fields(text))
  {
    var words := Fields(text);
    tags := [];
    for i := 0 to |words|
      invariant tags == Tags(words[..i])
    {
      assert words[..i + 1][..i] == words[..i];
      if |words[i]| >= 4 {
        tags := tags + [Lower(TrimSet(words[i], TagTrim))];
      }
    }
    assert words[..|words|] == words;
  }

  predicate NoUpper(s: string)
  {
    forall i :: 0 <= i < |s| ==> !('A' <= s[i] <= 'Z')
  }

  lemma TrimSetEnds(w: string)
    ensures var t := TrimSet(w, TagTrim);
            t == [] || (t[0] !in TagTrim && t[|t| - 1] !in TagTrim)
  {
    var l := TrimLeftSet(w, TagTrim);
    var t := TrimRightSet(l, TagTrim);
    if t != [] {
      assert t[0] == l[0];
    }
  }

  /**
   * Every tag is lower case and neither starts nor ends with the trimmed
   * punctuation; there is at most one tag per word.
   */
  lemma {:induction false} TagsSpec(words: seq<string>)
    ensures |Tags(words)| <= |words|
    ensures forall t <- Tags(words) :: NoUpper(t) && (t == [] || (t[0] !in TagTrim && t[|t| - 1] !in TagTrim))
    decreases |words|
  {
    if words != [] {
      var w := words[|words| - 1];
      TagsSpec(words[..|words| - 1]);
      if |w| >= 4 {
        TagShape(w);
      }
    }
  }

  /** The tag of one word is lower case with no trimmed punctuation at either end. */
  lemma TagShape(w: string)
    ensures var r := Lower(TrimSet(w, TagTrim));
            NoUpper(r) && (r == [] || (r[0] !in TagTrim && r[|r| - 1] !in TagTrim))
  {
    TrimSetEnds(w);
    var t := TrimSet(w, TagTrim);
    var r := Lower(t);
    if r != [] {
      assert r[0] == LowerChar(t[0]) && r[|r| - 1] == LowerChar(t[|t| - 1]);
    }
  }

  // ---------------------------------------------------------------------
  // The replan and accept transitions
  // ---------------------------------------------------------------------

  function Count(m: map<string, nat>, k: string): nat
  {
    if k in m then m[k] else 0
  }

  /** Milliseconds since the task's first manifest, or 0 without one. */
  function Elapsed(taskStart: map<string, int>, task: string, now: int): int
  {
    if task in taskStart then now - taskStart[task] else 0
  }

  const AbandonHead: string := "❌ Task abandoned after "

  /** The summary of an abandoned task: the failure reasons of the last round, else the gap summary. */
  function AbandonSummary(count: nat, outcomes: seq<SubTaskOutcome>, gapSummary: string): string
  {
    var reasons := Reasons(outcomes);
    var detail := if |reasons| > 0 then Join(reasons, GapSeparator) else gapSummary;
    AbandonHead + NatToString(count) + " failed attempts. " + detail
  }

  function LessonEntry(task: string, failedIds: seq<string>, gapSummary: string, tags: seq<string>,
                       clock: Clock, encode: Lesson -> string): MemoryEntry
  {
    var lesson := Lesson("Task failed: " + gapSummary + ". Avoid repeating the same approach.", gapSummary, failedIds);
    MemoryEntry(clock.entryId, task, "procedural", Json(encode(lesson)), [], clock.stamp, tags)
  }

  /**
   * triggerReplan: count the round; from the third round on abandon the
   * task and forget it, else write the lesson, send the ReplanRequest to
   * the loss controller and start the next round with no outcomes.
   */
  function Replanned(b: Books, task: string, failedIds: seq<string>, total: nat, gapSummary: string,
                     clock: Clock, encode: Lesson -> string): Books
    requires task in b.trackers
  {
    var count := Count(b.replanCounts, task) + 1;
    if count >= MaxReplans then Abandoned(b, task, count, gapSummary)
    else Rescheduled(b, task, count, failedIds, total, gapSummary, clock, encode)
  }

  /** The safety net: a FinalResult for the user and the task forgotten. */
  function Abandoned(b: Books, task: string, count: nat, gapSummary: string): Books
    requires task in b.trackers
  {
    var final := FinalResult(task, AbandonSummary(count, b.trackers[task].outcomes, gapSummary), Null,
                             LossBreakdown(0.0, 0.0, 0.0, 0.0), 0.0, 0);
    Books(b.trackers - {task}, b.taskStart - {task}, b.replanCounts - {task},
          b.published + [Out(RoleUser, PFinal(final))])
  }

  /** A replan below the limit: the lesson, the ReplanRequest, and a tracker with no outcomes. */
  function Rescheduled(b: Books, task: string, count: nat, failedIds: seq<string>, total: nat, gapSummary: string,
                       clock: Clock, encode: Lesson -> string): Books
    requires task in b.trackers
  {
    var outcomes := b.trackers[task].outcomes;
    var tags := ["failure", "replan", task] + Tags(Fields(gapSummary));
    var rr := ReplanRequest(task, gapSummary, failedIds, total, Elapsed(b.taskStart, task, clock.now), outcomes, "replan");
    Books(b.trackers[task := b.trackers[task].(outcomes := [])], b.taskStart, b.replanCounts[task := count],
          b.published + [Out(RoleMemory, PMemory(LessonEntry(task, failedIds, gapSummary, tags, clock, encode))),
                         Out(RoleGGS, PReplan(rr))])
  }

  /** The accept path: an episodic memory entry, the summary for the loss controller, and the task forgotten. */
  function Accepted(b: Books, task: string, v: Verdict, clock: Clock): Books
    requires task in b.trackers
  {
    var tr := b.trackers[task];
    var tags := ["success", task] + (if tr.spec.intent != "" then Tags(Fields(tr.spec.intent)) else []);
    var entry := MemoryEntry(clock.entryId, task, "episodic", v.mergedOutput,
                             Ids(WithStatus(tr.outcomes, StatusMatched)), clock.stamp, tags);
    var summary := OutcomeSummary(task, v.summary, v.mergedOutput, Elapsed(b.taskStart, task, clock.now), tr.outcomes);
    Books(b.trackers - {task}, b.taskStart - {task}, b.replanCounts - {task},
          b.published + [Out(RoleMemory, PMemory(entry)), Out(RoleGGS, POutcomeSummary(summary))])
  }

  /**
   * evaluate: any failed subtask replans at once; otherwise the LLM merge
   * (`merge`, None when the call or its parse fails) decides between
   * accept and replan, and any other reply changes nothing.
   */
  function Evaluated(b: Books, task: string, merge: (TaskSpec, seq<SubTaskOutcome>) -> Option<Verdict>,
                     clock: Clock, encode: Lesson -> string): Books
    requires task in b.trackers
  {
    var tr := b.trackers[task];
    var failed := WithStatus(tr.outcomes, StatusFailed);
    if failed != [] then
      Replanned(b, task, Ids(failed), Corrections(tr.outcomes), GapSummary(tr.outcomes), clock, encode)
    else
      match merge(tr.spec, tr.outcomes)
      case None => b
      case Some(v) =>
        if v.verdict == "accept" then Accepted(b, task, v, clock)
        else if v.verdict == "replan" then Replanned(b, task, [], Corrections(tr.outcomes), v.gapSummary, clock, encode)
        else b
  }

  /**
   * The hard gate: once a subtask failed, the LLM's reply does not
   * matter, and the round is a replan: the task either starts a new
   * round with no outcomes and a higher counter, or is abandoned.
   */
  lemma HardGate(b: Books, task: string, m1: (TaskSpec, seq<SubTaskOutcome>) -> Option<Verdict>,
                 m2: (TaskSpec, seq<SubTaskOutcome>) -> Option<Verdict>, clock: Clock, encode: Lesson -> string)
    requires task in b.trackers && WithStatus(b.trackers[task].outcomes, StatusFailed) != []
    ensures Evaluated(b, task, m1, clock, encode) == Evaluated(b, task, m2, clock, encode)
    ensures var r := Evaluated(b, task, m1, clock, encode);
            && (task in r.trackers ==> r.trackers[task].outcomes == [] && r.replanCounts[task] == Count(b.replanCounts, task) + 1)
            && (task !in r.trackers ==> r.published[|r.published| - 1].payload.PFinal?)
  {
  }

  /**
   * A replan round counts itself. Below the limit it keeps the task with
   * no outcomes, writes a failure lesson tagged "failure", "replan" and
   * the task id, and sends the ReplanRequest to the loss controller; at
   * the limit it abandons the task, publishes a FinalResult for it and
   * forgets its tracker, start time and counter.
   */
  lemma ReplannedSpec(b: Books, task: string, failedIds: seq<string>, total: nat, gapSummary: string,
                      clock: Clock, encode: Lesson -> string)
    requires task in b.trackers
    ensures var r := Replanned(b, task, failedIds, total, gapSummary, clock, encode);
            var count := Count(b.replanCounts, task) + 1;
            && b.published <= r.published
            && (count >= MaxReplans <==> task !in r.trackers)
            && (count >= MaxReplans ==>
                  && task !in r.taskStart && task !in r.replanCounts
                  && r.published[|b.published|..] == [Out(RoleUser, PFinal(r.published[|b.published|].payload.final))]
                  && r.published[|b.published|].payload.final.taskId == task)
            && (count < MaxReplans ==>
                  && r.trackers[task].outcomes == [] && r.trackers[task].manifest == b.trackers[task].manifest
                  && r.replanCounts[task] == count && r.taskStart == b.taskStart
                  && |r.published| == |b.published| + 2
                  && r.published[|b.published|].payload.PMemory?
                  && r.published[|b.published|].payload.entry.tags == ["failure", "replan", task] + Tags(Fields(gapSummary))
                  && r.published[|b.published|].payload.entry.entryType == "procedural"
                  && r.published[|b.published| + 1] == Out(RoleGGS, PReplan(ReplanRequest(
                       task, gapSummary, failedIds, total, Elapsed(b.taskStart, task, clock.now),
                       b.trackers[task].outcomes, "replan"))))
            && (forall t :: t != task ==> (t in r.trackers <==> t in b.trackers) && (t in r.trackers ==> r.trackers[t] == b.trackers[t]))
  {
    var r := Replanned(b, task, failedIds, total, gapSummary, clock, encode);
    assert r.published[..|b.published|] == b.published;
  }

  /**
   * Without an accept in between, the first two replans of a task keep it
   * and the third abandons it: the safety net ends every task after at
   * most three replan rounds.
   */
  lemma ThirdReplanAbandons(b: Books, task: string, ids: seq<string>, total: nat, gap: string,
                            clock: Clock, encode: Lesson -> string)
    requires task in b.trackers && task !in b.replanCounts
    ensures var b1 := Replanned(b, task, ids, total, gap, clock, encode);
            && task in b1.trackers && b1.replanCounts[task] == 1
            && var b2 := Replanned(b1, task, ids, total, gap, clock, encode);
               && task in b2.trackers && b2.replanCounts[task] == 2
               && var b3 := Replanned(b2, task, ids, total, gap, clock, encode);
                  task !in b3.trackers && task !in b3.replanCounts && task !in b3.taskStart
                  && b3.published[|b3.published| - 1].payload.PFinal?
  {
    var b1 := Replanned(b, task, ids, total, gap, clock, encode);
    var b2 := Replanned(b1, task, ids, total, gap, clock, encode);
    assert Count(b2.replanCounts, task) == 2;
  }

  /**
   * Accepting records as met criteria exactly the matched subtasks, in
   * order, and forgets the task's tracker, start time and counter.
   */
  lemma AcceptedSpec(b: Books, task: string, v: Verdict, clock: Clock)
    requires task in b.trackers
    ensures var r := Accepted(b, task, v, clock);
            var os := b.trackers[task].outcomes;
            && task !in r.trackers && task !in r.taskStart && task !in r.replanCounts
            && |r.published| == |b.published| + 2
            && var e := r.published[|b.published|].payload.entry;
               && (forall id :: id in e.criteriaMet <==> exists o :: o in os && o.status == StatusMatched && o.subTaskId == id)
               && e.entryType == "episodic" && e.content == v.mergedOutput
               && e.tags == ["success", task] + (if b.trackers[task].spec.intent != "" then Tags(Fields(b.trackers[task].spec.intent)) else [])
  {
    var os := b.trackers[task].outcomes;
    var ms := WithStatus(os, StatusMatched);
    MembersWithStatus(os, StatusMatched);
    IdsMembers(ms);
  }

  lemma {:induction false} IdsMembers(os: seq<SubTaskOutcome>)
    ensures forall id :: id in Ids(os) <==> exists o :: o in os && o.subTaskId == id
    decreases |os|
  {
    if os != [] {
      var os' := os[..|os| - 1];
      IdsMembers(os');
      assert os == os' + [os[|os| - 1]];
    }
  }

  // ---------------------------------------------------------------------
  // The validator
  // ---------------------------------------------------------------------

  class MetaValidator {
    var trackers: map<string, Tracker>
    /** When the first manifest of each task arrived (milliseconds). */
    var taskStart: map<string, int>
    var replanCounts: map<string, nat>
    /** Messages published, in order. */
    var published: seq<Out>

    function State(): Books
      reads this
    {
      Books(trackers, taskStart, replanCounts, published)
    }

    constructor ()
      ensures State() == Books(map[], map[], map[], [])
    {
      trackers := map[];
      taskStart := map[];
      replanCounts := map[];
      published := [];
    }

    /** A manifest (re)starts the task's tracker; the start time is kept from the first manifest. */
    method OnManifest(manifest: DispatchManifest, now: int)
      modifies this
      ensures trackers == old(trackers)[manifest.taskId := Tracker(manifest.taskSpec, manifest, [], |manifest.subTaskIds|)]
      ensures taskStart == if manifest.taskId in old(taskStart) then old(taskStart) else old(taskStart)[manifest.taskId := now]
      ensures replanCounts == old(replanCounts) && published == old(published)
    {
      trackers := trackers[manifest.taskId := Tracker(manifest.taskSpec, manifest, [], |manifest.subTaskIds|)];
      if manifest.taskId !in taskStart {
        taskStart := taskStart[manifest.taskId := now];
      }
    }

    /**
     * An outcome for an unknown task is dropped; otherwise it is added to
     * the tracker and `complete` says whether the expected count is
     * reached, which is when the caller evaluates the task.
     */
    method OnOutcome(o: SubTaskOutcome) returns (complete: bool)
      modifies this
      ensures var t := o.parentTaskId;
              if t !in old(trackers) then State() == old(State()) && !complete
              else
                && trackers == old(trackers)[t := old(trackers)[t].(outcomes := old(trackers)[t].outcomes + [o])]
                && complete == (|trackers[t].outcomes| >= trackers[t].expectedCount)
                && taskStart == old(taskStart) && replanCounts == old(replanCounts) && published == old(published)
    {
      var t := o.parentTaskId;
      if t !in trackers {
        return false;
      }
      var tr := trackers[t];
      tr := tr.(outcomes := tr.outcomes + [o]);
      trackers := trackers[t := tr];
      complete := |tr.outcomes| >= tr.expectedCount;
    }

    method TriggerReplan(task: string, failedIds: seq<string>, total: nat, gapSummary: string,
                         clock: Clock, encode: Lesson -> string)
      requires task in trackers
      modifies this
      ensures State() == Replanned(old(State()), task, failedIds, total, gapSummary, clock, encode)
    {
      // The source stores the incremented count before the check and
      // deletes it again on abandon; only the final counter is modelled.
      var count := (if task in replanCounts then replanCounts[task] else 0) + 1;
      if count >= MaxReplans {
        Abandon(task, count, gapSummary);
      } else {
        Reschedule(task, count, failedIds, total, gapSummary, clock, encode);
      }
    }

    method Abandon(task: string, count: nat, gapSummary: string)
      requires task in trackers
      modifies this
      ensures State() == Abandoned(old(State()), task, count, gapSummary)
    {
      var reasons := CollectReasons(trackers[task].outcomes);
      var detail := gapSummary;
      if |reasons| > 0 {
        detail := Join(reasons, GapSeparator);
      }
      var summary := AbandonHead + NatToString(count) + " failed attempts. " + detail;
      published := published + [Out(RoleUser, PFinal(FinalResult(task, summary, Null, LossBreakdown(0.0, 0.0, 0.0, 0.0), 0.0, 0)))];
      trackers := trackers - {task};
      replanCounts := replanCounts - {task};
      taskStart := taskStart - {task};
    }

    method Reschedule(task: string, count: nat, failedIds: seq<string>, total: nat, gapSummary: string,
                      clock: Clock, encode: Lesson -> string)
      requires task in trackers
      modifies this
      ensures State() == Rescheduled(old(State()), task, count, failedIds, total, gapSummary, clock, encode)
    {
      replanCounts := replanCounts[task := count];
      var outcomes := trackers[task].outcomes;
      var words := TagWords(gapSummary);
      var tags := ["failure", "replan", task] + words;
      published := published + [Out(RoleMemory, PMemory(LessonEntry(task, failedIds, gapSummary, tags, clock, encode)))];
      var elapsed := 0;
      if task in taskStart {
        elapsed := clock.now - taskStart[task];
      }
      published := published + [Out(RoleGGS, PReplan(ReplanRequest(task, gapSummary, failedIds, total, elapsed, outcomes, "replan")))];
      trackers := trackers[task := trackers[task].(outcomes := [])];
    }

    /** The accept path of evaluate. */
    method Accept(task: string, v: Verdict, clock: Clock)
      requires task in trackers
      modifies this
      ensures State() == Accepted(old(State()), task, v, clock)
    {
      var tr := trackers[task];
      var intentTags := ["success", task];
      if tr.spec.intent != "" {
        var words := TagWords(tr.spec.intent);
        intentTags := intentTags + words;
      } else {
        assert intentTags == intentTags + [];
      }
      var met := IdsWithStatus(tr.outcomes, StatusMatched);
      var entry := MemoryEntry(clock.entryId, task, "episodic", v.mergedOutput, met, clock.stamp, intentTags);
      published := published + [Out(RoleMemory, PMemory(entry))];
      var elapsed := 0;
      if task in taskStart {
        elapsed := clock.now - taskStart[task];
      }
      published := published + [Out(RoleGGS, POutcomeSummary(OutcomeSummary(task, v.summary, v.mergedOutput, elapsed, tr.outcomes)))];
      trackers := trackers - {task};
      taskStart := taskStart - {task};
      replanCounts := replanCounts - {task};
    }

    /** evaluate, run once the task's outcomes are complete. */
    method Evaluate(task: string, merge: (TaskSpec, seq<SubTaskOutcome>) -> Option<Verdict>,
                    clock: Clock, encode: Lesson -> string)
      requires task in trackers
      modifies this
      ensures State() == Evaluated(old(State()), task, merge, clock, encode)
    {
      var tr := trackers[task];
      var failedIds, total := Collect(tr.outcomes);
      if |failedIds| > 0 {
        var parts := GapParts(tr.outcomes);
        var gapSummary := Join(parts, GapSeparator);
        if gapSummary == "" {
          gapSummary := NatToString(|failedIds|) + " subtask(s) failed: " + IdList(failedIds);
        }
        assert gapSummary == GapSummary(tr.outcomes);
        TriggerReplan(task, failedIds, total, gapSummary, clock, encode);
        return;
      }
      match merge(tr.spec, tr.outcomes) {
        case None =>
        case Some(v) =>
          if v.verdict == "accept" {
            Accept(task, v, clock);
          } else if v.verdict == "replan" {
            TriggerReplan(task, failedIds, total, v.gapSummary, clock, encode);
          }
      }
    }
  }
}
