/**
 * The subtask dispatcher of the shell's main loop. Subtasks of one task
 * are buffered by sequence number until the manifest's count has arrived;
 * then the groups run one at a time in increasing sequence order, each
 * group's subtasks together, and the outputs of finished groups are
 * appended to the context of every later subtask. Also the REPL's bounded
 * turn history and the session context built from it.
 */
module Dispatcher {
  import opened Types
  import opened Text

  /** The dispatch state of one parent task. */
  datatype TaskDispatch = TaskDispatch(
    expected: int,                        // subtask count from the manifest; 0 until it arrives
    bySeq: map<int, seq<SubTask>>,        // sequence number -> buffered subtasks
    inFlight: int,                        // subtasks currently executing
    currentSeq: int,                      // the group now running; 0 before the first
    prevOutputs: seq<string>)             // outputs of finished subtasks

  function NewDispatch(): TaskDispatch
  {
    TaskDispatch(0, map[], 0, 0, [])
  }

  /** Buffered subtasks sit under their own sequence number, and no group is empty. */
  ghost predicate WellFormed(td: TaskDispatch)
  {
    && td.currentSeq >= 0
    && forall k <- td.bySeq :: td.bySeq[k] != [] && forall st <- td.bySeq[k] :: st.sequence == k
  }

  /** A non-empty set of sequence numbers has a member. */
  lemma KeyExists(keys: set<int>)
    requires keys != {}
    ensures exists k :: k in keys
  {
    if forall k :: k !in keys {
      assert false;
    }
  }

  /** The number of buffered subtasks over all groups. */
  ghost function Total(m: map<int, seq<SubTask>>): nat
    decreases |m.Keys|
  {
    if m.Keys == {} then 0
    else
      KeyExists(m.Keys);
      var k :| k in m.Keys;
      |m[k]| + Total(m - {k})
  }

  /** The total does not depend on which group is counted first. */
  lemma {:induction false} TotalRemove(m: map<int, seq<SubTask>>, k: int)
    requires k in m
    ensures Total(m) == |m[k]| + Total(m - {k})
    decreases |m.Keys|
  {
    var j :| j in m && Total(m) == |m[j]| + Total(m - {j});
    if j != k {
      assert |(m - {j}).Keys| < |m.Keys| by {
        assert (m - {j}).Keys < m.Keys;
      }
      assert |(m - {k}).Keys| < |m.Keys| by {
        assert (m - {k}).Keys < m.Keys;
      }
      TotalRemove(m - {j}, k);
      TotalRemove(m - {k}, j);
      assert (m - {j}) - {k} == (m - {k}) - {j};
    }
  }

  /** Count the buffered subtasks, group by group. */
  method Buffered(bySeq: map<int, seq<SubTask>>) returns (total: nat)
    ensures total == Total(bySeq)
  {
    var rest := bySeq;
    total := 0;
    while rest != map[]
      invariant total + Total(rest) == Total(bySeq)
      decreases |rest.Keys|
    {
      KeyExists(rest.Keys);
      var k :| k in rest;
      TotalRemove(rest, k);
      total := total + |rest[k]|;
      assert (rest - {k}).Keys < rest.Keys;
      rest := rest - {k};
    }
  }

  /** `s` is the smallest sequence number above `floor`. */
  ghost predicate IsMinAbove(bySeq: map<int, seq<SubTask>>, floor: int, s: int)
  {
    s in bySeq && s > floor && forall k <- bySeq :: k > floor ==> s <= k
  }

  /** The smallest sequence number strictly above `floor`, or -1 when there is none. */
  method MinSeqAbove(bySeq: map<int, seq<SubTask>>, floor: int) returns (best: int)
    requires floor >= 0
    ensures best == -1 <==> forall k <- bySeq :: k <= floor
    ensures best != -1 ==> IsMinAbove(bySeq, floor, best)
  {
    best := -1;
    var keys := bySeq.Keys;
    ghost var seen: set<int> := {};
    while keys != {}
      invariant keys !! seen && keys + seen == bySeq.Keys
      invariant best == -1 || (best > floor && best in seen)
      invariant best == -1 <==> forall k <- seen :: k <= floor
      invariant best != -1 ==> forall k <- seen :: k > floor ==> best <= k
      decreases |keys|
    {
      KeyExists(keys);
      var s :| s in keys;
      if s > floor && (best < 0 || s < best) {
        best := s;
      }
      keys := keys - {s};
      seen := seen + {s};
    }
  }

  const PriorHeading: string := "\n\nOutputs from prior steps (use these directly " + "\U{E2}\U{20AC}\U{201D}" + " do not re-run discovery):\n"
  const OutputSeparator: string := "\n---\n"

  /** The block appended to every subtask context once some outputs exist. */
  function PriorContext(prevOutputs: seq<string>): string
  {
    if |prevOutputs| > 0 then PriorHeading + Join(prevOutputs, OutputSeparator) else ""
  }

  /** A group as launched: each context extended by the prior-outputs block when there is one. */
  function Injected(group: seq<SubTask>, prevCtx: string): (r: seq<SubTask>)
    ensures |r| == |group|
  {
    seq(|group|, i requires 0 <= i < |group| =>
      if prevCtx != "" then group[i].(context := group[i].context + prevCtx) else group[i])
  }

  /**
   * Injection changes nothing but the context, which it extends by the
   * block; with no prior outputs the group is launched unchanged.
   */
  lemma InjectedSpec(group: seq<SubTask>, prevOutputs: seq<string>)
    ensures var r := Injected(group, PriorContext(prevOutputs));
            && (prevOutputs == [] ==> r == group)
            && forall i :: 0 <= i < |group| ==>
                 && r[i].(context := group[i].context) == group[i]
                 && HasPrefix(r[i].context, group[i].context)
                 && (prevOutputs != [] ==> r[i].context == group[i].context + PriorContext(prevOutputs))
  {
    var r := Injected(group, PriorContext(prevOutputs));
    if prevOutputs != [] {
      assert PriorContext(prevOutputs) != "";
    }
    forall i | 0 <= i < |group| ensures HasPrefix(r[i].context, group[i].context) {
      var c := group[i].context;
      var p := PriorContext(prevOutputs);
      assert (c + p)[..|c|] == c;
    }
  }

  /** The output text a finished subtask contributes: strings as such, other values as JSON, nothing for nil. */
  function OutputText(output: Value): seq<string>
  {
    match output
    case Null => []
    case Str(s) => if s != "" then [s] else ["\"\""]
    case Json(text) => [text]
  }

  /** A task is ready to start its first group: the manifest has arrived, nothing runs, nothing has started and every expected subtask is buffered. */
  ghost predicate Ready(td: TaskDispatch)
  {
    td.expected > 0 && td.inFlight <= 0 && td.currentSeq <= 0 && Total(td.bySeq) >= td.expected
  }

  /**
   * The outcome of trying to start task `taskId`, whose dispatch is `td` in
   * `ds` with `launched` subtasks so far: either nothing changes and
   * `started` is -1, or the smallest positive group `started` is launched.
   */
  ghost predicate StartOutcome(taskId: string, td: TaskDispatch, ds: map<string, TaskDispatch>, launched: seq<SubTask>,
                               started: int, ds': map<string, TaskDispatch>, launched': seq<SubTask>)
  {
    && (started != -1 <==> Ready(td) && exists k <- td.bySeq :: k > 0)
    && (started == -1 ==> ds' == ds && launched' == launched)
    && (started != -1 ==>
          && IsMinAbove(td.bySeq, 0, started)
          && ds' == ds[taskId := td.(currentSeq := started, inFlight := td.inFlight + |td.bySeq[started]|)]
          && launched' == launched + Injected(td.bySeq[started], PriorContext(td.prevOutputs)))
  }

  /** A task's dispatch state once its manifest is recorded. */
  function Manifested(ds: map<string, TaskDispatch>, m: DispatchManifest): TaskDispatch
  {
    (if m.taskId in ds then ds[m.taskId] else NewDispatch()).(expected := |m.subTaskIds|)
  }

  /** A task's dispatch state once subtask `st` is buffered at the end of its sequence's group. */
  function WithSubTask(ds: map<string, TaskDispatch>, st: SubTask): TaskDispatch
  {
    var td := if st.parentTaskId in ds then ds[st.parentTaskId] else NewDispatch();
    var group := if st.sequence in td.bySeq then td.bySeq[st.sequence] else [];
    td.(bySeq := td.bySeq[st.sequence := group + [st]])
  }

  /** After a manifest, its task expects the manifest's count, keeps its buffered groups, and no other task changes. */
  lemma ManifestRecorded(ds: map<string, TaskDispatch>, m: DispatchManifest, launched: seq<SubTask>,
                         started: int, ds': map<string, TaskDispatch>, launched': seq<SubTask>)
    requires StartOutcome(m.taskId, Manifested(ds, m), ds[m.taskId := Manifested(ds, m)], launched, started, ds', launched')
    ensures m.taskId in ds' && ds'[m.taskId].expected == |m.subTaskIds|
    ensures ds'[m.taskId].bySeq == (if m.taskId in ds then ds[m.taskId].bySeq else map[])
    ensures forall t <- ds :: t != m.taskId ==> t in ds' && ds'[t] == ds[t]
    ensures started == -1 ==> launched' == launched
  {
  }

  /** After a subtask arrives, it closes its group's buffer, the other groups are as they were, and no other task changes. */
  lemma SubTaskRecorded(ds: map<string, TaskDispatch>, st: SubTask, launched: seq<SubTask>,
                        started: int, ds': map<string, TaskDispatch>, launched': seq<SubTask>)
    requires StartOutcome(st.parentTaskId, WithSubTask(ds, st), ds[st.parentTaskId := WithSubTask(ds, st)], launched, started, ds', launched')
    ensures var old_groups := if st.parentTaskId in ds then ds[st.parentTaskId].bySeq else map[];
            && st.parentTaskId in ds' && st.sequence in ds'[st.parentTaskId].bySeq
            && var group := ds'[st.parentTaskId].bySeq[st.sequence];
            && group == (if st.sequence in old_groups then old_groups[st.sequence] else []) + [st]
            && forall k <- old_groups :: k != st.sequence ==> k in ds'[st.parentTaskId].bySeq && ds'[st.parentTaskId].bySeq[k] == old_groups[k]
    ensures forall t <- ds :: t != st.parentTaskId ==> t in ds' && ds'[t] == ds[t]
    ensures started == -1 ==> launched' == launched
  {
  }

  class Dispatcher {
    var dispatches: map<string, TaskDispatch>
    /** The subtasks handed to an executor and validator pair, in launch order. */
    var launched: seq<SubTask>
    /** The tasks whose execution context was cancelled. */
    var cancelled: seq<string>

    ghost predicate Valid()
      reads this
    {
      && (forall id <- dispatches :: WellFormed(dispatches[id]))
      && (forall st <- launched :: st.sequence > 0)
    }

    constructor()
      ensures dispatches == map[] && launched == [] && cancelled == [] && Valid()
    {
      dispatches := map[];
      launched := [];
      cancelled := [];
    }

    /** Launch one group: it becomes the current group, and every subtask of it starts. */
    method DispatchSeq(taskId: string, td: TaskDispatch, s: int)
      requires Valid() && WellFormed(td) && s in td.bySeq && s > 0
      modifies this
      ensures Valid()
      ensures dispatches == old(dispatches)[taskId := td.(currentSeq := s, inFlight := td.inFlight + |td.bySeq[s]|)]
      ensures launched == old(launched) + Injected(td.bySeq[s], PriorContext(td.prevOutputs))
      ensures cancelled == old(cancelled)
    {
      var group := td.bySeq[s];
      var prevCtx := PriorContext(td.prevOutputs);
      var inFlight := td.inFlight;
      for i := 0 to |group|
        invariant launched == old(launched) + Injected(group[..i], prevCtx)
        invariant inFlight == td.inFlight + i
        invariant forall st <- launched :: st.sequence > 0
        invariant dispatches == old(dispatches) && cancelled == old(cancelled)
      {
        var st := group[i];
        if prevCtx != "" {
          st := st.(context := st.context + prevCtx);
        }
        assert Injected(group[..i + 1], prevCtx) == Injected(group[..i], prevCtx) + [st];
        assert group[i] in td.bySeq[s];
        launched := launched + [st];
        inFlight := inFlight + 1;
      }
      assert group[..|group|] == group;
      dispatches := dispatches[taskId := td.(currentSeq := s, inFlight := inFlight)];
    }

    /**
     * Start the first group once the manifest has arrived, nothing runs,
     * nothing has started and every expected subtask is buffered; the
     * group started is the smallest positive sequence number, reported in
     * `started`, which is -1 when nothing starts.
     */
    method TryStart(taskId: string) returns (started: int)
      requires Valid() && taskId in dispatches
      modifies this
      ensures Valid()
      ensures StartOutcome(taskId, old(dispatches[taskId]), old(dispatches), old(launched), started, dispatches, launched)
      ensures cancelled == old(cancelled)
    {
      var td := dispatches[taskId];
      if td.expected <= 0 || td.inFlight > 0 || td.currentSeq > 0 {
        return -1;
      }
      var total := Buffered(td.bySeq);
      if total < td.expected {
        return -1;
      }
      started := MinSeqAbove(td.bySeq, 0);
      if started >= 0 {
        DispatchSeq(taskId, td, started);
      }
    }

    /** Abort: cancel the task and forget its dispatch state; unknown tasks are ignored. */
    method Abort(taskId: string)
      requires Valid()
      modifies this
      ensures Valid()
      ensures dispatches == old(dispatches) - {taskId} && launched == old(launched)
      ensures cancelled == old(cancelled) + (if taskId in old(dispatches) then [taskId] else [])
    {
      if taskId in dispatches {
        cancelled := cancelled + [taskId];
        dispatches := dispatches - {taskId};
      }
    }

    /** A manifest sets the expected count (creating the state if needed) and tries to start. */
    method OnManifest(m: DispatchManifest) returns (started: int)
      requires Valid()
      modifies this
      ensures Valid()
      ensures var td := Manifested(old(dispatches), m);
              StartOutcome(m.taskId, td, old(dispatches)[m.taskId := td], old(launched), started, dispatches, launched)
      ensures cancelled == old(cancelled)
    {
      var td := if m.taskId in dispatches then dispatches[m.taskId] else NewDispatch();
      dispatches := dispatches[m.taskId := td.(expected := |m.subTaskIds|)];
      started := TryStart(m.taskId);
    }

    /** A subtask is buffered under its sequence number (creating the state if needed), then a start is tried. */
    method OnSubTask(st: SubTask) returns (started: int)
      requires Valid()
      modifies this
      ensures Valid()
      ensures var td := WithSubTask(old(dispatches), st);
              StartOutcome(st.parentTaskId, td, old(dispatches)[st.parentTaskId := td], old(launched), started, dispatches, launched)
      ensures cancelled == old(cancelled)
    {
      var td := if st.parentTaskId in dispatches then dispatches[st.parentTaskId] else NewDispatch();
      var group := if st.sequence in td.bySeq then td.bySeq[st.sequence] else [];
      td := td.(bySeq := td.bySeq[st.sequence := group + [st]]);
      dispatches := dispatches[st.parentTaskId := td];
      started := TryStart(st.parentTaskId);
    }

    /**
     * A subtask finished: record its output and count it down; when its
     * group is done, start the next higher group or, when there is none,
     * forget the task. Completions of unknown tasks are ignored.
     */
    method OnCompletion(parentTaskId: string, output: Value) returns (next: int)
      requires Valid()
      modifies this
      ensures Valid()
      ensures parentTaskId !in old(dispatches) ==>
                next == -1 && dispatches == old(dispatches) && launched == old(launched)
      ensures parentTaskId in old(dispatches) ==>
                var td := old(dispatches)[parentTaskId];
                var td' := td.(prevOutputs := td.prevOutputs + OutputText(output), inFlight := td.inFlight - 1);
                && (td'.inFlight != 0 ==> next == -1 && dispatches == old(dispatches)[parentTaskId := td'] && launched == old(launched))
                && (td'.inFlight == 0 && next == -1 ==>
                      dispatches == old(dispatches) - {parentTaskId} && launched == old(launched)
                      && forall k <- td.bySeq :: k <= td.currentSeq)
                && (next != -1 ==>
                      && td'.inFlight == 0
                      && IsMinAbove(td.bySeq, td.currentSeq, next)
                      && next > td.currentSeq
                      && dispatches == old(dispatches)[parentTaskId := td'.(currentSeq := next, inFlight := |td.bySeq[next]|)]
                      && launched == old(launched) + Injected(td.bySeq[next], PriorContext(td'.prevOutputs)))
      ensures cancelled == old(cancelled)
    {
      next := -1;
      if parentTaskId !in dispatches {
        return;
      }
      var td := dispatches[parentTaskId];
      td := td.(prevOutputs := td.prevOutputs + OutputText(output));
      td := td.(inFlight := td.inFlight - 1);
      if td.inFlight == 0 {
        next := MinSeqAbove(td.bySeq, td.currentSeq);
        if next >= 0 {
          DispatchSeq(parentTaskId, td, next);
        } else {
          dispatches := dispatches - {parentTaskId};
        }
      } else {
        dispatches := dispatches[parentTaskId := td];
      }
    }
  }

  // ---------------------------------------------------------------------
  // REPL history
  // ---------------------------------------------------------------------

  const MaxHistory: nat := 5

  datatype SessionEntry = SessionEntry(input: string, summary: string)

  /** Append a turn and keep only the last five. */
  method RecordTurn(history: seq<SessionEntry>, e: SessionEntry) returns (h: seq<SessionEntry>)
    ensures |h| <= MaxHistory
    ensures |h| == if |history| + 1 > MaxHistory then MaxHistory else |history| + 1
    ensures h[|h| - 1] == e
    ensures h == (history + [e])[|history| + 1 - |h|..]
  {
    h := history + [e];
    if |h| > MaxHistory {
      h := h[|h| - MaxHistory..];
    }
  }

  /** One numbered turn of the session context. */
  function TurnLine(n: nat, e: SessionEntry): string
  {
    "[" + NatToString(n) + "] User: " + e.input + "\n    Result: " + FirstN(e.summary, 120) + "\n"
  }

  function SessionContext(history: seq<SessionEntry>): string
  {
    if history == [] then ""
    else SessionContext(history[..|history| - 1]) + TurnLine(|history|, history[|history| - 1])
  }

  /** The session context is empty exactly when there is no history, and grows with every turn. */
  lemma {:induction false} SessionContextSpec(history: seq<SessionEntry>)
    ensures SessionContext(history) == "" <==> history == []
    ensures history != [] ==> HasPrefix(SessionContext(history), SessionContext(history[..|history| - 1]))
  {
    if history != [] {
      var init := SessionContext(history[..|history| - 1]);
      var line := TurnLine(|history|, history[|history| - 1]);
      assert line[0] == '[';
      assert (init + line)[..|init|] == init;
    }
  }

  method BuildSessionContext(history: seq<SessionEntry>) returns (ctx: string)
    ensures ctx == SessionContext(history)
  {
    if |history| == 0 {
      return "";
    }
    ctx := "";
    for i := 0 to |history|
      invariant ctx == SessionContext(history[..i])
    {
      assert history[..i + 1][..i] == history[..i];
      ctx := ctx + TurnLine(i + 1, history[i]);
    }
    assert history[..|history|] == history;
  }
}
