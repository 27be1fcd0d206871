/**
 * Per-task structured logs. A registry maps task ids to open logs; each
 * log is an append-only sequence of events with running prompt and
 * completion token counters. Every event method is a no-op on a nil
 * log, and a closed log appends nothing more.
 */
module TaskLog {
  /** One line of a task log; the timestamp every line carries is left out. */
  datatype Event =
    | TaskBegin(taskId: string, intent: string)
    | TaskEnd(taskId: string, status: string, elapsedMs: int, totalTokens: int)
    | SubtaskBegin(subtaskId: string, intent: string, sequence: int, criteria: seq<string>)
    | SubtaskEnd(subtaskId: string, status: string)
    | LLMCall(role: string, systemPrompt: string, userPrompt: string, response: string,
              promptTokens: int, completionTokens: int, iterIndex: int)
    | ToolCall(subtaskId: string, tool: string, toolInput: string, toolOutput: string, toolError: string)
    | CriterionVerdict(subtaskId: string, criterion: string, met: bool, evidence: string, attempt: int)
    | Correction(subtaskId: string, whatWasWrong: string, whatToDo: string, attempt: int)
    | Replan(gapSummary: string, gapTrend: string, replanRound: int)

  /** A log as a value: its events, its token counters and whether its file is still open. */
  datatype Log = Log(taskId: string, started: int, events: seq<Event>, promptTokens: int, completionTokens: int, open: bool)

  function Tokens(l: Log): int
  {
    l.promptTokens + l.completionTokens
  }

  /** The tokens an event reports: those of an LLM call, none for any other. */
  function EventTokens(e: Event): int
  {
    if e.LLMCall? then e.promptTokens + e.completionTokens else 0
  }

  /** The tokens over all LLM call events. */
  function TokenSum(events: seq<Event>): int
  {
    if events == [] then 0 else TokenSum(events[..|events| - 1]) + EventTokens(events[|events| - 1])
  }

  /** While the log is open, its counters agree with the LLM call events it holds. */
  predicate Tallied(l: Log)
  {
    l.open ==> Tokens(l) == TokenSum(l.events)
  }

  /** A freshly opened log. */
  function Begun(taskId: string, intent: string, now: int): Log
  {
    Log(taskId, now, [TaskBegin(taskId, intent)], 0, 0, true)
  }

  /** write: one more line, unless the file is closed. */
  function Written(l: Log, e: Event): Log
  {
    if l.open then l.(events := l.events + [e]) else l
  }

  /** LLMCall: the counters grow even on a closed log; the line is written only while open. */
  function Called(l: Log, e: Event): Log
    requires e.LLMCall?
  {
    Written(l.(promptTokens := l.promptTokens + e.promptTokens, completionTokens := l.completionTokens + e.completionTokens), e)
  }

  /** Close's part on the log: a task_end line with the elapsed time and the token total, then the file is closed. */
  function Ended(l: Log, taskId: string, status: string, now: int): Log
  {
    Written(l, TaskEnd(taskId, status, now - l.started, Tokens(l))).(open := false)
  }

  lemma TokenSumSnoc(events: seq<Event>, e: Event)
    ensures TokenSum(events + [e]) == TokenSum(events) + EventTokens(e)
  {
    assert (events + [e])[..|events|] == events;
  }

  /** A fresh log starts with task_begin carrying the id and intent, with no tokens. */
  lemma BegunSpec(taskId: string, intent: string, now: int)
    ensures var l := Begun(taskId, intent, now);
            && l.events[0] == TaskBegin(taskId, intent) && |l.events| == 1
            && Tokens(l) == 0 && l.open && Tallied(l)
  {
    assert TokenSum(Begun(taskId, intent, now).events) == TokenSum([]) + 0;
  }

  /** Any line but an LLM call keeps the tally; on a closed log nothing is written. */
  lemma WrittenSpec(l: Log, e: Event)
    requires !e.LLMCall?
    ensures Tallied(l) ==> Tallied(Written(l, e))
    ensures l.open ==> Written(l, e).events == l.events + [e]
    ensures !l.open ==> Written(l, e) == l
    ensures Tokens(Written(l, e)) == Tokens(l)
  {
    if l.open {
      TokenSumSnoc(l.events, e);
    }
  }

  /** An LLM call adds its tokens to the total and keeps the tally. */
  lemma CalledSpec(l: Log, e: Event)
    requires e.LLMCall?
    ensures Tokens(Called(l, e)) == Tokens(l) + e.promptTokens + e.completionTokens
    ensures Tallied(l) ==> Tallied(Called(l, e))
    ensures l.open ==> Called(l, e).events == l.events + [e]
    ensures !l.open ==> Called(l, e).events == l.events
  {
    var counted := l.(promptTokens := l.promptTokens + e.promptTokens, completionTokens := l.completionTokens + e.completionTokens);
    assert Called(l, e) == Written(counted, e);
    assert Tokens(counted) == Tokens(l) + e.promptTokens + e.completionTokens;
    if l.open {
      TokenSumSnoc(l.events, e);
      assert EventTokens(e) == e.promptTokens + e.completionTokens;
    }
  }

  /**
   * Closing an open, tallied log ends it with a task_end line whose total
   * is the sum of the tokens of every LLM call logged before it; after
   * that nothing more is written.
   */
  lemma EndedSpec(l: Log, taskId: string, status: string, now: int, e: Event)
    requires l.open && Tallied(l)
    ensures var r := Ended(l, taskId, status, now);
            && |r.events| == |l.events| + 1 && r.events[..|l.events|] == l.events
            && r.events[|l.events|] == TaskEnd(taskId, status, now - l.started, TokenSum(l.events))
            && !r.open && Tallied(r)
            && Written(r, e) == r
  {
    assert Ended(l, taskId, status, now).events[..|l.events|] == l.events;
  }

  class TaskLog {
    const taskId: string
    const started: int
    var events: seq<Event>
    var promptTokens: int
    var completionTokens: int
    var open: bool

    function State(): Log
      reads this
    {
      Log(taskId, started, events, promptTokens, completionTokens, open)
    }

    constructor (taskId: string, intent: string, now: int)
      ensures State() == Begun(taskId, intent, now)
    {
      this.taskId := taskId;
      this.started := now;
      events := [TaskBegin(taskId, intent)];
      promptTokens := 0;
      completionTokens := 0;
      open := true;
    }

    /** write: append one line unless the file is closed. */
    method Write(e: Event)
      modifies this
      ensures State() == Written(old(State()), e)
    {
      if open {
        events := events + [e];
      }
    }
  }

  /** SubtaskBegin; a no-op on a nil log. */
  method LogSubtaskBegin(tl: TaskLog?, subtaskId: string, intent: string, sequence: int, criteria: seq<string>)
    modifies tl
    ensures tl != null ==> tl.State() == Written(old(tl.State()), SubtaskBegin(subtaskId, intent, sequence, criteria))
  {
    if tl == null {
      return;
    }
    tl.Write(SubtaskBegin(subtaskId, intent, sequence, criteria));
  }

  /** SubtaskEnd; a no-op on a nil log. */
  method LogSubtaskEnd(tl: TaskLog?, subtaskId: string, status: string)
    modifies tl
    ensures tl != null ==> tl.State() == Written(old(tl.State()), SubtaskEnd(subtaskId, status))
  {
    if tl == null {
      return;
    }
    tl.Write(SubtaskEnd(subtaskId, status));
  }

  /** LLMCall: add the tokens, then write the line; a no-op on a nil log. */
  method LogLLMCall(tl: TaskLog?, role: string, systemPrompt: string, userPrompt: string, response: string,
                    promptToks: int, completionToks: int, iterIndex: int)
    modifies tl
    ensures tl != null ==>
              tl.State() == Called(old(tl.State()), LLMCall(role, systemPrompt, userPrompt, response, promptToks, completionToks, iterIndex))
  {
    if tl == null {
      return;
    }
    tl.promptTokens := tl.promptTokens + promptToks;
    tl.completionTokens := tl.completionTokens + completionToks;
    tl.Write(LLMCall(role, systemPrompt, userPrompt, response, promptToks, completionToks, iterIndex));
  }

  /** ToolCall; a no-op on a nil log. */
  method LogToolCall(tl: TaskLog?, subtaskId: string, tool: string, toolInput: string, toolOutput: string, toolError: string)
    modifies tl
    ensures tl != null ==> tl.State() == Written(old(tl.State()), ToolCall(subtaskId, tool, toolInput, toolOutput, toolError))
  {
    if tl == null {
      return;
    }
    tl.Write(ToolCall(subtaskId, tool, toolInput, toolOutput, toolError));
  }

  /** CriterionVerdict; a no-op on a nil log. */
  method LogCriterionVerdict(tl: TaskLog?, subtaskId: string, criterion: string, met: bool, evidence: string, attempt: int)
    modifies tl
    ensures tl != null ==> tl.State() == Written(old(tl.State()), CriterionVerdict(subtaskId, criterion, met, evidence, attempt))
  {
    if tl == null {
      return;
    }
    tl.Write(CriterionVerdict(subtaskId, criterion, met, evidence, attempt));
  }

  /** Correction; a no-op on a nil log. */
  method LogCorrection(tl: TaskLog?, subtaskId: string, whatWasWrong: string, whatToDo: string, attempt: int)
    modifies tl
    ensures tl != null ==> tl.State() == Written(old(tl.State()), Correction(subtaskId, whatWasWrong, whatToDo, attempt))
  {
    if tl == null {
      return;
    }
    tl.Write(Correction(subtaskId, whatWasWrong, whatToDo, attempt));
  }

  /** Replan; a no-op on a nil log. */
  method LogReplan(tl: TaskLog?, gapSummary: string, gapTrend: string, replanRound: int)
    modifies tl
    ensures tl != null ==> tl.State() == Written(old(tl.State()), Replan(gapSummary, gapTrend, replanRound))
  {
    if tl == null {
      return;
    }
    tl.Write(Replan(gapSummary, gapTrend, replanRound));
  }

  /** TotalTokens: 0 on a nil log, else the sum of both counters. */
  method TotalTokens(tl: TaskLog?) returns (n: int)
    ensures tl == null ==> n == 0
    ensures tl != null ==> n == tl.promptTokens + tl.completionTokens
    ensures tl != null && Tallied(tl.State()) && tl.open ==> n == TokenSum(tl.events)
  {
    if tl == null {
      return 0;
    }
    n := tl.promptTokens + tl.completionTokens;
  }

  class Registry {
    /** Open logs by task id. */
    var logs: map<string, TaskLog>

    /** Every registered log is open, under its own task id, and tallied. */
    ghost predicate Valid()
      reads this, logs.Values
    {
      forall id :: id in logs ==> Registered(id)
    }

    ghost predicate Registered(id: string)
      requires id in logs
      reads this, logs.Values
    {
      logs[id].taskId == id && logs[id].open && Tallied(logs[id].State())
    }

    constructor ()
      ensures logs == map[] && Valid()
    {
      logs := map[];
    }

    /**
     * Open: the log already registered for the id, untouched; otherwise,
     * when the directory and file can be created (`created`), a new log
     * whose first line is task_begin; otherwise nil.
     */
    method Open(taskId: string, intent: string, now: int, created: bool) returns (tl: TaskLog?)
      requires Valid()
      modifies this
      ensures Valid()
      ensures taskId in old(logs) ==> tl == old(logs[taskId]) && logs == old(logs)
      ensures taskId !in old(logs) && created ==>
                tl != null && fresh(tl) && tl.State() == Begun(taskId, intent, now) && logs == old(logs)[taskId := tl]
      ensures taskId !in old(logs) && !created ==> tl == null && logs == old(logs)
    {
      if taskId in logs {
        return logs[taskId];
      }
      if !created {
        return null;
      }
      tl := new TaskLog(taskId, intent, now);
      BegunSpec(taskId, intent, now);
      logs := logs[taskId := tl];
      forall id | id in logs
        ensures Registered(id)
      {
        if id != taskId {
          assert id in old(logs) && old(Registered(id));
        }
      }
    }
  }

  /** Get: nil on a nil registry or an unknown id, else the log Open returned. */
  method Get(r: Registry?, taskId: string) returns (tl: TaskLog?)
    ensures r == null || taskId !in r.logs ==> tl == null
    ensures r != null && taskId in r.logs ==> tl == r.logs[taskId]
  {
    if r == null || taskId !in r.logs {
      return null;
    }
    return r.logs[taskId];
  }

  /**
   * Close: on a registered id, forget it, end its log with task_end and
   * close the file; a no-op on a nil registry or an unknown id.
   */
  method Close(r: Registry?, taskId: string, status: string, now: int)
    requires r != null ==> r.Valid()
    modifies r, if r != null && taskId in r.logs then {r.logs[taskId]} else {}
    ensures r != null ==> r.Valid()
    ensures r != null && taskId in old(r.logs) ==>
              && r.logs == old(r.logs) - {taskId}
              && old(r.logs[taskId]).State() == Ended(old(r.logs[taskId].State()), taskId, status, now)
    ensures r != null && taskId !in old(r.logs) ==> r.logs == old(r.logs)
  {
    if r == null || taskId !in r.logs {
      return;
    }
    var tl := r.logs[taskId];
    r.logs := r.logs - {taskId};
    tl.Write(TaskEnd(taskId, status, now - tl.started, tl.promptTokens + tl.completionTokens));
    tl.open := false;
    forall id | id in r.logs
      ensures r.Registered(id)
    {
      assert id in old(r.logs) && old(r.Registered(id));
      assert r.logs[id] != tl;
    }
  }
}
