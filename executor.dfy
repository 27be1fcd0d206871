/**
 * The executor role (R3): the bounded LLM turn loop that either returns a
 * final ExecutionResult or runs one tool per turn, with its repeat-call
 * guard, and the string helpers it uses to clip tool output and to
 * rewrite shell `find` commands.
 */
module Executor {
  import opened Types
  import opened Text
  import Llm

  const MaxToolCalls: nat := 10
  const MiddleMarker: string := "\n...[middle truncated]...\n"
  const Arrow: string := " → "
  const FindPrefix: string := "find "
  const DevNull: string := "2>/dev/null"
  const DevNullSpaced: string := "2> /dev/null"
  const PersonalPrefixes: seq<string> := ["/Users/", " ~/", " ~ ", "/home/", "/Volumes/"]

  /** The last `n` bytes of a long string after "...", a short one whole. */
  function LastN(s: string, n: nat): (r: string)
    ensures |s| <= n ==> r == s
    ensures |s| > n ==> |r| == n + 3 && HasPrefix(r, "...") && HasSuffix(r, s[|s| - n..])
  {
    if |s| <= n then s else "..." + s[|s| - n..]
  }

  /** Keep the first third and the last two thirds of `maxLen` bytes around a marker. */
  function HeadTail(s: string, maxLen: nat): string
  {
    if |s| <= maxLen then s
    else
      var head := maxLen / 3;
      s[..head] + MiddleMarker + s[|s| - (maxLen - head)..]
  }

  /**
   * A short output passes unchanged. A long one keeps exactly `maxLen`
   * bytes of it: a head of `maxLen/3` bytes from its start and a tail of
   * the rest from its end, no shorter than the head, separated by the
   * marker.
   */
  lemma HeadTailSpec(s: string, maxLen: nat)
    ensures |s| <= maxLen ==> HeadTail(s, maxLen) == s
    ensures |s| > maxLen ==>
              var r := HeadTail(s, maxLen);
              var head := maxLen / 3;
              && |r| == maxLen + |MiddleMarker|
              && HasPrefix(r, s[..head] + MiddleMarker)
              && HasSuffix(r, s[|s| - (maxLen - head)..])
              && head <= maxLen - head
  {
    if |s| > maxLen {
      var head := maxLen / 3;
      var r := HeadTail(s, maxLen);
      var a := s[..head] + MiddleMarker;
      var b := s[|s| - (maxLen - head)..];
      assert r == a + b;
      assert r[..|a|] == a;
      assert r[|r| - |b|..] == b;
    }
  }

  // ---------------------------------------------------------------------
  // Shell `find` rewriting
  // ---------------------------------------------------------------------

  /** Whether the command names one of the personal-file locations. */
  predicate MentionsPersonalPath(s: string)
  {
    exists i :: 0 <= i < |PersonalPrefixes| && Contains(s, PersonalPrefixes[i])
  }

  /**
   * A personal-file `find … -name P` becomes the mdfind query P. The
   * regular expression that extracts the -name pattern is the parameter
   * `nameMatch`.
   */
  function RedirectPersonalFind(cmd: string, nameMatch: string -> Option<string>): (r: Option<string>)
    ensures var t := TrimSpace(cmd);
            r.Some? <==> HasPrefix(t, FindPrefix) && MentionsPersonalPath(t) && nameMatch(t).Some?
    ensures r.Some? ==> r == nameMatch(TrimSpace(cmd))
  {
    var t := TrimSpace(cmd);
    if !HasPrefix(t, FindPrefix) then None
    else if !MentionsPersonalPath(t) then None
    else nameMatch(t)
  }

  /**
   * A `find` command loses its -maxdepth options (the parameter
   * `stripMaxdepth` is that regular-expression replacement) and gains
   * " 2>/dev/null" unless it already redirects standard error; any other
   * command is left alone.
   */
  function NormalizeFindCmd(cmd: string, stripMaxdepth: string -> string): string
  {
    if !HasPrefix(TrimSpace(cmd), FindPrefix) then cmd
    else
      var c := stripMaxdepth(cmd);
      if !Contains(c, DevNull) && !Contains(c, DevNullSpaced) then TrimRightSet(c, {' ', '\t'}) + " " + DevNull
      else c
  }

  lemma ContainsSuffix(a: string, b: string)
    ensures Contains(a + b, b)
  {
    assert (a + b)[|a|..|a| + |b|] == b;
    ContainsAt(a + b, b, |a|);
  }

  /**
   * Commands that are not `find` pass unchanged. A normalised `find`
   * always silences standard error, and the suffix is added exactly when
   * neither spelling of the redirect was already there.
   */
  lemma NormalizeFindCmdSpec(cmd: string, stripMaxdepth: string -> string)
    ensures !HasPrefix(TrimSpace(cmd), FindPrefix) ==> NormalizeFindCmd(cmd, stripMaxdepth) == cmd
    ensures HasPrefix(TrimSpace(cmd), FindPrefix) ==>
              var c := stripMaxdepth(cmd);
              var r := NormalizeFindCmd(cmd, stripMaxdepth);
              && (Contains(r, DevNull) || Contains(r, DevNullSpaced))
              && (r != c <==> !Contains(c, DevNull) && !Contains(c, DevNullSpaced))
              && (r != c ==> HasSuffix(r, " " + DevNull))
  {
    if HasPrefix(TrimSpace(cmd), FindPrefix) {
      var c := stripMaxdepth(cmd);
      if !Contains(c, DevNull) && !Contains(c, DevNullSpaced) {
        var r := NormalizeFindCmd(cmd, stripMaxdepth);
        var a := TrimRightSet(c, {' ', '\t'}) + " ";
        assert r == a + DevNull;
        ContainsSuffix(a, DevNull);
        assert r[|r| - |" " + DevNull|..] == " " + DevNull;
      }
    }
  }

  /** Where a shell tool call goes: to mdfind for a personal-file find, else to the shell. */
  datatype ShellRoute = ToMdfind(query: string) | ToShell(command: string)

  function RouteShell(cmd: string, nameMatch: string -> Option<string>, stripMaxdepth: string -> string): (r: ShellRoute)
    ensures r.ToMdfind? <==> RedirectPersonalFind(cmd, nameMatch).Some?
    ensures r.ToMdfind? ==> r.query == nameMatch(TrimSpace(cmd)).value
    ensures r.ToShell? && !HasPrefix(TrimSpace(cmd), FindPrefix) ==> r.command == cmd
  {
    match RedirectPersonalFind(cmd, nameMatch)
    case Some(q) => ToMdfind(q)
    case None => ToShell(NormalizeFindCmd(cmd, stripMaxdepth))
  }

  // ---------------------------------------------------------------------
  // The turn loop
  // ---------------------------------------------------------------------

  /** A tool call as the LLM emits it. */
  datatype ToolCall = ToolCall(
    tool: string, command: string, path: string, content: string, query: string,
    pattern: string, root: string, script: string, name: string, input: string)

  /** A reply that parsed as a final result (its action field included). */
  datatype FinalReply = FinalReply(action: string, status: string, output: Value, uncertainty: Option<string>)

  datatype ToolRun = ToolOk(output: string) | ToolErr(message: string)

  /**
   * How `execute` ends: an error (the LLM failed or its reply parsed as
   * neither a result nor a tool call), a final result, or the turn budget
   * spent, with the notes of the tool-results context gathered (the
   * result it reports is Uncertain). `signatures` lists the signature of
   * every recorded tool call, parallel to the history.
   */
  datatype Execution =
    | ExecFailed(reason: string, history: seq<string>, signatures: seq<string>, llmCalls: nat)
    | Finished(result: ExecutionResult, signatures: seq<string>, llmCalls: nat)
    | Exhausted(history: seq<string>, signatures: seq<string>, notes: seq<Note>, llmCalls: nat)

  const NoPrior: string := "none"
  const ResultsHeading: string := "\n\nTool results so far:\n"
  const ResultsNudge: string := "\nYou have the tool output above. Output the final ExecutionResult JSON now (status=completed)." + " Only make another tool call if the output above is genuinely insufficient."

  /**
   * The first prompt: the correction template (the parameter
   * `formatCorrection`) with the prior calls or "none" for a retry, else
   * the working directory and the subtask.
   */
  function UserPrompt(st: SubTask, correction: Option<CorrectionSignal>, priorToolCalls: seq<string>, wd: string,
                      subTaskJson: SubTask -> string, formatCorrection: (string, string, string) -> string): string
  {
    match correction
    case Some(c) =>
      var prior := Join(priorToolCalls, ", ");
      formatCorrection(c.whatWasWrong, c.whatToDo, if prior == "" then NoPrior else prior)
        + "\n\nOriginal SubTask:\n" + subTaskJson(st) + "\n\nCurrent working directory: " + wd
    case None =>
      "Current working directory: " + wd + "\n\nExecute this SubTask:\n" + subTaskJson(st)
  }

  /** The prompt of one turn: the tool results so far are appended once there are any. */
  function TurnPrompt(userPrompt: string, ctx: string): (r: string)
    ensures ctx == "" ==> r == userPrompt
    ensures ctx != "" ==> HasPrefix(r, userPrompt + ResultsHeading + ctx)
  {
    if |ctx| > 0 then
      var p := userPrompt + ResultsHeading + ctx;
      assert (p + ResultsNudge)[..|p|] == p;
      p + ResultsNudge
    else userPrompt
  }

  /** What identifies a tool call for the repeat guard: its tool and clipped parameters. */
  function Signature(tc: ToolCall): (r: string)
    ensures HasPrefix(r, tc.tool + ":")
  {
    var detail := tc.command + tc.path + tc.query + tc.pattern + tc.name + FirstN(tc.script, 40);
    var p := tc.tool + ":";
    var r := p + FirstN(detail, 60);
    assert r[..|p|] == p;
    r
  }

  const NoticeHead: string := "\n⚠️ DUPLICATE CALL BLOCKED: ["
  const NoticeTail: string := "] was already called with identical parameters"
    + " — repeated calls return identical results and waste budget. You MUST now either:\n"
    + "1. Output the final result using what you already have (even if partial), OR\n"
    + "2. Use a COMPLETELY DIFFERENT query, tool, or approach.\nDo NOT repeat this call.\n"

  /** The notice that replaces a repeated call's output in the context. */
  function DuplicateNotice(tool: string): string
  {
    NoticeHead + tool + NoticeTail
  }

  /** The history entry of a run tool: its signature followed by the evidence. */
  function Evidence(sig: string, run: ToolRun): string
  {
    match run
    case ToolOk(out) => sig + Arrow + FirstN(TrimSpace(out), 200)
    case ToolErr(msg) => sig + Arrow + "ERROR: " + FirstN(msg, 80)
  }

  /** What a run tool adds to the tool-results context. */
  function ResultText(tool: string, run: ToolRun): string
  {
    match run
    case ToolOk(out) => "Tool " + tool + " result:\n" + HeadTail(out, 4000) + "\n"
    case ToolErr(msg) => "Tool " + tool + " ERROR: " + msg + "\n"
  }

  /** One piece of the tool-results context: a blocked repeat or a tool's output. */
  datatype Note = Blocked(tool: string) | Output(tool: string, run: ToolRun)

  function NoteText(n: Note): string
  {
    match n
    case Blocked(tool) => DuplicateNotice(tool)
    case Output(tool, run) => ResultText(tool, run)
  }

  /** The tool-results context: the notes' texts in order. */
  function Rendered(notes: seq<Note>): string
  {
    if notes == [] then "" else Rendered(notes[..|notes| - 1]) + NoteText(notes[|notes| - 1])
  }

  /** Adding notes only extends the context. */
  lemma {:induction false} RenderedPrefix(a: seq<Note>, b: seq<Note>)
    requires a <= b
    ensures HasPrefix(Rendered(b), Rendered(a))
    decreases |b|
  {
    if |a| < |b| {
      var b' := b[..|b| - 1];
      assert a <= b';
      RenderedPrefix(a, b');
      var x := Rendered(b');
      var y := x + NoteText(b[|b| - 1]);
      assert y[..|Rendered(a)|] == x[..|Rendered(a)|];
    } else {
      assert a == b;
    }
  }

  /** The parameters of the turn loop that stay fixed: the subtask, the first prompt and the oracles. */
  datatype Env = Env(
    st: SubTask,
    userPrompt: string,
    chat: (nat, string) -> Option<string>,
    parseFinal: string -> Option<FinalReply>,
    parseTool: string -> Option<ToolCall>,
    runTool: ToolCall -> ToolRun)

  /** What one LLM turn yields once its reply is stripped of fences and parsed. */
  datatype Reply = ChatError | FinalAnswer(fr: FinalReply) | CallTool(tc: ToolCall) | Unparsable

  /** A reply is a final answer when it parses as one whose action is "result", else it must be a tool call. */
  function Decide(env: Env, i: nat, notes: seq<Note>): Reply
  {
    match env.chat(i, TurnPrompt(env.userPrompt, Rendered(notes)))
    case None => ChatError
    case Some(reply) =>
      var raw := Llm.StripFences(reply);
      var fr := env.parseFinal(raw);
      if fr.Some? && fr.value.action == "result" then FinalAnswer(fr.value)
      else
        match env.parseTool(raw)
        case None => Unparsable
        case Some(tc) => CallTool(tc)
  }

  /** A call is a repeat when its signature is that of the last recorded call. */
  predicate IsRepeat(sigs: seq<string>, sig: string)
  {
    |sigs| > 0 && sig == sigs[|sigs| - 1]
  }

  /**
   * What the loop carries from turn to turn: the history of recorded
   * calls, their signatures (parallel to it) and the notes of the
   * tool-results context.
   */
  datatype State = State(hist: seq<string>, sigs: seq<string>, notes: seq<Note>)

  /** One turn ends the loop with an execution or goes on with a new state. */
  datatype Turn = Stop(e: Execution) | Continue(next: State)

  /**
   * One turn. A repeated call is neither run nor recorded; a notice goes
   * into the context instead.
   */
  function Step(env: Env, i: nat, s: State): Turn
  {
    match Decide(env, i, s.notes)
    case ChatError => Stop(ExecFailed("llm", s.hist, s.sigs, i + 1))
    case Unparsable => Stop(ExecFailed("parse LLM output", s.hist, s.sigs, i + 1))
    case FinalAnswer(fr) =>
      Stop(Finished(ExecutionResult(env.st.subTaskId, fr.status, fr.output, fr.uncertainty, s.hist), s.sigs, i + 1))
    case CallTool(tc) =>
      var sig := Signature(tc);
      if IsRepeat(s.sigs, sig) then
        Continue(s.(notes := s.notes + [Blocked(tc.tool)]))
      else
        var run := env.runTool(tc);
        Continue(State(s.hist + [Evidence(sig, run)], s.sigs + [sig], s.notes + [Output(tc.tool, run)]))
  }

  /** The result reported when the budget is spent: "uncertain", with the tool-results context as output. */
  function Uncertain(st: SubTask, hist: seq<string>, notes: seq<Note>): ExecutionResult
  {
    ExecutionResult(st.subTaskId, "uncertain", Str(Rendered(notes)), None, hist)
  }

  /** The turn loop from turn `i` on. */
  function Run(env: Env, i: nat, s: State): Execution
    decreases MaxToolCalls - i
  {
    if i >= MaxToolCalls then Exhausted(s.hist, s.sigs, s.notes, i)
    else
      match Step(env, i, s)
      case Stop(e) => e
      case Continue(next) => Run(env, i + 1, next)
  }

  /** The recorded calls so far. */
  ghost predicate Recorded(hist: seq<string>, sigs: seq<string>)
  {
    && |hist| == |sigs|
    && (forall k :: 0 <= k < |sigs| ==> EntryOf(hist, sigs, k))
    && (forall k :: 0 < k < |sigs| ==> NotRepeatAt(sigs, k))
  }

  /** History entry `k` starts with the signature of call `k`. */
  ghost predicate EntryOf(hist: seq<string>, sigs: seq<string>, k: int)
    requires 0 <= k < |hist| == |sigs|
  {
    HasPrefix(hist[k], sigs[k] + Arrow)
  }

  /** Call `k` was not a repeat of the call recorded before it. */
  ghost predicate NotRepeatAt(sigs: seq<string>, k: int)
    requires 0 < k < |sigs|
  {
    !IsRepeat(sigs[..k], sigs[k])
  }

  function HistoryOf(e: Execution): seq<string>
  {
    match e
    case ExecFailed(_, h, _, _) => h
    case Finished(r, _, _) => r.toolCalls
    case Exhausted(h, _, _, _) => h
  }

  lemma EvidenceShape(sig: string, run: ToolRun)
    ensures HasPrefix(Evidence(sig, run), sig + Arrow)
  {
    var p := sig + Arrow;
    match run
    case ToolOk(out) =>
      assert Evidence(sig, run) == p + FirstN(TrimSpace(out), 200);
    case ToolErr(msg) =>
      assert Evidence(sig, run) == p + ("ERROR: " + FirstN(msg, 80));
  }

  /** Recording a call that is not a repeat keeps the history well formed. */
  lemma RecordedStep(s: State, sig: string, run: ToolRun)
    requires Recorded(s.hist, s.sigs) && !IsRepeat(s.sigs, sig)
    ensures Recorded(s.hist + [Evidence(sig, run)], s.sigs + [sig])
  {
    EvidenceShape(sig, run);
    var h', s' := s.hist + [Evidence(sig, run)], s.sigs + [sig];
    forall k | 0 <= k < |s'| ensures EntryOf(h', s', k) {
      if k < |s.sigs| {
        assert EntryOf(s.hist, s.sigs, k);
      }
    }
    forall k | 0 < k < |s'| ensures NotRepeatAt(s', k) {
      assert s'[..k] == if k < |s.sigs| then s.sigs[..k] else s.sigs;
      if k < |s.sigs| {
        assert NotRepeatAt(s.sigs, k);
      }
    }
  }

  /**
   * One turn makes one LLM call. A turn that stops ends with the calls
   * recorded so far; a turn that goes on records at most the one call,
   * never a repeat, and only adds to the history and the context.
   */
  lemma StepSpec(env: Env, i: nat, s: State)
    requires Recorded(s.hist, s.sigs)
    ensures match Step(env, i, s)
            case Stop(e) => e.llmCalls == i + 1 && !e.Exhausted? && HistoryOf(e) == s.hist && e.signatures == s.sigs
            case Continue(next) => Recorded(next.hist, next.sigs) && s.hist <= next.hist && s.notes <= next.notes
  {
    var d := Decide(env, i, s.notes);
    if d.CallTool? {
      var sig := Signature(d.tc);
      if !IsRepeat(s.sigs, sig) {
        var run := env.runTool(d.tc);
        RecordedStep(s, sig, run);
      }
    }
  }

  /**
   * From any turn the loop makes at most ten LLM calls in all, and at
   * least one more while turns remain; it never records the same call
   * twice in a row; every history entry starts with the signature of its
   * call; and the history only grows.
   */
  /** What every run from turn `i` and state `s` guarantees of its end `e`. */
  ghost predicate EndsWell(i: nat, s: State, e: Execution)
  {
    && (i < MaxToolCalls ==> i < e.llmCalls <= MaxToolCalls)
    && Recorded(HistoryOf(e), e.signatures)
    && s.hist <= HistoryOf(e)
  }

  lemma {:induction false} RunSpec(env: Env, i: nat, s: State)
    requires Recorded(s.hist, s.sigs)
    ensures EndsWell(i, s, Run(env, i, s))
    decreases MaxToolCalls - i, 2
  {
    if i < MaxToolCalls {
      TurnSpec(env, i, s);
    } else {
      assert Run(env, i, s) == Exhausted(s.hist, s.sigs, s.notes, i);
    }
  }

  /** `RunSpec` for a turn within the budget. */
  lemma {:induction false} TurnSpec(env: Env, i: nat, s: State)
    requires i < MaxToolCalls && Recorded(s.hist, s.sigs)
    ensures EndsWell(i, s, Run(env, i, s))
    decreases MaxToolCalls - i, 1
  {
    if Step(env, i, s).Stop? {
      StopSpec(env, i, s);
    } else {
      ContinueSpec(env, i, s);
    }
  }

  /** `RunSpec` for a turn after which the loop goes on. */
  lemma {:induction false} ContinueSpec(env: Env, i: nat, s: State)
    requires i < MaxToolCalls && Recorded(s.hist, s.sigs) && Step(env, i, s).Continue?
    ensures EndsWell(i, s, Run(env, i, s))
    decreases MaxToolCalls - i, 0
  {
    StepSpec(env, i, s);
    var next := Step(env, i, s).next;
    RunContinues(env, i, s);
    RunSpec(env, i + 1, next);
    var e := Run(env, i + 1, next);
    if i + 1 == MaxToolCalls {
      RunAtLimit(env, i + 1, next);
    }
    EndsWellGrows(i, s, next, e);
  }

  lemma RunContinues(env: Env, i: nat, s: State)
    requires i < MaxToolCalls && Step(env, i, s).Continue?
    ensures Run(env, i, s) == Run(env, i + 1, Step(env, i, s).next)
  {
  }

  lemma RunAtLimit(env: Env, i: nat, s: State)
    requires i >= MaxToolCalls
    ensures Run(env, i, s) == Exhausted(s.hist, s.sigs, s.notes, i)
  {
  }

  lemma EndsWellGrows(i: nat, s: State, next: State, e: Execution)
    requires i < MaxToolCalls && s.hist <= next.hist && EndsWell(i + 1, next, e)
    requires i + 1 == MaxToolCalls ==> e.llmCalls == MaxToolCalls
    ensures EndsWell(i, s, e)
  {
    assert HistoryOf(e)[..|s.hist|] == next.hist[..|s.hist|] == s.hist;
  }

  /** `RunSpec` for a turn that stops the loop. */
  lemma StopSpec(env: Env, i: nat, s: State)
    requires i < MaxToolCalls && Recorded(s.hist, s.sigs) && Step(env, i, s).Stop?
    ensures EndsWell(i, s, Run(env, i, s))
  {
    StepSpec(env, i, s);
    assert Run(env, i, s) == Step(env, i, s).e;
  }

  /**
   * A spent budget ends after ten LLM calls, with a context that extends
   * the one gathered so far; the result it reports is "uncertain" and its
   * output is that context.
   */
  lemma {:induction false} RunExhausted(env: Env, i: nat, s: State)
    requires Recorded(s.hist, s.sigs)
    ensures var e := Run(env, i, s);
            e.Exhausted? ==>
              && e.llmCalls == (if i < MaxToolCalls then MaxToolCalls else i)
              && s.notes <= e.notes
              && var r := Uncertain(env.st, e.history, e.notes);
                 r.status == "uncertain" && r.output.Str? && HasPrefix(r.output.s, Rendered(s.notes))
    decreases MaxToolCalls - i
  {
    if i < MaxToolCalls {
      StepSpec(env, i, s);
      match Step(env, i, s)
      case Stop(e) =>
        assert Run(env, i, s) == e;
      case Continue(next) =>
        assert Run(env, i, s) == Run(env, i + 1, next);
        RunExhausted(env, i + 1, next);
        var e := Run(env, i + 1, next);
        if e.Exhausted? {
          assert e.notes[..|s.notes|] == next.notes[..|s.notes|] == s.notes;
          RenderedPrefix(s.notes, e.notes);
        }
    } else {
      RenderedPrefix(s.notes, s.notes);
    }
  }

  /**
   * Execute a subtask: at most ten turns, each asking the LLM for either
   * the final result or one tool call.
   */
  method Execute(env: Env) returns (e: Execution)
    ensures e == Run(env, 0, State([], [], []))
  {
    var hist: seq<string> := [];
    var sigs: seq<string> := [];
    var notes: seq<Note> := [];
    for i := 0 to MaxToolCalls
      invariant Run(env, i, State(hist, sigs, notes)) == Run(env, 0, State([], [], []))
    {
      var reply := Decide(env, i, notes);
      match reply {
        case ChatError => return ExecFailed("llm", hist, sigs, i + 1);
        case Unparsable => return ExecFailed("parse LLM output", hist, sigs, i + 1);
        case FinalAnswer(fr) =>
          return Finished(ExecutionResult(env.st.subTaskId, fr.status, fr.output, fr.uncertainty, hist), sigs, i + 1);
        case CallTool(tc) =>
          var sig := Signature(tc);
          if IsRepeat(sigs, sig) {
            notes := notes + [Blocked(tc.tool)];
          } else {
            var run := env.runTool(tc);
            hist := hist + [Evidence(sig, run)];
            sigs := sigs + [sig];
            notes := notes + [Output(tc.tool, run)];
          }
      }
    }
    e := Exhausted(hist, sigs, notes, MaxToolCalls);
  }

  /**
   * Execute makes between one and ten LLM calls, never records a call
   * twice in a row, and a spent budget is "uncertain" after ten calls.
   */
  lemma ExecuteSpec(env: Env)
    ensures var e := Run(env, 0, State([], [], []));
            && 1 <= e.llmCalls <= MaxToolCalls
            && Recorded(HistoryOf(e), e.signatures)
            && (e.Exhausted? ==> e.llmCalls == MaxToolCalls)
  {
    RunSpec(env, 0, State([], [], []));
    RunExhausted(env, 0, State([], [], []));
  }

  // ---------------------------------------------------------------------
  // The repeat-call guard as the source writes it
  // ---------------------------------------------------------------------

  /**
   * The guard as written compares the new signature with the last history
   * entry, which by then also carries the tool's evidence.
   */
  predicate DuplicateAsWritten(history: seq<string>, sig: string)
  {
    |history| > 0 && sig == history[|history| - 1]
  }

  /**
   * After any tool run the guard as written cannot see the same call
   * again: the entry it compares with is the signature plus the evidence,
   * always longer than the signature.
   */
  lemma DuplicateAsWrittenMisses(history: seq<string>, tc: ToolCall, run: ToolRun)
    ensures var sig := Signature(tc);
            !DuplicateAsWritten(history + [Evidence(sig, run)], sig)
  {
    var sig := Signature(tc);
    EvidenceShape(sig, run);
    assert |Evidence(sig, run)| >= |sig| + |Arrow|;
  }
}
