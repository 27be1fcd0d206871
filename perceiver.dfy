/**
 * The perceiver role (R1): it turns raw user input into a task
 * specification, asking the user at most two clarifying questions, and
 * publishes the specification to the planner. The language model, the
 * JSON decoding of its reply, the user's answers and the uuid generator
 * are parameters; each is indexed by how many calls came before.
 */
module Perceiver {
  import opened Types
  import opened Text
  import Llm

  const MaxClarificationRounds: nat := 2
  const FinalInstruction: string := "\n\n[Instruction: proceed with the best interpretation;"
                                    + " do not request further clarification.]"

  /** A uuid's text is never empty. */
  type Uuid = s: string | s != "" witness "0"

  datatype Reply = Reply(raw: string) | ChatError(err: string)

  /** How a (fence-stripped) reply decodes: a clarification request, a specification, or neither. */
  datatype Parsed = AsksClarification(question: string) | ParsedSpec(spec: TaskSpec) | Unparseable(err: string)

  datatype Answer = Answered(text: string) | ClarifyError(err: string)

  datatype Env = Env(
    chat: (nat, string) -> Reply,
    parse: string -> Parsed,
    clarify: (nat, string) -> Answer,
    uuid: nat -> Uuid)

  datatype Perception = PerceiveFailed(err: string) | NeedsClarification(question: string) | Understood(spec: TaskSpec)

  /** The user prompt: the session history first when there is one. */
  function UserPrompt(input: string, session: string): string
  {
    if session != "" then "Recent session history:\n" + session + "\n\nNew input: " + input else input
  }

  /** A decoded specification gets a fresh id when it has none, and the input it came from. */
  function Completed(spec: TaskSpec, id: Uuid, input: string): TaskSpec
  {
    spec.(taskId := if spec.taskId == "" then id else spec.taskId, rawInput := input)
  }

  /** perceive: the k-th model call on this input. */
  function Perceive(env: Env, k: nat, input: string, session: string): Perception
  {
    var reply := env.chat(k, UserPrompt(input, session));
    if reply.ChatError? then PerceiveFailed(reply.err)
    else
      var raw := Llm.StripFences(reply.raw);
      match env.parse(raw)
      case AsksClarification(q) => NeedsClarification(q)
      case Unparseable(e) => PerceiveFailed("parse TaskSpec: " + e + " (raw: " + raw + ")")
      case ParsedSpec(spec) => Understood(Completed(spec, env.uuid(k), input))
  }

  /** perceive, with the specification filled in step by step. */
  method PerceiveOnce(env: Env, k: nat, input: string, session: string) returns (p: Perception)
    ensures p == Perceive(env, k, input, session)
  {
    var userPrompt := input;
    if session != "" {
      userPrompt := "Recent session history:\n" + session + "\n\nNew input: " + input;
    }
    var reply := env.chat(k, userPrompt);
    if reply.ChatError? {
      return PerceiveFailed(reply.err);
    }
    var raw := Llm.StripFences(reply.raw);
    var parsed := env.parse(raw);
    if parsed.AsksClarification? {
      return NeedsClarification(parsed.question);
    }
    if parsed.Unparseable? {
      return PerceiveFailed("parse TaskSpec: " + parsed.err + " (raw: " + raw + ")");
    }
    var spec := parsed.spec;
    if spec.taskId == "" {
      spec := spec.(taskId := env.uuid(k));
    }
    spec := spec.(rawInput := input);
    return Understood(spec);
  }

  /** The perceive calls made, with their input and session context. */
  datatype Call = Call(input: string, session: string)

  /** A question asked and the answer the user gave. */
  datatype Exchange = Exchange(question: string, answer: string)

  datatype Result = Failed(err: string) | Published(spec: TaskSpec)

  datatype Outcome = Outcome(calls: seq<Call>, exchanges: seq<Exchange>, asked: nat, result: Result)

  /** The input after an answer: the raw input with the question and answer appended. */
  function Clarified(rawInput: string, e: Exchange): string
  {
    rawInput + "\n\nClarification: Q: " + e.question + " A: " + e.answer
  }

  /** The input of the final call: told to commit to an interpretation. */
  function Committed(input: string): string
  {
    input + FinalInstruction
  }

  predicate Blank(s: string)
  {
    TrimSpace(s) == ""
  }

  /** An empty TaskSpec, as a failed decode leaves it. */
  const EmptySpec: TaskSpec := TaskSpec("", "", [], "")

  /**
   * The last perceive call, told to commit. A reply that still asks for
   * clarification yields an empty specification, completed like any other
   * (see FinalAsWritten for the code as written).
   */
  function Final(env: Env, input: string, calls: seq<Call>, exchanges: seq<Exchange>, asked: nat): Outcome
  {
    var finalInput := Committed(input);
    var calls' := calls + [Call(finalInput, "")];
    var p := Perceive(env, |calls|, finalInput, "");
    if p.PerceiveFailed? then Outcome(calls', exchanges, asked, Failed("perceiver: " + p.err))
    else if p.Understood? then Outcome(calls', exchanges, asked, Published(p.spec))
    else Outcome(calls', exchanges, asked, Published(Completed(EmptySpec, env.uuid(|calls|), finalInput)))
  }

  /** The clarification rounds from `round` on. */
  function Rounds(env: Env, rawInput: string, round: nat, input: string, session: string,
                  calls: seq<Call>, exchanges: seq<Exchange>, asked: nat): Outcome
    decreases MaxClarificationRounds - round
  {
    if round >= MaxClarificationRounds then Final(env, input, calls, exchanges, asked)
    else
      var calls' := calls + [Call(input, session)];
      var p := Perceive(env, |calls|, input, session);
      if p.PerceiveFailed? then Outcome(calls', exchanges, asked, Failed("perceiver: " + p.err))
      else if p.Understood? then Outcome(calls', exchanges, asked, Published(p.spec))
      else
        var answer := env.clarify(asked, p.question);
        if answer.ClarifyError? then Outcome(calls', exchanges, asked + 1, Failed("perceiver: clarification: " + answer.err))
        else
          var e := Exchange(p.question, answer.text);
          if Blank(answer.text) then Final(env, input, calls', exchanges + [e], asked + 1)
          else Rounds(env, rawInput, round + 1, Clarified(rawInput, e), "", calls', exchanges + [e], asked + 1)
  }

  /** Process, as a value. */
  function ProcessSpec(env: Env, rawInput: string, session: string): Outcome
  {
    Rounds(env, rawInput, 0, rawInput, session, [], [], 0)
  }

  /** Process: the clarification loop, then, unless a round already decided, one final committed call. */
  method Process(env: Env, rawInput: string, sessionContext: string) returns (o: Outcome)
    ensures o == ProcessSpec(env, rawInput, sessionContext)
  {
    var input := rawInput;
    var session := sessionContext;
    var calls: seq<Call> := [];
    var exchanges: seq<Exchange> := [];
    var asked := 0;
    var round := 0;
    var stop := false;
    while round < MaxClarificationRounds && !stop
      invariant 0 <= round <= MaxClarificationRounds
      invariant !stop ==> Rounds(env, rawInput, round, input, session, calls, exchanges, asked) == ProcessSpec(env, rawInput, sessionContext)
      invariant stop ==> Final(env, input, calls, exchanges, asked) == ProcessSpec(env, rawInput, sessionContext)
      decreases MaxClarificationRounds - round, if stop then 0 else 1
    {
      var p := PerceiveOnce(env, |calls|, input, session);
      calls := calls + [Call(input, session)];
      if p.PerceiveFailed? {
        return Outcome(calls, exchanges, asked, Failed("perceiver: " + p.err));
      }
      if p.Understood? {
        return Outcome(calls, exchanges, asked, Published(p.spec));
      }
      var answer := env.clarify(asked, p.question);
      asked := asked + 1;
      if answer.ClarifyError? {
        return Outcome(calls, exchanges, asked, Failed("perceiver: clarification: " + answer.err));
      }
      var e := Exchange(p.question, answer.text);
      exchanges := exchanges + [e];
      if Blank(answer.text) {
        stop := true;
      } else {
        input := Clarified(rawInput, e);
        session := "";
        round := round + 1;
      }
    }
    o := FinalRound(env, input, calls, exchanges, asked);
  }

  /** The final committed call. */
  method FinalRound(env: Env, input: string, calls: seq<Call>, exchanges: seq<Exchange>, asked: nat) returns (o: Outcome)
    ensures o == Final(env, input, calls, exchanges, asked)
  {
    var finalInput := Committed(input);
    var p := PerceiveOnce(env, |calls|, finalInput, "");
    var calls' := calls + [Call(finalInput, "")];
    if p.PerceiveFailed? {
      return Outcome(calls', exchanges, asked, Failed("perceiver: " + p.err));
    }
    var spec := if p.Understood? then p.spec else Completed(EmptySpec, env.uuid(|calls|), finalInput);
    return Outcome(calls', exchanges, asked, Published(spec));
  }

  // ---------------------------------------------------------------------
  // Properties
  // ---------------------------------------------------------------------

  /** Each call after the first is a clarified input or a committed one, and carries no session context. */
  ghost predicate Follows(rawInput: string, o: Outcome, i: nat)
    requires 0 < i < |o.calls|
  {
    && o.calls[i].session == ""
    && ((i - 1 < |o.exchanges| && o.calls[i].input == Clarified(rawInput, o.exchanges[i - 1]))
        || (i - 1 < |o.exchanges| && o.calls[i].input == Committed(Clarified(rawInput, o.exchanges[i - 1])))
        || o.calls[i].input == Committed(o.calls[i - 1].input))
  }

  /** What every run of Process keeps to. */
  ghost predicate WellRun(rawInput: string, session: string, o: Outcome)
  {
    && 1 <= |o.calls| <= MaxClarificationRounds + 1
    && o.asked <= MaxClarificationRounds
    && |o.exchanges| <= o.asked
    && o.calls[0] == Call(rawInput, session)
    && (forall i :: 0 < i < |o.calls| ==> Follows(rawInput, o, i))
    && (o.result.Published? ==> o.result.spec.taskId != "" && o.result.spec.rawInput == o.calls[|o.calls| - 1].input)
  }

  /** The state partway through: calls made so far match the rounds done. */
  ghost predicate Partway(rawInput: string, session0: string, round: nat, input: string, session: string,
                          calls: seq<Call>, exchanges: seq<Exchange>, asked: nat)
  {
    && round <= MaxClarificationRounds
    && |calls| == round && asked == round && |exchanges| == round
    && (round == 0 ==> input == rawInput && session == session0)
    && (round > 0 ==> calls[0] == Call(rawInput, session0) && session == ""
                      && input == Clarified(rawInput, exchanges[round - 1]))
    && (forall i :: 0 < i < |calls| ==> calls[i].session == "" && calls[i].input == Clarified(rawInput, exchanges[i - 1]))
  }

  lemma PerceiveSpec(env: Env, k: nat, input: string, session: string)
    ensures var p := Perceive(env, k, input, session);
            p.Understood? ==> p.spec.taskId != "" && p.spec.rawInput == input
  {
  }

  lemma FinalSpec(env: Env, rawInput: string, session0: string, input: string, calls: seq<Call>, exchanges: seq<Exchange>, asked: nat)
    requires 1 <= |calls| <= MaxClarificationRounds && asked <= MaxClarificationRounds && |exchanges| <= asked
    requires calls[0] == Call(rawInput, session0)
    requires input == calls[|calls| - 1].input
             || (|calls| - 1 < |exchanges| && input == Clarified(rawInput, exchanges[|calls| - 1]))
    requires forall i :: 0 < i < |calls| ==> Follows(rawInput, Outcome(calls, exchanges, asked, Failed("")), i)
    ensures WellRun(rawInput, session0, Final(env, input, calls, exchanges, asked))
  {
    var o := Final(env, input, calls, exchanges, asked);
    PerceiveSpec(env, |calls|, Committed(input), "");
    forall i | 0 < i < |o.calls|
      ensures Follows(rawInput, o, i)
    {
      if i < |calls| {
        assert Follows(rawInput, Outcome(calls, exchanges, asked, Failed("")), i);
      }
    }
  }

  lemma FinalAtLimit(env: Env, rawInput: string, session0: string, input: string, calls: seq<Call>, exchanges: seq<Exchange>, asked: nat)
    requires Partway(rawInput, session0, MaxClarificationRounds, input, "", calls, exchanges, asked)
    ensures WellRun(rawInput, session0, Final(env, input, calls, exchanges, asked))
  {
    var probe := Outcome(calls, exchanges, asked, Failed(""));
    forall i | 0 < i < |calls|
      ensures Follows(rawInput, probe, i)
    {
    }
    FinalSpec(env, rawInput, session0, input, calls, exchanges, asked);
  }

  /** One clarification round keeps to the rules, whatever happens in it. */
  lemma {:induction false} RoundsSpec(env: Env, rawInput: string, session0: string, round: nat, input: string, session: string,
                                      calls: seq<Call>, exchanges: seq<Exchange>, asked: nat)
    requires Partway(rawInput, session0, round, input, session, calls, exchanges, asked)
    ensures WellRun(rawInput, session0, Rounds(env, rawInput, round, input, session, calls, exchanges, asked))
    decreases MaxClarificationRounds - round, 1
  {
    if round >= MaxClarificationRounds {
      FinalAtLimit(env, rawInput, session0, input, calls, exchanges, asked);
    } else {
      var p := Perceive(env, |calls|, input, session);
      if p.NeedsClarification? && env.clarify(asked, p.question).Answered? {
        AnsweredSpec(env, rawInput, session0, round, input, session, calls, exchanges, asked,
                      Exchange(p.question, env.clarify(asked, p.question).text));
      } else {
        PerceiveSpec(env, |calls|, input, session);
        var o := Rounds(env, rawInput, round, input, session, calls, exchanges, asked);
        StoppedSpec(rawInput, session0, round, input, session, calls, exchanges, asked, o.asked, o.result);
      }
    }
  }

  /** A round that ends the run, with a failure or a specification of its own input. */
  lemma StoppedSpec(rawInput: string, session0: string, round: nat, input: string, session: string,
                    calls: seq<Call>, exchanges: seq<Exchange>, asked: nat, asked': nat, r: Result)
    requires Partway(rawInput, session0, round, input, session, calls, exchanges, asked)
    requires round < MaxClarificationRounds && asked <= asked' <= asked + 1
    requires r.Published? ==> r.spec.taskId != "" && r.spec.rawInput == input
    ensures WellRun(rawInput, session0, Outcome(calls + [Call(input, session)], exchanges, asked', r))
  {
    var o := Outcome(calls + [Call(input, session)], exchanges, asked', r);
    forall i | 0 < i < |o.calls|
      ensures Follows(rawInput, o, i)
    {
    }
  }

  /** The rest of a round after the user answered. */
  lemma {:induction false} AnsweredSpec(env: Env, rawInput: string, session0: string, round: nat, input: string, session: string,
                                        calls: seq<Call>, exchanges: seq<Exchange>, asked: nat, e: Exchange)
    requires Partway(rawInput, session0, round, input, session, calls, exchanges, asked)
    requires round < MaxClarificationRounds
    ensures var calls' := calls + [Call(input, session)];
            var ex' := exchanges + [e];
            && (Blank(e.answer) ==> WellRun(rawInput, session0, Final(env, input, calls', ex', asked + 1)))
            && (!Blank(e.answer) ==>
                  WellRun(rawInput, session0, Rounds(env, rawInput, round + 1, Clarified(rawInput, e), "", calls', ex', asked + 1)))
    decreases MaxClarificationRounds - round, 0
  {
    var calls' := calls + [Call(input, session)];
    var ex' := exchanges + [e];
    if Blank(e.answer) {
      var probe := Outcome(calls', ex', asked + 1, Failed(""));
      forall i | 0 < i < |calls'|
        ensures Follows(rawInput, probe, i)
      {
      }
      FinalSpec(env, rawInput, session0, input, calls', ex', asked + 1);
    } else {
      RoundsSpec(env, rawInput, session0, round + 1, Clarified(rawInput, e), "", calls', ex', asked + 1);
    }
  }

  /**
   * Process asks at most two questions and calls the model at most three
   * times; the first call sees the raw input and the session context, every
   * later one no session context and either the raw input with the last
   * question and answer or the previous input told to commit; and a
   * published specification always has an id and the input it came from.
   */
  lemma ProcessWellRun(env: Env, rawInput: string, session: string)
    ensures WellRun(rawInput, session, ProcessSpec(env, rawInput, session))
  {
    RoundsSpec(env, rawInput, session, 0, rawInput, session, [], [], 0);
  }

  /** A blank answer stops the questions: the next call is the committed one. */
  lemma BlankAnswerCommits(env: Env, rawInput: string, session: string)
    requires Perceive(env, 0, rawInput, session).NeedsClarification?
    requires env.clarify(0, Perceive(env, 0, rawInput, session).question).Answered?
    requires Blank(env.clarify(0, Perceive(env, 0, rawInput, session).question).text)
    ensures var o := ProcessSpec(env, rawInput, session);
            |o.calls| == 2 && o.calls[1] == Call(Committed(rawInput), "") && o.asked == 1
  {
  }

  // ---------------------------------------------------------------------
  // The committed call as written
  // ---------------------------------------------------------------------

  /** The final call as the code is written: a reply that still asks for clarification publishes the empty TaskSpec. */
  function FinalAsWritten(env: Env, input: string, k: nat): Result
  {
    var p := Perceive(env, k, Committed(input), "");
    if p.PerceiveFailed? then Failed("perceiver: " + p.err)
    else if p.Understood? then Published(p.spec)
    else Published(EmptySpec)
  }

  /**
   * A model that keeps asking even when told to commit makes the code as
   * written publish a specification with no task id, so the caller gets
   * "" to correlate the final result with.
   */
  lemma FinalAsWrittenLosesId(env: Env, input: string, k: nat)
    requires Perceive(env, k, Committed(input), "").NeedsClarification?
    ensures FinalAsWritten(env, input, k) == Published(EmptySpec)
    ensures FinalAsWritten(env, input, k).spec.taskId == ""
  {
  }
}
