/**
 * The agent validator role (R4a): the fast loop for one subtask. It
 * scores each execution result, records one gap-trajectory point per
 * attempt, sends at most one correction back to the executor and ends
 * with a SubTaskOutcome.
 */
module AgentVal {
  import opened Types
  import opened Text

  const MaxRetries: nat := 2
  const Logical: string := "logical"
  const Environmental: string := "environmental"

  /** One criterion's result in a verdict. */
  datatype CriterionResult = CriterionResult(criterion: string, met: bool, evidence: string, failureClass: string)

  /** The scorer's verdict on one execution result. */
  datatype Verdict = Verdict(
    verdict: string,
    score: real,
    criteriaResults: seq<CriterionResult>,
    unmetCriteria: seq<string>,
    whatWasWrong: string,
    whatToDo: string,
    failureReason: string)

  // ---------------------------------------------------------------------
  // Failure classes and verdicts
  // ---------------------------------------------------------------------

  /** Criterion `k` is unmet and of failure class `cls`. */
  predicate UnmetAt(crs: seq<CriterionResult>, k: int, cls: string)
    requires 0 <= k < |crs|
  {
    !crs[k].met && crs[k].failureClass == cls
  }

  predicate HasUnmet(crs: seq<CriterionResult>, cls: string)
  {
    exists k :: 0 <= k < |crs| && UnmetAt(crs, k, cls)
  }

  /** The failure class of an attempt, from the classes of its unmet criteria. */
  function Classify(crs: seq<CriterionResult>): string
  {
    var l := HasUnmet(crs, Logical);
    var e := HasUnmet(crs, Environmental);
    if !l && !e then ""
    else if l && !e then Logical
    else if e && !l then Environmental
    else "mixed"
  }

  lemma HasUnmetSnoc(crs: seq<CriterionResult>, i: nat, cls: string)
    requires i < |crs|
    ensures HasUnmet(crs[..i + 1], cls) <==> HasUnmet(crs[..i], cls) || UnmetAt(crs, i, cls)
  {
    var p, q := crs[..i], crs[..i + 1];
    if HasUnmet(q, cls) && !UnmetAt(crs, i, cls) {
      var k :| 0 <= k < |q| && UnmetAt(q, k, cls);
      assert k < i && UnmetAt(p, k, cls);
    }
    if HasUnmet(p, cls) {
      var k :| 0 <= k < |p| && UnmetAt(p, k, cls);
      assert UnmetAt(q, k, cls);
    }
    if UnmetAt(crs, i, cls) {
      assert UnmetAt(q, i, cls);
    }
  }

  /**
   * aggregateFailureClass: counts the unmet criteria of each class. The
   * result is "" when no unmet criterion is logical or environmental, the
   * one class when only it occurs, and "mixed" when both do.
   */
  method AggregateFailureClass(crs: seq<CriterionResult>) returns (cls: string)
    ensures cls == Classify(crs)
    ensures cls == "" <==> !HasUnmet(crs, Logical) && !HasUnmet(crs, Environmental)
    ensures cls == Logical <==> HasUnmet(crs, Logical) && !HasUnmet(crs, Environmental)
    ensures cls == Environmental <==> HasUnmet(crs, Environmental) && !HasUnmet(crs, Logical)
    ensures cls == "mixed" <==> HasUnmet(crs, Logical) && HasUnmet(crs, Environmental)
  {
    var logical, env := 0, 0;
    for i := 0 to |crs|
      invariant logical > 0 <==> HasUnmet(crs[..i], Logical)
      invariant env > 0 <==> HasUnmet(crs[..i], Environmental)
    {
      HasUnmetSnoc(crs, i, Logical);
      HasUnmetSnoc(crs, i, Environmental);
      if crs[i].met {
        continue;
      }
      if crs[i].failureClass == Logical {
        logical := logical + 1;
      } else if crs[i].failureClass == Environmental {
        env := env + 1;
      }
    }
    assert crs[..|crs|] == crs;
    if logical == 0 && env == 0 {
      cls := "";
    } else if logical > 0 && env == 0 {
      cls := Logical;
    } else if env > 0 && logical == 0 {
      cls := Environmental;
    } else {
      cls := "mixed";
    }
  }

  function VerdictOf(cr: CriterionResult): CriteriaVerdict
  {
    CriteriaVerdict(cr.criterion, if cr.met then "pass" else "fail", cr.failureClass, cr.evidence)
  }

  /** The exported per-criterion verdicts, in order. */
  function CriteriaVerdicts(crs: seq<CriterionResult>): seq<CriteriaVerdict>
  {
    if crs == [] then [] else CriteriaVerdicts(crs[..|crs| - 1]) + [VerdictOf(crs[|crs| - 1])]
  }

  /**
   * One verdict per criterion result, in the same order: "pass" exactly
   * for a met criterion, "fail" otherwise, with the criterion, failure
   * class and evidence carried over.
   */
  lemma {:induction false} CriteriaVerdictsSpec(crs: seq<CriterionResult>)
    ensures var r := CriteriaVerdicts(crs);
            && |r| == |crs|
            && forall k :: 0 <= k < |crs| ==>
                 && r[k].criterion == crs[k].criterion
                 && (r[k].verdict == "pass" <==> crs[k].met)
                 && (r[k].verdict == "fail" <==> !crs[k].met)
                 && r[k].failureClass == crs[k].failureClass
                 && r[k].evidence == crs[k].evidence
    decreases |crs|
  {
    if crs != [] {
      CriteriaVerdictsSpec(crs[..|crs| - 1]);
    }
  }

  /** toCriteriaVerdicts: nothing for no results, else one verdict per result. */
  method ToCriteriaVerdicts(crs: seq<CriterionResult>) returns (out: seq<CriteriaVerdict>)
    ensures out == CriteriaVerdicts(crs)
    ensures crs == [] ==> out == []
  {
    if |crs| == 0 {
      return [];
    }
    out := [];
    for i := 0 to |crs|
      invariant out == CriteriaVerdicts(crs[..i])
    {
      assert crs[..i + 1][..i] == crs[..i];
      var verdict := "pass";
      if !crs[i].met {
        verdict := "fail";
      }
      out := out + [CriteriaVerdict(crs[i].criterion, verdict, crs[i].failureClass, crs[i].evidence)];
    }
    assert crs[..|crs|] == crs;
  }

  // ---------------------------------------------------------------------
  // The correction target
  // ---------------------------------------------------------------------

  /** The index of the first unmet criterion, or -1 when all are met. */
  function FirstUnmet(crs: seq<CriterionResult>): (r: int)
    ensures -1 <= r < |crs|
    ensures r == -1 <==> forall k :: 0 <= k < |crs| ==> crs[k].met
    ensures r >= 0 ==> !crs[r].met && forall k :: 0 <= k < r ==> crs[k].met
  {
    if crs == [] then -1
    else if !crs[0].met then 0
    else
      var r := FirstUnmet(crs[1..]);
      if r == -1 then -1 else r + 1
  }

  /** What the correction names as failed: a criterion and its failure class. */
  datatype Target = Target(criterion: string, failureClass: string)

  /**
   * The first unmet criterion result and its class; when that gives no
   * criterion text, the first entry of the unmet list (the class stays).
   */
  function CorrectionTarget(v: Verdict): (t: Target)
    ensures FirstUnmet(v.criteriaResults) >= 0 ==> t.failureClass == v.criteriaResults[FirstUnmet(v.criteriaResults)].failureClass
    ensures FirstUnmet(v.criteriaResults) >= 0 && v.criteriaResults[FirstUnmet(v.criteriaResults)].criterion != "" ==>
              t.criterion == v.criteriaResults[FirstUnmet(v.criteriaResults)].criterion
    ensures FirstUnmet(v.criteriaResults) == -1 ==> t.failureClass == ""
    ensures (FirstUnmet(v.criteriaResults) == -1 || v.criteriaResults[FirstUnmet(v.criteriaResults)].criterion == "") ==>
              t.criterion == (if |v.unmetCriteria| > 0 then v.unmetCriteria[0] else "")
  {
    var j := FirstUnmet(v.criteriaResults);
    var first := if j >= 0 then Target(v.criteriaResults[j].criterion, v.criteriaResults[j].failureClass) else Target("", "");
    if first.criterion == "" && |v.unmetCriteria| > 0 then first.(criterion := v.unmetCriteria[0]) else first
  }

  /** The loop with `break` that picks the correction target. */
  method PickTarget(v: Verdict) returns (t: Target)
    ensures t == CorrectionTarget(v)
  {
    var crs := v.criteriaResults;
    var failedCriterion, failureClass := "", "";
    var i := 0;
    while i < |crs|
      invariant 0 <= i <= |crs|
      invariant forall k :: 0 <= k < i ==> crs[k].met
      invariant failedCriterion == "" && failureClass == ""
    {
      if !crs[i].met {
        failedCriterion, failureClass := crs[i].criterion, crs[i].failureClass;
        break;
      }
      i := i + 1;
    }
    assert i < |crs| ==> FirstUnmet(crs) == i;
    if failedCriterion == "" && |v.unmetCriteria| > 0 {
      failedCriterion := v.unmetCriteria[0];
    }
    t := Target(failedCriterion, failureClass);
  }

  // ---------------------------------------------------------------------
  // The fast loop
  // ---------------------------------------------------------------------

  /** One receive from the executor's result channel. */
  datatype Recv = Got(result: ExecutionResult) | Closed | Cancelled

  /** The scorer's answer: an error message or a verdict. */
  datatype Scored = ScoreError(message: string) | Scored(v: Verdict)

  /** What the loop sends: an outcome to the meta-validator or a correction to the executor. */
  datatype Sent = Published(outcome: SubTaskOutcome) | Corrected(correction: CorrectionSignal)

  /**
   * The loop's inputs: the subtask, the `n`-th receive, the scorer for
   * attempt `n`, and whether the correction of attempt `n` was taken
   * before the context was cancelled.
   */
  datatype Env = Env(st: SubTask, recv: nat -> Recv, score: (nat, ExecutionResult) -> Scored, delivered: nat -> bool)

  /** How the loop ends: the outcome it returns and everything it sent. */
  datatype End = End(outcome: SubTaskOutcome, sent: seq<Sent>)

  /** What the loop carries between attempts. */
  datatype Loop = Loop(attempt: nat, traj: seq<GapTrajectoryPoint>, lastToolCalls: seq<string>, sent: seq<Sent>)

  datatype Turn = Stop(end: End) | Continue(next: Loop)

  function Outcome(st: SubTask, status: string, output: Value, reason: Option<string>, traj: seq<GapTrajectoryPoint>,
                   verdicts: seq<CriteriaVerdict>, toolCalls: seq<string>): SubTaskOutcome
  {
    SubTaskOutcome(st.subTaskId, st.parentTaskId, st.intent, st.successCriteria, status, output, reason, traj, verdicts, toolCalls)
  }

  /** A scoring error is a failed verdict with the error as its reason. */
  function VerdictFrom(s: Scored): Verdict
  {
    match s
    case ScoreError(m) => Verdict("failed", 0.0, [], [], "", "", "scoring error: " + m)
    case Scored(v) => v
  }

  const MaxRetriesNote: string := "max retries (2) reached; last issue: "

  /** The outcome of a non-retry verdict (or a retry at the limit), published to the meta-validator. */
  function Final(env: Env, attempt: nat, r: ExecutionResult, v: Verdict, traj: seq<GapTrajectoryPoint>, sent: seq<Sent>): End
  {
    var verdicts := CriteriaVerdicts(v.criteriaResults);
    var o :=
      if v.verdict == "matched" then Outcome(env.st, "matched", r.output, None, traj, verdicts, r.toolCalls)
      else if v.verdict == "retry" then
        Outcome(env.st, "failed", r.output, Some(MaxRetriesNote + v.whatWasWrong), traj, verdicts, r.toolCalls)
      else
        Outcome(env.st, "failed", r.output, Some(if v.failureReason == "" then "validation failed" else v.failureReason),
                traj, verdicts, r.toolCalls);
    End(o, sent + [Published(o)])
  }

  /** One attempt: receive, score, record the trajectory point, then finish or correct. */
  function Step(env: Env, s: Loop): (t: Turn)
    requires s.attempt < MaxRetries
    ensures t.Continue? ==> t.next.attempt == s.attempt + 1 < MaxRetries
  {
    match env.recv(s.attempt)
    case Cancelled =>
      Stop(End(Outcome(env.st, "failed", Null, Some("context cancelled"), s.traj, [], s.lastToolCalls), s.sent))
    case Closed =>
      Stop(End(Outcome(env.st, "failed", Null, Some("result channel closed"), s.traj, [], s.lastToolCalls), s.sent))
    case Got(r) =>
      var attempt := s.attempt + 1;
      var v := VerdictFrom(env.score(attempt, r));
      var traj := s.traj + [GapTrajectoryPoint(attempt, v.score, v.unmetCriteria, Classify(v.criteriaResults))];
      if v.verdict == "retry" && attempt < MaxRetries then
        var t := CorrectionTarget(v);
        var c := CorrectionSignal(env.st.subTaskId, attempt, v.whatWasWrong, v.whatToDo, t.criterion, t.failureClass);
        if env.delivered(attempt) then Continue(Loop(attempt, traj, r.toolCalls, s.sent + [Corrected(c)]))
        else
          Stop(End(Outcome(env.st, "failed", Null, Some("context cancelled during correction"), traj, [], r.toolCalls),
                   s.sent + [Corrected(c)]))
      else Stop(Final(env, attempt, r, v, traj, s.sent))
  }

  function Run(env: Env, s: Loop): End
    requires s.attempt < MaxRetries
    decreases MaxRetries - s.attempt
  {
    match Step(env, s)
    case Stop(e) => e
    case Continue(next) => Run(env, next)
  }

  /** The loop state is consistent: one trajectory point per attempt, numbered in order, and one correction per earlier attempt. */
  predicate Consistent(s: Loop)
  {
    && |s.traj| == s.attempt
    && (forall k :: 0 <= k < |s.traj| ==> s.traj[k].attempt == k + 1)
    && |s.sent| == s.attempt
    && (forall k :: 0 <= k < |s.sent| ==> s.sent[k].Corrected?)
  }

  /** Facts about one attempt. */
  lemma StepSpec(env: Env, s: Loop)
    requires s.attempt < MaxRetries && Consistent(s)
    ensures match Step(env, s)
            case Continue(next) => Consistent(next) && s.sent <= next.sent
            case Stop(e) =>
              && (|e.outcome.gapTrajectory| == s.attempt || |e.outcome.gapTrajectory| == s.attempt + 1)
              && (forall k :: 0 <= k < |e.outcome.gapTrajectory| ==> e.outcome.gapTrajectory[k].attempt == k + 1)
              && s.sent <= e.sent && |e.sent| <= |s.sent| + 1
              && (e.outcome.status == "matched" || e.outcome.status == "failed")
              && e.outcome.subTaskId == env.st.subTaskId
              && (|e.sent| == |s.sent| + 1 && e.sent[|s.sent|].Published? ==> e.sent[|s.sent|].outcome == e.outcome)
              && (env.recv(s.attempt).Got? <==> |e.outcome.gapTrajectory| == s.attempt + 1)
              && (!env.recv(s.attempt).Got? ==> e.sent == s.sent && e.outcome.status == "failed")
  {
  }

  /**
   * Over the whole loop: the trajectory has one point per scored attempt,
   * numbered 1, 2, …; there are at most two attempts and so at most one
   * correction; the outcome is matched or failed; and the outcome is
   * published exactly when the loop ended on a verdict rather than on a
   * cancellation or a closed channel.
   */
  lemma {:induction false} RunSpec(env: Env, s: Loop)
    requires s.attempt < MaxRetries && Consistent(s)
    ensures var e := Run(env, s);
            var traj := e.outcome.gapTrajectory;
            && s.attempt <= |traj| <= MaxRetries
            && (forall k :: 0 <= k < |traj| ==> traj[k].attempt == k + 1)
            && (e.outcome.status == "matched" || e.outcome.status == "failed")
            && s.sent <= e.sent
            && |e.sent| <= MaxRetries
            && (forall k :: 0 <= k < |e.sent| - 1 ==> e.sent[k].Corrected?)
            && (e.sent != [] && e.sent[|e.sent| - 1].Published? ==> e.sent[|e.sent| - 1].outcome == e.outcome)
    decreases MaxRetries - s.attempt
  {
    StepSpec(env, s);
    match Step(env, s)
    case Stop(e) =>
      assert Run(env, s) == e;
    case Continue(next) =>
      assert Run(env, s) == Run(env, next);
      RunSpec(env, next);
      var e := Run(env, next);
      assert e.sent[..|s.sent|] == next.sent[..|s.sent|] == s.sent;
  }

  /** A retry at the last attempt fails the subtask with the "max retries" reason and publishes it. */
  lemma RetryAtLimit(env: Env, s: Loop, r: ExecutionResult, v: Verdict)
    requires s.attempt == MaxRetries - 1 && env.recv(s.attempt) == Got(r)
    requires VerdictFrom(env.score(MaxRetries, r)) == v && v.verdict == "retry"
    ensures var e := Run(env, s);
            && e.outcome.status == "failed"
            && e.outcome.failureReason == Some(MaxRetriesNote + v.whatWasWrong)
            && e.sent == s.sent + [Published(e.outcome)]
  {
    assert Run(env, s) == Step(env, s).end;
  }

  /** A scoring error fails the attempt with the error as the reason. */
  lemma ScoringErrorFails(env: Env, s: Loop, r: ExecutionResult, m: string)
    requires s.attempt < MaxRetries && env.recv(s.attempt) == Got(r) && env.score(s.attempt + 1, r) == ScoreError(m)
    ensures var e := Run(env, s);
            && e.outcome.status == "failed"
            && e.outcome.failureReason == Some("scoring error: " + m)
            && e.outcome.gapTrajectory == s.traj + [GapTrajectoryPoint(s.attempt + 1, 0.0, [], "")]
  {
    assert Classify([]) == "";
    assert Run(env, s) == Step(env, s).end;
  }

  /** A plain failed verdict fails the subtask with its reason, or "validation failed" when it gives none, and publishes it. */
  lemma FailedVerdictReason(env: Env, s: Loop, r: ExecutionResult, v: Verdict)
    requires s.attempt < MaxRetries && env.recv(s.attempt) == Got(r)
    requires VerdictFrom(env.score(s.attempt + 1, r)) == v && v.verdict != "matched" && v.verdict != "retry"
    ensures var e := Run(env, s);
            && e.outcome.status == "failed"
            && e.outcome.failureReason == Some(if v.failureReason == "" then "validation failed" else v.failureReason)
            && e.sent == s.sent + [Published(e.outcome)]
  {
    assert Run(env, s) == Step(env, s).end;
  }

  /** A cancelled context or a closed result channel ends the loop with a failed outcome that is not published. */
  lemma InterruptedUnpublished(env: Env, s: Loop)
    requires s.attempt < MaxRetries && !env.recv(s.attempt).Got?
    ensures var e := Run(env, s);
            && e.outcome.status == "failed"
            && e.outcome.failureReason == Some(if env.recv(s.attempt).Cancelled? then "context cancelled" else "result channel closed")
            && e.outcome.gapTrajectory == s.traj
            && e.sent == s.sent
  {
    assert Run(env, s) == Step(env, s).end;
  }

  /**
   * Run: the fast loop for one subtask, from the first receive until an
   * outcome.
   */
  method Validate(env: Env) returns (e: End)
    ensures e == Run(env, Loop(0, [], [], []))
  {
    var trajectory: seq<GapTrajectoryPoint> := [];
    var attempt: nat := 0;
    var lastToolCalls: seq<string> := [];
    var sent: seq<Sent> := [];
    while true
      invariant attempt < MaxRetries
      invariant Run(env, Loop(attempt, trajectory, lastToolCalls, sent)) == Run(env, Loop(0, [], [], []))
      decreases MaxRetries - attempt
    {
      ghost var s := Loop(attempt, trajectory, lastToolCalls, sent);
      var result: ExecutionResult;
      match env.recv(attempt) {
        case Cancelled =>
          return End(Outcome(env.st, "failed", Null, Some("context cancelled"), trajectory, [], lastToolCalls), sent);
        case Closed =>
          return End(Outcome(env.st, "failed", Null, Some("result channel closed"), trajectory, [], lastToolCalls), sent);
        case Got(r) =>
          result := r;
          lastToolCalls := r.toolCalls;
      }
      attempt := attempt + 1;
      var v: Verdict;
      match env.score(attempt, result) {
        case ScoreError(m) =>
          v := Verdict("failed", 0.0, [], [], "", "", "scoring error: " + m);
        case Scored(sv) =>
          v := sv;
      }
      var cls := AggregateFailureClass(v.criteriaResults);
      trajectory := trajectory + [GapTrajectoryPoint(attempt, v.score, v.unmetCriteria, cls)];
      if v.verdict == "matched" {
        var verdicts := ToCriteriaVerdicts(v.criteriaResults);
        var o := Outcome(env.st, "matched", result.output, None, trajectory, verdicts, lastToolCalls);
        return End(o, sent + [Published(o)]);
      } else if v.verdict == "retry" {
        if attempt >= MaxRetries {
          var verdicts := ToCriteriaVerdicts(v.criteriaResults);
          var o := Outcome(env.st, "failed", result.output, Some(MaxRetriesNote + v.whatWasWrong), trajectory, verdicts, lastToolCalls);
          return End(o, sent + [Published(o)]);
        }
        var t := PickTarget(v);
        var c := CorrectionSignal(env.st.subTaskId, attempt, v.whatWasWrong, v.whatToDo, t.criterion, t.failureClass);
        sent := sent + [Corrected(c)];
        if !env.delivered(attempt) {
          return End(Outcome(env.st, "failed", Null, Some("context cancelled during correction"), trajectory, [], lastToolCalls), sent);
        }
        assert Step(env, s) == Continue(Loop(attempt, trajectory, lastToolCalls, sent));
      } else {
        var reason := v.failureReason;
        if reason == "" {
          reason := "validation failed";
        }
        var verdicts := ToCriteriaVerdicts(v.criteriaResults);
        var o := Outcome(env.st, "failed", result.output, Some(reason), trajectory, verdicts, lastToolCalls);
        return End(o, sent + [Published(o)]);
      }
    }
  }

  /**
   * The whole fast loop from the start: at most two attempts, one
   * trajectory point per attempt, at most one correction, and the
   * outcome published at most once, last.
   */
  lemma ValidateSpec(env: Env)
    ensures var e := Run(env, Loop(0, [], [], []));
            && |e.outcome.gapTrajectory| <= MaxRetries
            && (forall k :: 0 <= k < |e.outcome.gapTrajectory| ==> e.outcome.gapTrajectory[k].attempt == k + 1)
            && |e.sent| <= MaxRetries
            && (forall k :: 0 <= k < |e.sent| - 1 ==> e.sent[k].Corrected?)
  {
    RunSpec(env, Loop(0, [], [], []));
  }
}
