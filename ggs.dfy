/**
 * R7, the Goal Gradient Solver: the loss L = αD + β(1−Ω)P + λΩ over a
 * replan round, the gradient label of ∇L, the directive decision table,
 * and the per-task L_{t-1} / replan-count state between rounds.
 */
module Ggs {
  import opened Types
  import opened Text

  const Alpha: real := 0.6
  const Beta: real := 0.3
  const Lambda: real := 0.4
  const W1: real := 0.6
  const W2: real := 0.4
  const Epsilon: real := 0.1
  const Delta: real := 0.3
  const AbandonOmega: real := 0.8
  const TimeBudgetMs: int := 300000
  const MaxReplansGGS: int := 3

  /** The gradient labels of ∇L. */
  datatype GradientLabel = Plateau | Stable | Improving | Worsening
  {
    function Name(): string
    {
      match this
      case Plateau => "plateau"
      case Stable => "stable"
      case Improving => "improving"
      case Worsening => "worsening"
    }
  }

  /** The directives R7 sends to the planner. */
  datatype Directive = Refine | ChangePath | ChangeApproach | BreakSymmetry | Abandon
  {
    function Name(): string
    {
      match this
      case Refine => "refine"
      case ChangePath => "change_path"
      case ChangeApproach => "change_approach"
      case BreakSymmetry => "break_symmetry"
      case Abandon => "abandon"
    }
  }

  lemma RatioInUnit(a: nat, b: nat)
    requires a <= b && b > 0
    ensures 0.0 <= a as real / b as real <= 1.0
  {
  }

  lemma RatioAgainstHalf(a: nat, b: nat)
    requires a + b > 0
    ensures a > b ==> a as real / (a + b) as real > 0.5
    ensures a < b ==> a as real / (a + b) as real < 0.5
  {
    var t := (a + b) as real;
    assert a as real / t * t == a as real;
  }

  // ---------------------------------------------------------------------
  // D: intent-result distance, at criterion granularity

  /** Number of "fail" verdicts. */
  function VerdictFails(cvs: seq<CriteriaVerdict>): nat
  {
    if cvs == [] then 0
    else VerdictFails(cvs[..|cvs| - 1]) + (if cvs[|cvs| - 1].verdict == "fail" then 1 else 0)
  }

  /** Criteria an outcome contributes: its verdicts, or one synthetic criterion. */
  function OutcomeTotal(o: SubTaskOutcome): nat
  {
    if |o.criteriaVerdicts| > 0 then |o.criteriaVerdicts| else 1
  }

  function OutcomeFailed(o: SubTaskOutcome): nat
  {
    if |o.criteriaVerdicts| > 0 then VerdictFails(o.criteriaVerdicts)
    else if o.status == "failed" then 1 else 0
  }

  function TotalCriteria(os: seq<SubTaskOutcome>): nat
  {
    if os == [] then 0 else TotalCriteria(os[..|os| - 1]) + OutcomeTotal(os[|os| - 1])
  }

  function FailedCriteria(os: seq<SubTaskOutcome>): nat
  {
    if os == [] then 0 else FailedCriteria(os[..|os| - 1]) + OutcomeFailed(os[|os| - 1])
  }

  lemma {:induction false} VerdictFailsBound(cvs: seq<CriteriaVerdict>)
    ensures VerdictFails(cvs) <= |cvs|
  {
    if cvs != [] {
      VerdictFailsBound(cvs[..|cvs| - 1]);
    }
  }

  /** Every outcome counts at least once, and no more criteria fail than exist. */
  lemma {:induction false} CriteriaBounds(os: seq<SubTaskOutcome>)
    ensures FailedCriteria(os) <= TotalCriteria(os)
    ensures TotalCriteria(os) >= |os|
  {
    if os != [] {
      CriteriaBounds(os[..|os| - 1]);
      VerdictFailsBound(os[|os| - 1].criteriaVerdicts);
    }
  }

  /** D: 1 for no outcomes (total failure), else failed / total criteria. */
  function Distance(os: seq<SubTaskOutcome>): real
  {
    if os == [] then 1.0
    else if TotalCriteria(os) == 0 then 1.0
    else FailedCriteria(os) as real / TotalCriteria(os) as real
  }

  lemma DistanceInUnit(os: seq<SubTaskOutcome>)
    ensures 0.0 <= Distance(os) <= 1.0
    ensures os != [] ==> TotalCriteria(os) > 0
  {
    CriteriaBounds(os);
    if os != [] {
      RatioInUnit(FailedCriteria(os), TotalCriteria(os));
    }
  }

  /** computeD. */
  method ComputeD(outcomes: seq<SubTaskOutcome>) returns (d: real)
    ensures outcomes == [] ==> d == 1.0
    ensures outcomes != [] ==>
              TotalCriteria(outcomes) > 0 && d == FailedCriteria(outcomes) as real / TotalCriteria(outcomes) as real
    ensures d == Distance(outcomes) && 0.0 <= d <= 1.0
  {
    DistanceInUnit(outcomes);
    if |outcomes| == 0 {
      return 1.0;
    }
    var total, failed := 0, 0;
    var i := 0;
    while i < |outcomes|
      invariant 0 <= i <= |outcomes|
      invariant total == TotalCriteria(outcomes[..i])
      invariant failed == FailedCriteria(outcomes[..i])
    {
      var o := outcomes[i];
      if |o.criteriaVerdicts| > 0 {
        var cvs := o.criteriaVerdicts;
        var j := 0;
        while j < |cvs|
          invariant 0 <= j <= |cvs|
          invariant total == TotalCriteria(outcomes[..i]) + j
          invariant failed == FailedCriteria(outcomes[..i]) + VerdictFails(cvs[..j])
        {
          total := total + 1;
          if cvs[j].verdict == "fail" {
            failed := failed + 1;
          }
          assert cvs[..j + 1][..j] == cvs[..j];
          j := j + 1;
        }
        assert cvs[..j] == cvs;
      } else {
        total := total + 1;
        if o.status == "failed" {
          failed := failed + 1;
        }
      }
      assert outcomes[..i + 1][..i] == outcomes[..i];
      i := i + 1;
    }
    assert outcomes[..i] == outcomes;
    d := failed as real / total as real;
  }

  // ---------------------------------------------------------------------
  // P: process implausibility

  const LogicalKeywords: seq<string> := ["logic", "wrong approach", "incorrect", "invalid", "cannot",
    "not possible", "permission denied", "operation not permitted"]
  const EnvKeywords: seq<string> := ["network", "timeout", "context deadline", "connection", "unavailable",
    "not found", "no such file", "temporary", "rate limit"]

  /** " " + lower(uc) for every unmet criterion, in order. */
  function CriteriaText(ucs: seq<string>): string
  {
    if ucs == [] then "" else CriteriaText(ucs[..|ucs| - 1]) + " " + Lower(ucs[|ucs| - 1])
  }

  function TrajectoryText(traj: seq<GapTrajectoryPoint>): string
  {
    if traj == [] then "" else TrajectoryText(traj[..|traj| - 1]) + CriteriaText(traj[|traj| - 1].unmetCriteria)
  }

  /** The text the keyword heuristic searches: the lowered reason, then every unmet criterion. */
  function ReasonText(o: SubTaskOutcome): string
  {
    (match o.failureReason case Some(r) => Lower(r) case None => "") + TrajectoryText(o.gapTrajectory)
  }

  predicate MentionsAny(text: string, kws: seq<string>)
  {
    exists k :: 0 <= k < |kws| && Contains(text, kws[k])
  }

  /** The keyword scan with early exit. */
  method ScanKeywords(text: string, kws: seq<string>) returns (found: bool)
    ensures found <==> MentionsAny(text, kws)
  {
    found := false;
    var k := 0;
    while k < |kws|
      invariant 0 <= k <= |kws|
      invariant !found
      invariant forall m :: 0 <= m < k ==> !Contains(text, kws[m])
    {
      if Contains(text, kws[k]) {
        found := true;
        return;
      }
      k := k + 1;
    }
  }

  predicate KeywordLogical(o: SubTaskOutcome)
  {
    o.status == "failed" && MentionsAny(ReasonText(o), LogicalKeywords) && !MentionsAny(ReasonText(o), EnvKeywords)
  }

  predicate KeywordEnvironmental(o: SubTaskOutcome)
  {
    o.status == "failed" && MentionsAny(ReasonText(o), EnvKeywords) && !MentionsAny(ReasonText(o), LogicalKeywords)
  }

  function KeywordLogicalCount(os: seq<SubTaskOutcome>): nat
  {
    if os == [] then 0
    else KeywordLogicalCount(os[..|os| - 1]) + (if KeywordLogical(os[|os| - 1]) then 1 else 0)
  }

  function KeywordEnvCount(os: seq<SubTaskOutcome>): nat
  {
    if os == [] then 0
    else KeywordEnvCount(os[..|os| - 1]) + (if KeywordEnvironmental(os[|os| - 1]) then 1 else 0)
  }

  /** The keyword-heuristic P: neutral 0.5 when no failed outcome leans one way only. */
  function KeywordP(os: seq<SubTaskOutcome>): real
  {
    var lg, ev := KeywordLogicalCount(os), KeywordEnvCount(os);
    if lg + ev == 0 then 0.5 else lg as real / (lg + ev) as real
  }

  /** computePKeyword. */
  method ComputePKeyword(outcomes: seq<SubTaskOutcome>) returns (p: real)
    ensures p == KeywordP(outcomes)
    ensures 0.0 <= p <= 1.0
    ensures KeywordLogicalCount(outcomes) + KeywordEnvCount(outcomes) == 0 ==> p == 0.5
    ensures KeywordLogicalCount(outcomes) > KeywordEnvCount(outcomes) ==> p > 0.5
    ensures KeywordLogicalCount(outcomes) < KeywordEnvCount(outcomes) ==> p < 0.5
  {
    var logical, environmental := 0, 0;
    var i := 0;
    while i < |outcomes|
      invariant 0 <= i <= |outcomes|
      invariant logical == KeywordLogicalCount(outcomes[..i])
      invariant environmental == KeywordEnvCount(outcomes[..i])
    {
      var o := outcomes[i];
      assert outcomes[..i + 1][..i] == outcomes[..i];
      if o.status == "failed" {
        var reason := ReasonText(o);
        var isLogical := ScanKeywords(reason, LogicalKeywords);
        var isEnv := ScanKeywords(reason, EnvKeywords);
        if isLogical && !isEnv {
          logical := logical + 1;
        } else if isEnv && !isLogical {
          environmental := environmental + 1;
        }
      }
      i := i + 1;
    }
    assert outcomes[..i] == outcomes;
    var total := logical + environmental;
    if total == 0 {
      return 0.5;
    }
    RatioInUnit(logical, total);
    RatioAgainstHalf(logical, environmental);
    p := logical as real / total as real;
  }

  function ClassCount(cvs: seq<CriteriaVerdict>, cls: string): nat
  {
    if cvs == [] then 0
    else
      var last := cvs[|cvs| - 1];
      ClassCount(cvs[..|cvs| - 1], cls) + (if last.verdict == "fail" && last.failureClass == cls then 1 else 0)
  }

  /** "fail" verdicts of failed outcomes whose failure class is `cls`. */
  function FailedClassCount(os: seq<SubTaskOutcome>, cls: string): nat
  {
    if os == [] then 0
    else
      var last := os[|os| - 1];
      FailedClassCount(os[..|os| - 1], cls) + (if last.status == "failed" then ClassCount(last.criteriaVerdicts, cls) else 0)
  }

  /** P: the structured ratio when any failed verdict is classified, else the keyword heuristic. */
  function Implausibility(os: seq<SubTaskOutcome>): real
  {
    var lg, ev := FailedClassCount(os, "logical"), FailedClassCount(os, "environmental");
    if lg + ev > 0 then lg as real / (lg + ev) as real else KeywordP(os)
  }

  /** computeP. */
  method ComputeP(outcomes: seq<SubTaskOutcome>) returns (p: real)
    ensures p == Implausibility(outcomes)
    ensures 0.0 <= p <= 1.0
    ensures outcomes == [] ==> p == 0.5
  {
    var logical, env := 0, 0;
    var i := 0;
    while i < |outcomes|
      invariant 0 <= i <= |outcomes|
      invariant logical == FailedClassCount(outcomes[..i], "logical")
      invariant env == FailedClassCount(outcomes[..i], "environmental")
    {
      var o := outcomes[i];
      assert outcomes[..i + 1][..i] == outcomes[..i];
      if o.status == "failed" {
        var cvs := o.criteriaVerdicts;
        var j := 0;
        while j < |cvs|
          invariant 0 <= j <= |cvs|
          invariant logical == FailedClassCount(outcomes[..i], "logical") + ClassCount(cvs[..j], "logical")
          invariant env == FailedClassCount(outcomes[..i], "environmental") + ClassCount(cvs[..j], "environmental")
        {
          assert cvs[..j + 1][..j] == cvs[..j];
          if cvs[j].verdict == "fail" {
            if cvs[j].failureClass == "logical" {
              logical := logical + 1;
            } else if cvs[j].failureClass == "environmental" {
              env := env + 1;
            }
          }
          j := j + 1;
        }
        assert cvs[..j] == cvs;
      }
      i := i + 1;
    }
    assert outcomes[..i] == outcomes;
    if logical + env > 0 {
      RatioInUnit(logical, logical + env);
      return logical as real / (logical + env) as real;
    }
    p := ComputePKeyword(outcomes);
  }

  // ---------------------------------------------------------------------
  // Ω, L, gradient, directive

  /** computeOmega: budget pressure from replan count and elapsed time, capped at 1. */
  function Omega(replanCount: int, elapsedMs: int): (w: real)
    ensures w <= 1.0
  {
    var raw := W1 * (replanCount as real / MaxReplansGGS as real) + W2 * (elapsedMs as real / TimeBudgetMs as real);
    if raw > 1.0 then 1.0 else raw
  }

  lemma OmegaReferencePoints()
    ensures Omega(0, 0) == 0.0
    ensures Omega(MaxReplansGGS, 0) == W1
    ensures Omega(0, TimeBudgetMs) == W2
    ensures Omega(MaxReplansGGS, TimeBudgetMs) == 1.0
  {
  }

  /** Ω lies in [0, 1] for non-negative inputs and grows with each of them. */
  lemma OmegaMonotone(r1: int, e1: int, r2: int, e2: int)
    requires 0 <= r1 <= r2 && 0 <= e1 <= e2
    ensures 0.0 <= Omega(r1, e1) <= Omega(r2, e2) <= 1.0
  {
  }

  /** computeLoss. */
  function Loss(d: real, p: real, omega: real): real
  {
    Alpha * d + Beta * (1.0 - omega) * p + Lambda * omega
  }

  /** At an exhausted budget P has no weight. */
  lemma LossIgnoresPAtFullBudget(d: real, p1: real, p2: real)
    ensures Loss(d, p1, 1.0) == Loss(d, p2, 1.0) == Alpha * d + Lambda
  {
  }

  /** With every component in [0, 1] the loss is in [0, 1]. */
  lemma LossInUnit(d: real, p: real, omega: real)
    requires 0.0 <= d <= 1.0 && 0.0 <= p <= 1.0 && 0.0 <= omega <= 1.0
    ensures 0.0 <= Loss(d, p, omega) <= 1.0
  {
    var c := Beta * (1.0 - omega);
    assert 0.0 <= c * p <= c * 1.0;
    assert Loss(d, p, omega) == Alpha * d + c * p + Lambda * omega;
  }

  lemma LossReferencePoints()
    ensures Loss(1.0, 0.0, 0.0) == Alpha
    ensures Loss(0.0, 0.0, 1.0) == Lambda
    ensures Loss(1.0, 1.0, 0.0) == Alpha + Beta
  {
  }

  function Abs(x: real): real
  {
    if x < 0.0 then -x else x
  }

  /** computeGradient. */
  function Gradient(gradL: real, d: real): GradientLabel
  {
    if Abs(gradL) < Epsilon then (if d > Delta then Plateau else Stable)
    else if gradL < 0.0 then Improving
    else Worsening
  }

  /** Exactly one of the four labels, each under its own condition. */
  lemma GradientLabels(gradL: real, d: real)
    ensures Gradient(gradL, d) == Plateau <==> Abs(gradL) < Epsilon && d > Delta
    ensures Gradient(gradL, d) == Stable <==> Abs(gradL) < Epsilon && d <= Delta
    ensures Gradient(gradL, d) == Improving <==> gradL <= -Epsilon
    ensures Gradient(gradL, d) == Worsening <==> gradL >= Epsilon
  {
  }

  /** selectDirective. */
  function SelectDirective(gradL: real, d: real, p: real, omega: real, gradient: GradientLabel): Directive
  {
    if omega >= AbandonOmega then Abandon
    else match gradient
      case Improving => Refine
      case Plateau => if p > 0.5 then BreakSymmetry else ChangePath
      case Worsening => if p > 0.5 then ChangeApproach else Refine
      case Stable => Refine
  }

  /** The decision table, abandon first. */
  lemma DirectiveTable(gradL: real, d: real, p: real, omega: real, gradient: GradientLabel)
    ensures SelectDirective(gradL, d, p, omega, gradient) == Abandon <==> omega >= AbandonOmega
    ensures omega < AbandonOmega ==>
      SelectDirective(gradL, d, p, omega, gradient) ==
        (if gradient == Plateau then (if p > 0.5 then BreakSymmetry else ChangePath)
         else if gradient == Worsening && p > 0.5 then ChangeApproach
         else Refine)
  {
  }

  /** computeFailureClass, from P. */
  function FailureClassOf(p: real): string
  {
    if p > 0.5 then "logical" else if p < 0.5 then "environmental" else "mixed"
  }

  /** The failure class names the side of 0.5 that P falls on. */
  lemma FailureClassTable(p: real)
    ensures FailureClassOf(p) == "logical" <==> p > 0.5
    ensures FailureClassOf(p) == "environmental" <==> p < 0.5
    ensures FailureClassOf(p) == "mixed" <==> p == 0.5
  {
  }

  // ---------------------------------------------------------------------
  // Blocked tools

  /** The tool name of a tool-call record: trimmed text before the first ':' at index > 0. */
  function ToolName(tc: string): string
  {
    var idx := Index(tc, ":");
    if idx > 0 then TrimSpace(tc[..idx]) else tc
  }

  /** Non-empty tool names of a list of calls, in order. */
  function CallNames(tcs: seq<string>): seq<string>
  {
    if tcs == [] then []
    else CallNames(tcs[..|tcs| - 1]) + (var n := ToolName(tcs[|tcs| - 1]); if n != "" then [n] else [])
  }

  /** Non-empty tool names of the failed outcomes' calls, in order. */
  function FailedToolNames(os: seq<SubTaskOutcome>): seq<string>
  {
    if os == [] then []
    else
      var last := os[|os| - 1];
      FailedToolNames(os[..|os| - 1]) + (if last.status == "failed" then CallNames(last.toolCalls) else [])
  }

  /** Keep the first occurrence of each element. */
  function Dedup(s: seq<string>): seq<string>
  {
    if s == [] then []
    else
      var d := Dedup(s[..|s| - 1]);
      if s[|s| - 1] in d then d else d + [s[|s| - 1]]
  }

  predicate NoDuplicates(s: seq<string>)
  {
    forall i, j :: 0 <= i < j < |s| ==> s[i] != s[j]
  }

  lemma {:induction false} DedupProperties(s: seq<string>)
    ensures NoDuplicates(Dedup(s))
    ensures forall x :: x in Dedup(s) <==> x in s
  {
    if s != [] {
      DedupProperties(s[..|s| - 1]);
      assert s == s[..|s| - 1] + [s[|s| - 1]];
    }
  }

  lemma {:induction false} CallNamesFrom(tcs: seq<string>, x: string)
    requires x in CallNames(tcs)
    ensures x != "" && exists j :: 0 <= j < |tcs| && ToolName(tcs[j]) == x
  {
    var n := |tcs| - 1;
    if x in CallNames(tcs[..n]) {
      CallNamesFrom(tcs[..n], x);
      var j :| 0 <= j < n && ToolName(tcs[..n][j]) == x;
      assert tcs[j] == tcs[..n][j];
    } else {
      assert ToolName(tcs[n]) == x;
    }
  }

  /** Every blocked-tool candidate comes from a tool call of a failed outcome. */
  lemma {:induction false} FailedToolNamesFrom(os: seq<SubTaskOutcome>, x: string)
    requires x in FailedToolNames(os)
    ensures x != ""
    ensures exists i, j ::
              0 <= i < |os| && os[i].status == "failed" && 0 <= j < |os[i].toolCalls| && ToolName(os[i].toolCalls[j]) == x
  {
    var n := |os| - 1;
    if x in FailedToolNames(os[..n]) {
      FailedToolNamesFrom(os[..n], x);
      var i, j :| 0 <= i < n && os[..n][i].status == "failed"
        && 0 <= j < |os[..n][i].toolCalls| && ToolName(os[..n][i].toolCalls[j]) == x;
      assert os[i] == os[..n][i];
    } else {
      CallNamesFrom(os[n].toolCalls, x);
    }
  }

  /** The blocked tools a directive carries. */
  function BlockedTools(os: seq<SubTaskOutcome>, directive: Directive): seq<string>
  {
    if directive != BreakSymmetry && directive != ChangeApproach then [] else Dedup(FailedToolNames(os))
  }

  lemma DedupSnoc(prefix: seq<string>, x: string)
    ensures Dedup(prefix + [x]) == if x in Dedup(prefix) then Dedup(prefix) else Dedup(prefix) + [x]
  {
    assert (prefix + [x])[..|prefix|] == prefix;
  }

  lemma CallNamesSnoc(tcs: seq<string>, j: int)
    requires 0 <= j < |tcs|
    ensures var n := ToolName(tcs[j]);
            CallNames(tcs[..j + 1]) == CallNames(tcs[..j]) + (if n != "" then [n] else [])
  {
    assert tcs[..j + 1][..j] == tcs[..j];
  }

  /** One tool call's step of the inner loop: a new non-empty name is appended, anything else is skipped. */
  lemma AddCallNameStep(before: seq<string>, tcs: seq<string>, j: int)
    requires 0 <= j < |tcs|
    ensures var name := ToolName(tcs[j]);
            var acc := Dedup(before + CallNames(tcs[..j]));
            Dedup(before + CallNames(tcs[..j + 1])) == if name != "" && name !in acc then acc + [name] else acc
  {
    var name := ToolName(tcs[j]);
    var prior := before + CallNames(tcs[..j]);
    CallNamesSnoc(tcs, j);
    if name != "" {
      assert before + CallNames(tcs[..j + 1]) == prior + [name];
      DedupSnoc(prior, name);
    } else {
      assert before + CallNames(tcs[..j + 1]) == prior;
    }
  }

  /** The inner loop of deriveBlockedTools over one failed outcome's tool calls. */
  method AddCallNames(tcs: seq<string>, ghost before: seq<string>, tools0: seq<string>, seen0: set<string>)
    returns (tools: seq<string>, seen: set<string>)
    requires tools0 == Dedup(before)
    requires forall x :: x in seen0 <==> x in tools0
    ensures tools == Dedup(before + CallNames(tcs))
    ensures forall x :: x in seen <==> x in tools
  {
    tools, seen := tools0, seen0;
    var j := 0;
    assert tcs[..0] == [] && before + [] == before;
    while j < |tcs|
      invariant 0 <= j <= |tcs|
      invariant tools == Dedup(before + CallNames(tcs[..j]))
      invariant forall x :: x in seen <==> x in tools
    {
      var name := ToolName(tcs[j]);
      AddCallNameStep(before, tcs, j);
      if name != "" && name !in seen {
        seen := seen + {name};
        tools := tools + [name];
      }
      j := j + 1;
    }
    assert tcs[..j] == tcs;
  }

  lemma FailedToolNamesSnoc(os: seq<SubTaskOutcome>, i: int)
    requires 0 <= i < |os|
    ensures os[i].status == "failed" ==> FailedToolNames(os[..i + 1]) == FailedToolNames(os[..i]) + CallNames(os[i].toolCalls)
    ensures os[i].status != "failed" ==> FailedToolNames(os[..i + 1]) == FailedToolNames(os[..i])
  {
    assert os[..i + 1][..i] == os[..i];
    assert FailedToolNames(os[..i]) + [] == FailedToolNames(os[..i]);
  }

  /** deriveBlockedTools. */
  method DeriveBlockedTools(outcomes: seq<SubTaskOutcome>, directive: Directive) returns (tools: seq<string>)
    ensures directive != BreakSymmetry && directive != ChangeApproach ==> tools == []
    ensures directive == BreakSymmetry || directive == ChangeApproach ==> tools == Dedup(FailedToolNames(outcomes))
    ensures tools == BlockedTools(outcomes, directive)
  {
    if directive != BreakSymmetry && directive != ChangeApproach {
      return [];
    }
    var seen: set<string> := {};
    tools := [];
    var i := 0;
    while i < |outcomes|
      invariant 0 <= i <= |outcomes|
      invariant tools == Dedup(FailedToolNames(outcomes[..i]))
      invariant forall x :: x in seen <==> x in tools
    {
      var o := outcomes[i];
      FailedToolNamesSnoc(outcomes, i);
      if o.status == "failed" {
        tools, seen := AddCallNames(o.toolCalls, FailedToolNames(outcomes[..i]), tools, seen);
      } else {
        assert FailedToolNames(outcomes[..i + 1]) == FailedToolNames(outcomes[..i]);
      }
      i := i + 1;
    }
    assert outcomes[..i] == outcomes;
  }

  // ---------------------------------------------------------------------
  // Primary failed criterion and abandon summary

  /** A failed outcome whose last trajectory point has an unmet criterion. */
  predicate HasPrimary(o: SubTaskOutcome)
  {
    o.status == "failed" && |o.gapTrajectory| > 0 && |o.gapTrajectory[|o.gapTrajectory| - 1].unmetCriteria| > 0
  }

  function PrimaryOf(o: SubTaskOutcome): string
    requires HasPrimary(o)
  {
    o.gapTrajectory[|o.gapTrajectory| - 1].unmetCriteria[0]
  }

  /** primaryFailedCriterion. */
  function PrimaryFailedCriterion(os: seq<SubTaskOutcome>): string
  {
    if os == [] then ""
    else if HasPrimary(os[0]) then PrimaryOf(os[0])
    else PrimaryFailedCriterion(os[1..])
  }

  /** The first outcome with an unmet criterion in its last attempt decides. */
  lemma {:induction false} PrimaryFailedCriterionIsFirst(os: seq<SubTaskOutcome>, i: int)
    requires 0 <= i < |os| && HasPrimary(os[i])
    requires forall j :: 0 <= j < i ==> !HasPrimary(os[j])
    ensures PrimaryFailedCriterion(os) == PrimaryOf(os[i])
  {
    if i > 0 {
      PrimaryFailedCriterionIsFirst(os[1..], i - 1);
    }
  }

  lemma {:induction false} PrimaryFailedCriterionNone(os: seq<SubTaskOutcome>)
    requires forall j :: 0 <= j < |os| ==> !HasPrimary(os[j])
    ensures PrimaryFailedCriterion(os) == ""
  {
    if os != [] {
      PrimaryFailedCriterionNone(os[1..]);
    }
  }

  /** The intents of the matched outcomes, in order. */
  function MatchedIntents(os: seq<SubTaskOutcome>): (r: seq<string>)
    ensures |r| <= |os|
    ensures r == [] <==> forall o :: o in os ==> o.status != "matched"
  {
    if os == [] then []
    else
      assert forall o :: o in os ==> o == os[0] || o in os[1..];
      (if os[0].status == "matched" then [os[0].intent] else []) + MatchedIntents(os[1..])
  }

  /** The intents of every other outcome (failed or abandoned), in order. */
  function OtherIntents(os: seq<SubTaskOutcome>): (r: seq<string>)
    ensures |r| <= |os|
    ensures r == [] <==> forall o :: o in os ==> o.status == "matched"
  {
    if os == [] then []
    else
      assert forall o :: o in os ==> o == os[0] || o in os[1..];
      (if os[0].status != "matched" then [os[0].intent] else []) + OtherIntents(os[1..])
  }

  /**
   * Every outcome is listed once, as completed or as failed: an intent is
   * in the completed list exactly when a matched outcome has it, and in the
   * failed list exactly when another outcome has it.
   */
  lemma {:induction false} IntentsPartition(os: seq<SubTaskOutcome>, x: string)
    ensures |MatchedIntents(os)| + |OtherIntents(os)| == |os|
    ensures x in MatchedIntents(os) <==> exists o :: o in os && o.status == "matched" && o.intent == x
    ensures x in OtherIntents(os) <==> exists o :: o in os && o.status != "matched" && o.intent == x
  {
    if os != [] {
      IntentsPartition(os[1..], x);
      assert forall o :: o in os <==> o == os[0] || o in os[1..];
    }
  }

  const AbandonHeadline := "❌ Task abandoned after budget exhausted."
  const AbandonAdvice := "Consider breaking the task into smaller steps or retrying with more specific instructions."

  function CompletedSentence(intents: seq<string>): string
  {
    "Completed: " + Join(intents, "; ") + "."
  }

  function FailedSentence(intents: seq<string>): string
  {
    "Failed: " + Join(intents, "; ") + "."
  }

  /** The sentences of buildAbandonSummary. */
  function AbandonParts(rr: ReplanRequest): seq<string>
  {
    var matched := MatchedIntents(rr.outcomes);
    var failed := OtherIntents(rr.outcomes);
    [AbandonHeadline]
    + (if |matched| > 0 then [CompletedSentence(matched)] else [])
    + (if |failed| > 0 then [FailedSentence(failed)] else [])
    + (if rr.gapSummary != "" then [rr.gapSummary] else [])
    + [AbandonAdvice]
  }

  /**
   * The abandon summary's sentences: the headline; "Completed: …" when some
   * outcome matched; "Failed: …" when some did not (MatchedIntents and
   * OtherIntents are empty exactly when no outcome of that kind exists); the
   * gap summary when there is one; and always the generic advice last.
   */
  lemma AbandonPartsSpec(rr: ReplanRequest)
    ensures var parts := AbandonParts(rr);
            var matched, failed := MatchedIntents(rr.outcomes), OtherIntents(rr.outcomes);
            var c := if matched != [] then 1 else 0;
            var f := if failed != [] then 1 else 0;
            var g := if rr.gapSummary != "" then 1 else 0;
            && |parts| == 2 + c + f + g
            && parts[0] == AbandonHeadline
            && (c == 1 ==> parts[1] == CompletedSentence(matched))
            && (f == 1 ==> parts[1 + c] == FailedSentence(failed))
            && (g == 1 ==> parts[1 + c + f] == rr.gapSummary)
            && parts[|parts| - 1] == AbandonAdvice
  {
    var matched, failed := MatchedIntents(rr.outcomes), OtherIntents(rr.outcomes);
    OptionalSentences(AbandonHeadline,
                      if matched != [] then [CompletedSentence(matched)] else [],
                      if failed != [] then [FailedSentence(failed)] else [],
                      if rr.gapSummary != "" then [rr.gapSummary] else [],
                      AbandonAdvice);
  }

  /** Where each optional sentence lands between a first and a last one. */
  lemma OptionalSentences(first: string, c: seq<string>, f: seq<string>, g: seq<string>, last: string)
    requires |c| <= 1 && |f| <= 1 && |g| <= 1
    ensures var ps := [first] + c + f + g + [last];
            && |ps| == 2 + |c| + |f| + |g|
            && ps[0] == first
            && (|c| == 1 ==> ps[1] == c[0])
            && (|f| == 1 ==> ps[1 + |c|] == f[0])
            && (|g| == 1 ==> ps[1 + |c| + |f|] == g[0])
            && ps[|ps| - 1] == last
  {
  }

  /** buildAbandonSummary. */
  function AbandonSummary(rr: ReplanRequest): string
  {
    Join(AbandonParts(rr), " ")
  }

  // ---------------------------------------------------------------------
  // Controller state

  /** The quantities of one replan round. */
  datatype Round = Round(d: real, p: real, omega: real, l: real, gradL: real, gradient: GradientLabel, directive: Directive)

  /** A round's loss, gradient and directive, given the replan count and L_{t-1} if any. */
  function Evaluate(outcomes: seq<SubTaskOutcome>, count: int, elapsedMs: int, prev: Option<real>): Round
  {
    var d := Distance(outcomes);
    var p := Implausibility(outcomes);
    var omega := Omega(count, elapsedMs);
    var l := Loss(d, p, omega);
    var gradL := match prev case Some(lp) => l - lp case None => 0.0;
    var gradient := Gradient(gradL, d);
    Round(d, p, omega, l, gradL, gradient, SelectDirective(gradL, d, p, omega, gradient))
  }

  function Lookup<V>(m: map<string, V>, k: string): Option<V>
  {
    if k in m then Some(m[k]) else None
  }

  /** The round computation of process, using the looping D and P computations. */
  method EvaluateRound(outcomes: seq<SubTaskOutcome>, count: int, elapsedMs: int, prev: Option<real>) returns (r: Round)
    ensures r == Evaluate(outcomes, count, elapsedMs, prev)
  {
    var d := ComputeD(outcomes);
    var p := ComputeP(outcomes);
    var omega := Omega(count, elapsedMs);
    var l := Loss(d, p, omega);
    var gradL := 0.0;
    if prev.Some? {
      gradL := l - prev.value;
    }
    var gradient := Gradient(gradL, d);
    r := Round(d, p, omega, l, gradL, gradient, SelectDirective(gradL, d, p, omega, gradient));
  }

  /** A round's loss lies in [0, 1], a first round has no gradient, and it abandons exactly at the budget limit. */
  lemma EvaluateSpec(outcomes: seq<SubTaskOutcome>, count: nat, elapsedMs: nat, prev: Option<real>)
    ensures var r := Evaluate(outcomes, count, elapsedMs, prev);
      0.0 <= r.l <= 1.0 &&
      (prev.None? ==> r.gradL == 0.0 && r.gradient == (if r.d > Delta then Plateau else Stable)) &&
      (r.directive == Abandon <==> r.omega >= AbandonOmega) &&
      (r.directive == BreakSymmetry || r.directive == ChangeApproach ==> r.p > 0.5)
  {
    var r := Evaluate(outcomes, count, elapsedMs, prev);
    DistanceInUnit(outcomes);
    var lg, ev := FailedClassCount(outcomes, "logical"), FailedClassCount(outcomes, "environmental");
    if lg + ev > 0 {
      RatioInUnit(lg, lg + ev);
    } else {
      var kl, ke := KeywordLogicalCount(outcomes), KeywordEnvCount(outcomes);
      if kl + ke > 0 {
        RatioInUnit(kl, kl + ke);
      }
    }
    OmegaMonotone(0, 0, count, elapsedMs);
    LossInUnit(r.d, r.p, r.omega);
    DirectiveTable(r.gradL, r.d, r.p, r.omega, r.gradient);
  }

  // ---------------------------------------------------------------------
  // Rationale

  /** Contains(a + x + b, x): a piece put between two strings can be found in the result. */
  lemma ContainsMiddle(a: string, x: string, b: string)
    ensures Contains(a + x + b, x)
  {
    var s := a + x + b;
    assert s[|a|..|a| + |x|] == x;
    ContainsAt(s, x, |a|);
  }

  /** The pieces of a message, concatenated. */
  function Concat(ps: seq<string>): string
  {
    if ps == [] then "" else ps[0] + Concat(ps[1..])
  }

  lemma {:induction false} ConcatSplit(ps: seq<string>, i: nat)
    requires i < |ps|
    ensures Concat(ps) == Concat(ps[..i]) + ps[i] + Concat(ps[i + 1..])
  {
    if i > 0 {
      ConcatSplit(ps[1..], i - 1);
      assert ps[1..][..i - 1] == ps[1..i];
      assert ps[1..][i..] == ps[i + 1..];
      assert ps[..i] == [ps[0]] + ps[1..i];
      assert Concat(ps[..i]) == ps[0] + Concat(ps[1..i]);
    }
  }

  /** Every piece of a message can be found in it. */
  lemma PieceShown(ps: seq<string>, i: nat)
    requires i < |ps|
    ensures Contains(Concat(ps), ps[i])
  {
    ConcatSplit(ps, i);
    ContainsMiddle(Concat(ps[..i]), ps[i], Concat(ps[i + 1..]));
  }

  /**
   * The fixed text between the numbers of buildRationale, piece by piece.
   * The rationale is defined for any wording and the controller holds the
   * source's own (GoWording), so the properties below do not depend on the
   * exact sentences.
   */
  datatype Wording = Wording(
    refineUpHead: string,
    refineUpTail: string,
    refineEnvHead: string,
    refineEnvTail: string,
    plateauHead: string,
    epsilonText: string,
    dText: string,
    deltaText: string,
    plateauEnv: string,
    plateauTail: string,
    worseningHead: string,
    worseningMid: string,
    worseningTail: string,
    minimumHead: string,
    pText: string,
    minimumTail: string,
    abandonHead: string,
    atLeastText: string,
    abandonTail: string)

  /** The wording the source uses. */
  function GoWording(): Wording
  {
    Wording("Loss decreasing (∇L=",
            ") — on the right track. Tighten parameters. ",
            "Environmental issue suspected (P=",
            " ≤ 0.5). Same tool sequence, adjust path/parameters. ",
            "Plateau detected (|∇L|=",
            " < ε=",
            ", D=",
            " > δ=",
            "). Environmental origin (P=",
            "). Same approach, different target/parameters. ",
            "Loss worsening (∇L=",
            ") with logical failures (P=",
            " > 0.5). Escalate: use explicitly different tool class. ",
            "Local minimum (|∇L|=",
            ", P=",
            "). Block all tried tools; demand novel approach. ",
            "Budget exhausted (Ω=",
            " ≥ ",
            "). Continued replanning cost exceeds gap cost. ")
  }

  /**
   * The pieces of buildRationale before its closing "Gap: <summary>": a
   * sentence naming the situation that selected the directive, with the
   * numbers behind it. `fmt(x, n)` is Go's `%.nf` rendering of x.
   */
  function RationalePieces(w: Wording, directive: Directive, gradient: GradientLabel, d: real, p: real, omega: real, gradL: real,
                           fmt: (real, nat) -> string): seq<string>
  {
    match directive
    case Refine =>
      if gradient == Improving then [w.refineUpHead, fmt(gradL, 3), w.refineUpTail]
      else [w.refineEnvHead, fmt(p, 2), w.refineEnvTail]
    case ChangePath =>
      [w.plateauHead, fmt(Abs(gradL), 3), w.epsilonText, fmt(Epsilon, 1), w.dText, fmt(d, 2),
       w.deltaText, fmt(Delta, 1), w.plateauEnv, fmt(p, 2), w.plateauTail]
    case ChangeApproach =>
      [w.worseningHead, fmt(gradL, 3), w.worseningMid, fmt(p, 2), w.worseningTail]
    case BreakSymmetry =>
      [w.minimumHead, fmt(Abs(gradL), 3), w.epsilonText, fmt(Epsilon, 1), w.dText, fmt(d, 2),
       w.deltaText, fmt(Delta, 1), w.pText, fmt(p, 2), w.minimumTail]
    case Abandon =>
      [w.abandonHead, fmt(omega, 3), w.atLeastText, fmt(AbandonOmega, 1), w.abandonTail]
  }

  /** buildRationale: the explanation of the directive, closed by the gap summary. */
  function Rationale(w: Wording, directive: Directive, gradient: GradientLabel, d: real, p: real, omega: real, gradL: real,
                     gap: string, fmt: (real, nat) -> string): string
  {
    Concat(RationalePieces(w, directive, gradient, d, p, omega, gradL, fmt) + ["Gap: " + gap])
  }

  /** A message ends with its last piece. */
  lemma ConcatEndsWith(ps: seq<string>, g: string)
    ensures HasSuffix(Concat(ps + [g]), g)
  {
    ConcatSplit(ps + [g], |ps|);
    assert (ps + [g])[..|ps|] == ps;
    assert (ps + [g])[|ps| + 1..] == [];
    var t := Concat(ps);
    assert (t + g + "")[|t|..] == g;
  }

  /** Whatever the directive, the rationale ends with "Gap: " and the gap summary. */
  lemma RationaleEndsWithGap(w: Wording, directive: Directive, gradient: GradientLabel, d: real, p: real, omega: real, gradL: real,
                             gap: string, fmt: (real, nat) -> string)
    ensures HasSuffix(Rationale(w, directive, gradient, d, p, omega, gradL, gap, fmt), "Gap: " + gap)
  {
    ConcatEndsWith(RationalePieces(w, directive, gradient, d, p, omega, gradL, fmt), "Gap: " + gap);
  }

  /** A refine rationale shows ∇L when the loss is improving. */
  lemma RefineImprovingReports(w: Wording, d: real, p: real, omega: real, gradL: real, gap: string, fmt: (real, nat) -> string)
    ensures Contains(Rationale(w, Refine, Improving, d, p, omega, gradL, gap, fmt), fmt(gradL, 3))
  {
    PieceShown(RationalePieces(w, Refine, Improving, d, p, omega, gradL, fmt) + ["Gap: " + gap], 1);
  }

  /** A refine rationale of a loss that is not improving (the environmental case) shows P. */
  lemma RefineEnvironmentReports(w: Wording, gradient: GradientLabel, d: real, p: real, omega: real, gradL: real, gap: string, fmt: (real, nat) -> string)
    requires gradient != Improving
    ensures Contains(Rationale(w, Refine, gradient, d, p, omega, gradL, gap, fmt), fmt(p, 2))
  {
    PieceShown(RationalePieces(w, Refine, gradient, d, p, omega, gradL, fmt) + ["Gap: " + gap], 1);
  }

  /** A change_path rationale shows |∇L|, D and P, the numbers that make a plateau of environmental origin. */
  lemma ChangePathReports(w: Wording, gradient: GradientLabel, d: real, p: real, omega: real, gradL: real, gap: string, fmt: (real, nat) -> string)
    ensures var r := Rationale(w, ChangePath, gradient, d, p, omega, gradL, gap, fmt);
            Contains(r, fmt(Abs(gradL), 3)) && Contains(r, fmt(d, 2)) && Contains(r, fmt(p, 2))
  {
    var ps := RationalePieces(w, ChangePath, gradient, d, p, omega, gradL, fmt) + ["Gap: " + gap];
    PieceShown(ps, 1);
    PieceShown(ps, 5);
    PieceShown(ps, 9);
  }

  /** A change_approach rationale shows ∇L and P, the numbers that make a worsening logical failure. */
  lemma ChangeApproachReports(w: Wording, gradient: GradientLabel, d: real, p: real, omega: real, gradL: real, gap: string, fmt: (real, nat) -> string)
    ensures var r := Rationale(w, ChangeApproach, gradient, d, p, omega, gradL, gap, fmt);
            Contains(r, fmt(gradL, 3)) && Contains(r, fmt(p, 2))
  {
    var ps := RationalePieces(w, ChangeApproach, gradient, d, p, omega, gradL, fmt) + ["Gap: " + gap];
    PieceShown(ps, 1);
    PieceShown(ps, 3);
  }

  /** A break_symmetry rationale shows |∇L|, D and P, the numbers that make a plateau of logical origin. */
  lemma BreakSymmetryReports(w: Wording, gradient: GradientLabel, d: real, p: real, omega: real, gradL: real, gap: string, fmt: (real, nat) -> string)
    ensures var r := Rationale(w, BreakSymmetry, gradient, d, p, omega, gradL, gap, fmt);
            Contains(r, fmt(Abs(gradL), 3)) && Contains(r, fmt(d, 2)) && Contains(r, fmt(p, 2))
  {
    var ps := RationalePieces(w, BreakSymmetry, gradient, d, p, omega, gradL, fmt) + ["Gap: " + gap];
    PieceShown(ps, 1);
    PieceShown(ps, 5);
    PieceShown(ps, 9);
  }

  /** An abandon rationale shows Ω, the budget pressure that ended the task. */
  lemma AbandonReports(w: Wording, gradient: GradientLabel, d: real, p: real, omega: real, gradL: real, gap: string, fmt: (real, nat) -> string)
    ensures Contains(Rationale(w, Abandon, gradient, d, p, omega, gradL, gap, fmt), fmt(omega, 3))
  {
    PieceShown(RationalePieces(w, Abandon, gradient, d, p, omega, gradL, fmt) + ["Gap: " + gap], 1);
  }

  /** The replan round number a task reaches with this request. */
  function NextCount(replans: map<string, nat>, task: string): nat
  {
    (if task in replans then replans[task] else 0) + 1
  }

  function RoundFor(rr: ReplanRequest, replans: map<string, nat>, lPrev: map<string, real>): Round
  {
    Evaluate(rr.outcomes, NextCount(replans, rr.taskId), rr.elapsedMs, Lookup(lPrev, rr.taskId))
  }

  /** The FinalResult of an abandoned task, with the loss breakdown of its last round. */
  function AbandonResult(rr: ReplanRequest, r: Round, count: nat): FinalResult
  {
    FinalResult(rr.taskId, AbandonSummary(rr), Null, LossBreakdown(r.d, r.p, r.omega, r.l), r.gradL, count)
  }

  /** The PlanDirective of a round that is not abandoned. */
  function DirectiveFor(rr: ReplanRequest, r: Round, w: Wording, fmt: (real, nat) -> string): PlanDirective
  {
    PlanDirective(rr.taskId, LossBreakdown(r.d, r.p, r.omega, r.l), r.gradient.Name(), r.directive.Name(),
                  BlockedTools(rr.outcomes, r.directive), PrimaryFailedCriterion(rr.outcomes),
                  FailureClassOf(r.p), r.omega, r.gradL,
                  Rationale(w, r.directive, r.gradient, r.d, r.p, r.omega, r.gradL, rr.gapSummary, fmt))
  }

  /** The PlanDirective fields of process: blocked tools, primary failed criterion, failure class and rationale. */
  method BuildDirective(rr: ReplanRequest, r: Round, w: Wording, fmt: (real, nat) -> string) returns (pd: PlanDirective)
    ensures pd == DirectiveFor(rr, r, w, fmt)
  {
    var blocked := DeriveBlockedTools(rr.outcomes, r.directive);
    var failedCriterion := PrimaryFailedCriterion(rr.outcomes);
    var failureClass := FailureClassOf(r.p);
    var rationale := Rationale(w, r.directive, r.gradient, r.d, r.p, r.omega, r.gradL, rr.gapSummary, fmt);
    pd := PlanDirective(rr.taskId, LossBreakdown(r.d, r.p, r.omega, r.l), r.gradient.Name(), r.directive.Name(),
                        blocked, failedCriterion, failureClass, r.omega, r.gradL, rationale);
  }

  /** What the controller publishes. */
  datatype Emission = EmitDirective(directive: PlanDirective) | EmitFinal(result: FinalResult)

  class GGS {
    /** L_{t-1} per task. */
    var lPrev: map<string, real>
    /** Replan round counter per task. */
    var replans: map<string, nat>
    /** Messages published, in order. */
    var emitted: seq<Emission>
    /** The sentences of the rationale. */
    const wording: Wording

    constructor ()
      ensures lPrev == map[] && replans == map[] && emitted == [] && wording == GoWording()
    {
      wording := GoWording();
      lPrev := map[];
      replans := map[];
      emitted := [];
    }

    /** process: one ReplanRequest round; `fmt` renders the rationale's numbers. */
    method Process(rr: ReplanRequest, fmt: (real, nat) -> string)
      modifies this
      ensures var r := RoundFor(rr, old(replans), old(lPrev));
              r.directive == Abandon ==>
                lPrev == old(lPrev) - {rr.taskId} && replans == old(replans) - {rr.taskId}
                && emitted == old(emitted) + [EmitFinal(AbandonResult(rr, r, NextCount(old(replans), rr.taskId)))]
      ensures var r := RoundFor(rr, old(replans), old(lPrev));
              r.directive != Abandon ==>
                lPrev == old(lPrev)[rr.taskId := r.l] && replans == old(replans)[rr.taskId := NextCount(old(replans), rr.taskId)]
                && emitted == old(emitted) + [EmitDirective(DirectiveFor(rr, r, wording, fmt))]
    {
      var task := rr.taskId;
      var count := (if task in replans then replans[task] else 0) + 1;
      var r := EvaluateRound(rr.outcomes, count, rr.elapsedMs, Lookup(lPrev, task));
      assert r == RoundFor(rr, replans, lPrev);
      // The source stores the incremented count and L first and deletes both
      // again on abandon; only the final per-task state is modelled.
      if r.directive == Abandon {
        FinishAbandoned(rr, r, count);
      } else {
        var pd := BuildDirective(rr, r, wording, fmt);
        Continue(rr.taskId, r.l, count, pd);
      }
    }

    /** Another round: L and the round count are stored, and the plan directive is sent to the planner. */
    method Continue(task: string, l: real, count: nat, pd: PlanDirective)
      modifies this
      ensures lPrev == old(lPrev)[task := l] && replans == old(replans)[task := count]
      ensures emitted == old(emitted) + [EmitDirective(pd)]
    {
      replans := replans[task := count];
      lPrev := lPrev[task := l];
      emitted := emitted + [EmitDirective(pd)];
    }

    /** Budget exhausted: the controller finishes the task itself and forgets it. */
    method FinishAbandoned(rr: ReplanRequest, r: Round, count: nat)
      modifies this
      ensures lPrev == old(lPrev) - {rr.taskId} && replans == old(replans) - {rr.taskId}
      ensures emitted == old(emitted) + [EmitFinal(AbandonResult(rr, r, count))]
    {
      emitted := emitted + [EmitFinal(AbandonResult(rr, r, count))];
      lPrev := lPrev - {rr.taskId};
      replans := replans - {rr.taskId};
    }

    /** processAccept: the D = 0 accept path closes the task. */
    method ProcessAccept(os: OutcomeSummary)
      modifies this
      ensures var task := os.taskId;
              var count := if task in old(replans) then old(replans[task]) else 0;
              var omega := Omega(count, os.elapsedMs);
              var l := Loss(0.0, 0.5, omega);
              var gradL := if task in old(lPrev) then l - old(lPrev[task]) else 0.0;
              lPrev == old(lPrev) - {task} && replans == old(replans) - {task}
              && emitted == old(emitted) + [EmitFinal(FinalResult(task, os.summary, os.mergedOutput,
                                                                  LossBreakdown(0.0, 0.5, omega, l), gradL, count))]
    {
      var task := os.taskId;
      var hasPrev := task in lPrev;
      var prev := if hasPrev then lPrev[task] else 0.0;
      var count := if task in replans then replans[task] else 0;
      var omega := Omega(count, os.elapsedMs);
      var l := Loss(0.0, 0.5, omega);
      var gradL := 0.0;
      if hasPrev {
        gradL := l - prev;
      }
      lPrev := lPrev - {task};
      replans := replans - {task};
      emitted := emitted + [EmitFinal(FinalResult(task, os.summary, os.mergedOutput,
                                                  LossBreakdown(0.0, 0.5, omega, l), gradL, count))];
    }
  }

  /** A first round (no L_{t-1}) has ∇L = 0, so its label depends on D alone. */
  lemma FirstRoundGradient(d: real)
    ensures Gradient(0.0, d) == (if d > Delta then Plateau else Stable)
  {
  }

  /** On the accept path D = 0, so a small ∇L always reads as stable. */
  lemma AcceptGradientNeverPlateau(gradL: real)
    ensures Gradient(gradL, 0.0) != Plateau
  {
  }
}
