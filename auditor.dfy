/**
 * The auditor role (R6): it watches every bus message through a tap,
 * flags messages on paths the architecture does not allow, counts tasks,
 * corrections and gradient labels over a reporting window, raises drift,
 * convergence-failure and controller-thrashing anomalies, and on request
 * publishes a report of the window and starts a new one.
 */
module Auditor {
  import opened Types
  import opened Text

  /** A replan with this many corrections is drift. */
  const ThrashThreshold: int := 5
  /** This many break_symmetry directives in a row without D falling is controller thrashing. */
  const BreakSymThrashThreshold: nat := 2
  /** How much D must fall between two break_symmetry directives to count as progress. */
  const DTolerance: real := 0.000000001

  datatype Path = Path(from: Role, to: Role)

  /** The allowed sender and receiver of each message type; types not listed are not checked. */
  function AllowedPaths(t: MessageType): Option<seq<Path>>
  {
    if t == MsgTaskSpec then Some([Path(RolePerceiver, RolePlanner)])
    else if t == MsgSubTask then Some([Path(RolePlanner, RoleExecutor)])
    else if t == MsgDispatchManifest then Some([Path(RolePlanner, RoleMetaVal)])
    else if t == MsgExecutionResult then Some([Path(RoleExecutor, RoleAgentVal)])
    else if t == MsgCorrectionSignal then Some([Path(RoleAgentVal, RoleExecutor)])
    else if t == MsgSubTaskOutcome then Some([Path(RoleAgentVal, RoleMetaVal)])
    else if t == MsgReplanRequest then Some([Path(RoleMetaVal, RoleGGS)])
    else if t == MsgPlanDirective then Some([Path(RoleGGS, RolePlanner)])
    else if t == MsgOutcomeSummary then Some([Path(RoleMetaVal, RoleGGS)])
    else if t == MsgMemoryWrite then Some([Path(RoleMetaVal, RoleMemory)])
    else if t == MsgMemoryRead then Some([Path(RolePlanner, RoleMemory)])
    else if t == MsgMemoryResponse then Some([Path(RoleMemory, RolePlanner)])
    else if t == MsgFinalResult then Some([Path(RoleMetaVal, RoleUser), Path(RoleGGS, RoleUser)])
    else None
  }

  /** A message of a checked type sent along none of its allowed paths. */
  predicate Violates(msg: Message)
  {
    var allowed := AllowedPaths(msg.msgType);
    allowed.Some? && Path(msg.from, msg.to) !in allowed.value
  }

  /** The boundary loop with `break`: whether some allowed path matches. */
  method PathAllowed(allowed: seq<Path>, from: Role, to: Role) returns (matched: bool)
    ensures matched <==> Path(from, to) in allowed
  {
    matched := false;
    var i := 0;
    while i < |allowed|
      invariant 0 <= i <= |allowed|
      invariant !matched && Path(from, to) !in allowed[..i]
    {
      if from == allowed[i].from && to == allowed[i].to {
        matched := true;
        break;
      }
      assert allowed[..i + 1] == allowed[..i] + [allowed[i]];
      i := i + 1;
    }
    assert !matched ==> allowed[..i] == allowed;
  }

  datatype Trends = Trends(improving: nat, stable: nat, worsening: nat)

  /** The window statistics and the per-task trackers, as a value. */
  datatype Audit = Audit(
    correctionCounts: map<string, int>,
    replanCounts: map<string, nat>,
    breakSymCount: map<string, nat>,
    lastBreakSymD: map<string, real>,
    windowStart: string,
    tasksObserved: nat,
    totalCorrections: int,
    trends: Trends,
    violations: seq<string>,
    drifts: seq<string>,
    anomalies: seq<string>)

  /** The audit state part-way through one message, with the anomaly label and detail so far. */
  datatype Checked = Checked(a: Audit, anomaly: string, detail: Option<string>)

  function CountOf<K>(m: map<K, nat>, k: K): nat
  {
    if k in m then m[k] else 0
  }

  function IntOf(m: map<string, int>, k: string): int
  {
    if k in m then m[k] else 0
  }

  function ViolationText(msg: Message): string
  {
    "unexpected " + msg.from + "→" + msg.to + " for " + msg.msgType
  }

  /** Step 1: the boundary check. */
  function CheckBoundary(c: Checked, msg: Message): Checked
  {
    if Violates(msg) then
      var d := ViolationText(msg);
      Checked(c.a.(violations := c.a.violations + [d], anomalies := c.a.anomalies + ["boundary_violation: " + d]),
              "boundary_violation", Some(d))
    else c
  }

  /** Step 2: a dispatch manifest is one more task observed. */
  function CountManifest(c: Checked, msg: Message): Checked
  {
    if msg.msgType == MsgDispatchManifest then c.(a := c.a.(tasksObserved := c.a.tasksObserved + 1)) else c
  }

  function DriftText(rr: ReplanRequest, count: nat): string
  {
    "task " + rr.taskId + " correction_count=" + IntToString(rr.correctionCount)
      + " (thrashing threshold=5) replan#" + NatToString(count)
  }

  /** Step 3: a replan request adds its corrections; five or more is drift. */
  function TrackReplan(c: Checked, msg: Message): Checked
  {
    if msg.msgType != MsgReplanRequest || !msg.payload.PReplan? then c
    else
      var rr := msg.payload.replan;
      var a := c.a;
      var count := CountOf(a.replanCounts, rr.taskId) + 1;
      var a1 := a.(replanCounts := a.replanCounts[rr.taskId := count],
                   correctionCounts := a.correctionCounts[rr.taskId := IntOf(a.correctionCounts, rr.taskId) + rr.correctionCount],
                   totalCorrections := a.totalCorrections + rr.correctionCount);
      if rr.correctionCount >= ThrashThreshold then
        var d := DriftText(rr, count);
        Checked(a1.(drifts := a1.drifts + [d], anomalies := a1.anomalies + ["drift: " + d]), "drift", Some(d))
      else c.(a := a1)
  }

  /** One more of the gradient label; anything but improving or worsening counts as stable. */
  function Tally(t: Trends, gradient: string): Trends
  {
    if gradient == "improving" then t.(improving := t.improving + 1)
    else if gradient == "worsening" then t.(worsening := t.worsening + 1)
    else t.(stable := t.stable + 1)
  }

  function Total(t: Trends): nat
  {
    t.improving + t.stable + t.worsening
  }

  /** The consecutive break_symmetry count after one more: it resets unless D failed to fall. */
  function NextBreakSym(count: map<string, nat>, lastD: map<string, real>, task: string, d: real): nat
  {
    if task in lastD && d >= lastD[task] - DTolerance then CountOf(count, task) + 1 else 1
  }

  /** Step 4a: the gradient label, and a convergence failure when it is worsening. */
  function Gradient(c: Checked, pd: PlanDirective, fmt3: real -> string): Checked
  {
    var a := c.a.(trends := Tally(c.a.trends, pd.gradient));
    if pd.gradient == "worsening" then
      var d := "task " + pd.taskId + " gradient=worsening directive=" + pd.directive + " L=" + fmt3(pd.loss.l);
      Checked(a.(anomalies := a.anomalies + ["convergence_failure: " + d]), "convergence_failure", Some(d))
    else c.(a := a)
  }

  /** Step 4b: the consecutive break_symmetry count, or forgetting it on any other directive. */
  function BreakSymmetry(c: Checked, pd: PlanDirective, fmt3: real -> string): Checked
  {
    var task := pd.taskId;
    if pd.directive == "break_symmetry" then
      var count := NextBreakSym(c.a.breakSymCount, c.a.lastBreakSymD, task, pd.loss.d);
      var a := c.a.(lastBreakSymD := c.a.lastBreakSymD[task := pd.loss.d], breakSymCount := c.a.breakSymCount[task := count]);
      if count >= BreakSymThrashThreshold then
        var d := "task " + task + ": " + NatToString(count) + " consecutive break_symmetry without D decreasing (D="
                 + fmt3(pd.loss.d) + ")";
        Checked(a.(anomalies := a.anomalies + ["ggs_thrashing: " + d]), "ggs_thrashing", Some(d))
      else c.(a := a)
    else
      c.(a := c.a.(breakSymCount := c.a.breakSymCount - {task}, lastBreakSymD := c.a.lastBreakSymD - {task}))
  }

  /** Step 4: a plan directive's gradient label, convergence failure and controller thrashing. */
  function TrackDirective(c: Checked, msg: Message, fmt3: real -> string): Checked
  {
    if msg.msgType != MsgPlanDirective || !msg.payload.PDirective? then c
    else BreakSymmetry(Gradient(c, msg.payload.directive, fmt3), msg.payload.directive, fmt3)
  }

  /** process: the four steps in order; the anomaly reported is that of the last step that raised one. */
  function Processed(a: Audit, msg: Message, fmt3: real -> string): Checked
  {
    TrackDirective(TrackReplan(CountManifest(CheckBoundary(Checked(a, "none", None), msg), msg), msg), msg, fmt3)
  }

  // ---------------------------------------------------------------------
  // What each step leaves alone
  // ---------------------------------------------------------------------

  /** The boundary check touches only the violations and the anomalies, and only appends to them. */
  lemma BoundaryKeeps(c: Checked, msg: Message)
    ensures var r := CheckBoundary(c, msg);
            && r.a == c.a.(violations := r.a.violations, anomalies := r.a.anomalies)
            && c.a.violations <= r.a.violations && c.a.anomalies <= r.a.anomalies
  {
  }

  /** Counting a manifest touches only the task count. */
  lemma ManifestKeeps(c: Checked, msg: Message)
    ensures var r := CountManifest(c, msg);
            && r.a == c.a.(tasksObserved := r.a.tasksObserved)
            && r.anomaly == c.anomaly && r.detail == c.detail
            && r.a.tasksObserved == c.a.tasksObserved + (if msg.msgType == MsgDispatchManifest then 1 else 0)
  {
  }

  /** Tracking a replan touches only the correction and replan counters, the drifts and the anomalies. */
  lemma ReplanKeeps(c: Checked, msg: Message)
    ensures var r := TrackReplan(c, msg);
            && r.a == c.a.(correctionCounts := r.a.correctionCounts, replanCounts := r.a.replanCounts,
                           totalCorrections := r.a.totalCorrections, drifts := r.a.drifts, anomalies := r.a.anomalies)
            && c.a.anomalies <= r.a.anomalies
            && (msg.msgType != MsgReplanRequest ==> r == c)
  {
  }

  /** The gradient step touches only the trends and the anomalies. */
  lemma GradientSpec(c: Checked, pd: PlanDirective, fmt3: real -> string)
    ensures var r := Gradient(c, pd, fmt3);
            && r.a == c.a.(trends := Tally(c.a.trends, pd.gradient), anomalies := r.a.anomalies)
            && c.a.anomalies <= r.a.anomalies
            && (pd.gradient == "worsening" ==> r.anomaly == "convergence_failure")
            && (pd.gradient != "worsening" ==> r.anomaly == c.anomaly)
  {
  }

  /** The break_symmetry step touches only its two trackers and the anomalies. */
  lemma BreakSymmetrySpec(c: Checked, pd: PlanDirective, fmt3: real -> string)
    ensures var r := BreakSymmetry(c, pd, fmt3);
            && r.a == c.a.(breakSymCount := r.a.breakSymCount, lastBreakSymD := r.a.lastBreakSymD, anomalies := r.a.anomalies)
            && c.a.anomalies <= r.a.anomalies
            && (pd.directive == "break_symmetry" ==>
                  && pd.taskId in r.a.breakSymCount && pd.taskId in r.a.lastBreakSymD
                  && r.a.breakSymCount[pd.taskId] == NextBreakSym(c.a.breakSymCount, c.a.lastBreakSymD, pd.taskId, pd.loss.d)
                  && r.a.lastBreakSymD[pd.taskId] == pd.loss.d
                  && (r.anomaly == "ggs_thrashing" <==> r.a.breakSymCount[pd.taskId] >= BreakSymThrashThreshold || c.anomaly == "ggs_thrashing"))
            && (pd.directive != "break_symmetry" ==>
                  pd.taskId !in r.a.breakSymCount && pd.taskId !in r.a.lastBreakSymD && r.anomaly == c.anomaly)
  {
  }

  /** Tracking a directive touches only the trends, the break_symmetry trackers and the anomalies. */
  lemma DirectiveKeeps(c: Checked, msg: Message, fmt3: real -> string)
    ensures var r := TrackDirective(c, msg, fmt3);
            && r.a == c.a.(trends := r.a.trends, breakSymCount := r.a.breakSymCount,
                           lastBreakSymD := r.a.lastBreakSymD, anomalies := r.a.anomalies)
            && c.a.anomalies <= r.a.anomalies
            && (msg.msgType != MsgPlanDirective ==> r == c)
  {
    if msg.msgType == MsgPlanDirective && msg.payload.PDirective? {
      var pd := msg.payload.directive;
      GradientSpec(c, pd, fmt3);
      BreakSymmetrySpec(Gradient(c, pd, fmt3), pd, fmt3);
    }
  }

  // ---------------------------------------------------------------------
  // Properties of one processed message
  // ---------------------------------------------------------------------

  /**
   * A boundary violation is recorded exactly for a message of a checked
   * type on none of its paths, in both the violation list and the
   * anomalies; no step removes an anomaly.
   */
  lemma BoundarySpec(a: Audit, msg: Message, fmt3: real -> string)
    ensures var r := Processed(a, msg, fmt3).a;
            && r.violations == a.violations + (if Violates(msg) then [ViolationText(msg)] else [])
            && (Violates(msg) ==> |a.anomalies| < |r.anomalies| && r.anomalies[|a.anomalies|] == "boundary_violation: " + ViolationText(msg))
            && a.anomalies <= r.anomalies
  {
    var c1 := CheckBoundary(Checked(a, "none", None), msg);
    var c2 := CountManifest(c1, msg);
    var c3 := TrackReplan(c2, msg);
    var c4 := TrackDirective(c3, msg, fmt3);
    assert Processed(a, msg, fmt3) == c4;
    BoundaryKeeps(Checked(a, "none", None), msg);
    ManifestKeeps(c1, msg);
    ReplanKeeps(c2, msg);
    DirectiveKeeps(c3, msg, fmt3);
    assert c1.a.anomalies <= c4.a.anomalies;
    if Violates(msg) {
      assert c1.a.anomalies == a.anomalies + ["boundary_violation: " + ViolationText(msg)];
      assert c4.a.anomalies[|a.anomalies|] == c1.a.anomalies[|a.anomalies|];
    } else {
      assert c1.a.violations == a.violations + [];
    }
  }

  /** A dispatch manifest raises the task count by exactly one; nothing else changes it. */
  lemma ManifestSpec(a: Audit, msg: Message, fmt3: real -> string)
    ensures Processed(a, msg, fmt3).a.tasksObserved == a.tasksObserved + (if msg.msgType == MsgDispatchManifest then 1 else 0)
  {
    var c1 := CheckBoundary(Checked(a, "none", None), msg);
    var c2 := CountManifest(c1, msg);
    var c3 := TrackReplan(c2, msg);
    assert Processed(a, msg, fmt3) == TrackDirective(c3, msg, fmt3);
    BoundaryKeeps(Checked(a, "none", None), msg);
    ManifestKeeps(c1, msg);
    ReplanKeeps(c2, msg);
    DirectiveKeeps(c3, msg, fmt3);
  }

  /** Tracking a replan on its own, with the state it starts from. */
  lemma TrackReplanSpec(c: Checked, msg: Message)
    requires msg.msgType == MsgReplanRequest && msg.payload.PReplan?
    ensures var rr := msg.payload.replan;
            var r := TrackReplan(c, msg);
            && r.a.totalCorrections == c.a.totalCorrections + rr.correctionCount
            && r.a.correctionCounts[rr.taskId] == IntOf(c.a.correctionCounts, rr.taskId) + rr.correctionCount
            && r.a.replanCounts[rr.taskId] == CountOf(c.a.replanCounts, rr.taskId) + 1
            && (rr.correctionCount >= ThrashThreshold ==> r.a.drifts == c.a.drifts + [DriftText(rr, r.a.replanCounts[rr.taskId])] && r.anomaly == "drift")
            && (rr.correctionCount < ThrashThreshold ==> r.a.drifts == c.a.drifts)
  {
  }

  /**
   * A replan request adds its correction count to the window total and to
   * the task's count, counts one more replan of the task, and is drift
   * exactly when the count is five or more.
   */
  lemma ReplanSpec(a: Audit, msg: Message, fmt3: real -> string)
    requires msg.msgType == MsgReplanRequest && msg.payload.PReplan?
    ensures var rr := msg.payload.replan;
            var r := Processed(a, msg, fmt3);
            && r.a.totalCorrections == a.totalCorrections + rr.correctionCount
            && r.a.correctionCounts[rr.taskId] == IntOf(a.correctionCounts, rr.taskId) + rr.correctionCount
            && r.a.replanCounts[rr.taskId] == CountOf(a.replanCounts, rr.taskId) + 1
            && (|r.a.drifts| == |a.drifts| + 1 <==> rr.correctionCount >= ThrashThreshold)
            && (rr.correctionCount < ThrashThreshold ==> r.a.drifts == a.drifts)
            && (rr.correctionCount >= ThrashThreshold ==> r.anomaly == "drift")
  {
    var c1 := CheckBoundary(Checked(a, "none", None), msg);
    var c2 := CountManifest(c1, msg);
    var c3 := TrackReplan(c2, msg);
    assert Processed(a, msg, fmt3) == TrackDirective(c3, msg, fmt3);
    BoundaryKeeps(Checked(a, "none", None), msg);
    ManifestKeeps(c1, msg);
    TrackReplanSpec(c2, msg);
    DirectiveKeeps(c3, msg, fmt3);
  }

  /** Messages other than replan requests leave the corrections, the replan counts and the drifts alone. */
  lemma NonReplanSpec(a: Audit, msg: Message, fmt3: real -> string)
    requires msg.msgType != MsgReplanRequest
    ensures var r := Processed(a, msg, fmt3).a;
            && r.totalCorrections == a.totalCorrections && r.correctionCounts == a.correctionCounts
            && r.replanCounts == a.replanCounts && r.drifts == a.drifts
  {
    var c1 := CheckBoundary(Checked(a, "none", None), msg);
    var c2 := CountManifest(c1, msg);
    var c3 := TrackReplan(c2, msg);
    assert Processed(a, msg, fmt3) == TrackDirective(c3, msg, fmt3);
    BoundaryKeeps(Checked(a, "none", None), msg);
    ManifestKeeps(c1, msg);
    ReplanKeeps(c2, msg);
    DirectiveKeeps(c3, msg, fmt3);
  }

  /** Tracking a directive on its own, with the state it starts from. */
  lemma TrackDirectiveSpec(c: Checked, msg: Message, fmt3: real -> string)
    requires msg.msgType == MsgPlanDirective && msg.payload.PDirective?
    requires c.anomaly != "convergence_failure" && c.anomaly != "ggs_thrashing"
    ensures var pd := msg.payload.directive;
            var r := TrackDirective(c, msg, fmt3);
            && r.a.trends == Tally(c.a.trends, pd.gradient)
            && (pd.directive == "break_symmetry" ==>
                  && pd.taskId in r.a.breakSymCount && pd.taskId in r.a.lastBreakSymD
                  && r.a.breakSymCount[pd.taskId] == NextBreakSym(c.a.breakSymCount, c.a.lastBreakSymD, pd.taskId, pd.loss.d)
                  && r.a.lastBreakSymD[pd.taskId] == pd.loss.d
                  && (r.anomaly == "ggs_thrashing" <==> r.a.breakSymCount[pd.taskId] >= BreakSymThrashThreshold))
            && (pd.directive != "break_symmetry" ==>
                  && pd.taskId !in r.a.breakSymCount && pd.taskId !in r.a.lastBreakSymD
                  && (r.anomaly == "convergence_failure" <==> pd.gradient == "worsening"))
  {
    var pd := msg.payload.directive;
    GradientSpec(c, pd, fmt3);
    BreakSymmetrySpec(Gradient(c, pd, fmt3), pd, fmt3);
  }

  /** Exactly one gradient label is counted, under its own name or as stable. */
  lemma TallySpec(t: Trends, gradient: string)
    ensures Total(Tally(t, gradient)) == Total(t) + 1
    ensures Tally(t, gradient).worsening == t.worsening + 1 <==> gradient == "worsening"
    ensures Tally(t, gradient).improving == t.improving + 1 <==> gradient == "improving"
    ensures Tally(t, gradient).stable == t.stable + 1 <==> gradient != "worsening" && gradient != "improving"
  {
  }

  /**
   * A plan directive counts exactly one gradient label, worsening raises
   * a convergence failure, a break_symmetry directive updates the
   * consecutive count and thrashing fires from two on, and any other
   * directive forgets the task's break_symmetry history.
   */
  lemma DirectiveSpec(a: Audit, msg: Message, fmt3: real -> string)
    requires msg.msgType == MsgPlanDirective && msg.payload.PDirective?
    ensures var pd := msg.payload.directive;
            var r := Processed(a, msg, fmt3);
            && Total(r.a.trends) == Total(a.trends) + 1
            && (r.a.trends.worsening == a.trends.worsening + 1 <==> pd.gradient == "worsening")
            && (r.a.trends.improving == a.trends.improving + 1 <==> pd.gradient == "improving")
            && (pd.directive == "break_symmetry" ==>
                  && pd.taskId in r.a.breakSymCount && pd.taskId in r.a.lastBreakSymD
                  && r.a.breakSymCount[pd.taskId] == NextBreakSym(a.breakSymCount, a.lastBreakSymD, pd.taskId, pd.loss.d)
                  && r.a.lastBreakSymD[pd.taskId] == pd.loss.d
                  && (r.anomaly == "ggs_thrashing" <==> r.a.breakSymCount[pd.taskId] >= BreakSymThrashThreshold))
            && (pd.directive != "break_symmetry" ==>
                  && pd.taskId !in r.a.breakSymCount && pd.taskId !in r.a.lastBreakSymD
                  && (r.anomaly == "convergence_failure" <==> pd.gradient == "worsening"))
  {
    var c1 := CheckBoundary(Checked(a, "none", None), msg);
    var c2 := CountManifest(c1, msg);
    var c3 := TrackReplan(c2, msg);
    assert Processed(a, msg, fmt3) == TrackDirective(c3, msg, fmt3);
    BoundaryKeeps(Checked(a, "none", None), msg);
    ManifestKeeps(c1, msg);
    ReplanKeeps(c2, msg);
    assert c3 == c2;
    assert c1.anomaly == "none" || c1.anomaly == "boundary_violation";
    TrackDirectiveSpec(c3, msg, fmt3);
    TallySpec(a.trends, msg.payload.directive.gradient);
  }

  /** The consecutive count resets to one without a prior D or when D fell by more than the tolerance, and grows otherwise. */
  lemma BreakSymSpec(count: map<string, nat>, lastD: map<string, real>, task: string, d: real)
    ensures var n := NextBreakSym(count, lastD, task, d);
            && (task !in lastD || d < lastD[task] - DTolerance ==> n == 1)
            && (task in lastD && d >= lastD[task] - DTolerance ==> n == CountOf(count, task) + 1)
            && n >= 1
  {
  }

  // ---------------------------------------------------------------------
  // Reports
  // ---------------------------------------------------------------------

  datatype AuditReport = AuditReport(
    periodFrom: string,
    periodTo: string,
    tasksObserved: nat,
    violations: seq<string>,
    avgCorrectionCount: real,
    trends: Trends,
    drifts: seq<string>,
    anomalies: seq<string>)

  /** Average corrections per observed task, or 0 with no task. */
  function Average(corrections: int, tasks: nat): real
  {
    if tasks > 0 then corrections as real / tasks as real else 0.0
  }

  lemma AverageSpec(corrections: int, tasks: nat)
    ensures tasks == 0 ==> Average(corrections, tasks) == 0.0
    ensures tasks > 0 ==> Average(corrections, tasks) * tasks as real == corrections as real
    ensures 0 <= corrections ==> 0.0 <= Average(corrections, tasks)
  {
  }

  /** The report of a window. */
  function Report(a: Audit, now: string): AuditReport
  {
    AuditReport(a.windowStart, now, a.tasksObserved, a.violations, Average(a.totalCorrections, a.tasksObserved),
                a.trends, a.drifts, a.anomalies)
  }

  /** The state after a report: the per-task trackers stay, the window starts over at `now`. */
  function Reset(a: Audit, now: string): Audit
  {
    a.(windowStart := now, tasksObserved := 0, totalCorrections := 0, trends := Trends(0, 0, 0),
       violations := [], drifts := [], anomalies := [])
  }

  class Auditor {
    var audit: Audit
    /** Reports published, in order. */
    var reports: seq<AuditReport>

    constructor (now: string)
      ensures audit == Audit(map[], map[], map[], map[], now, 0, 0, Trends(0, 0, 0), [], [], [])
      ensures reports == []
    {
      audit := Audit(map[], map[], map[], map[], now, 0, 0, Trends(0, 0, 0), [], [], []);
      reports := [];
    }

    /**
     * process: one tapped message. The anomaly and detail returned are
     * those of the audit event written for the message.
     */
    method Process(msg: Message, fmt3: real -> string) returns (anomaly: string, detail: Option<string>)
      modifies this
      ensures Checked(audit, anomaly, detail) == Processed(old(audit), msg, fmt3)
      ensures reports == old(reports)
    {
      anomaly, detail := CheckPath(msg);
      if msg.msgType == MsgDispatchManifest {
        audit := audit.(tasksObserved := audit.tasksObserved + 1);
      }
      anomaly, detail := OnReplan(msg, anomaly, detail);
      anomaly, detail := OnDirective(msg, fmt3, anomaly, detail);
    }

    /** The boundary check of one message. */
    method CheckPath(msg: Message) returns (anomaly: string, detail: Option<string>)
      modifies this
      ensures Checked(audit, anomaly, detail) == CheckBoundary(Checked(old(audit), "none", None), msg)
      ensures reports == old(reports)
    {
      anomaly := "none";
      detail := None;
      var allowed := AllowedPaths(msg.msgType);
      if allowed.Some? {
        var matched := PathAllowed(allowed.value, msg.from, msg.to);
        if !matched {
          anomaly := "boundary_violation";
          var d := ViolationText(msg);
          detail := Some(d);
          audit := audit.(violations := audit.violations + [d], anomalies := audit.anomalies + ["boundary_violation: " + d]);
        }
      }
    }

    /** The replan tracking of one message. */
    method OnReplan(msg: Message, anomaly0: string, detail0: Option<string>) returns (anomaly: string, detail: Option<string>)
      modifies this
      ensures Checked(audit, anomaly, detail) == TrackReplan(Checked(old(audit), anomaly0, detail0), msg)
      ensures reports == old(reports)
    {
      anomaly, detail := anomaly0, detail0;
      if msg.msgType == MsgReplanRequest && msg.payload.PReplan? {
        var rr := msg.payload.replan;
        var count := CountOf(audit.replanCounts, rr.taskId) + 1;
        audit := audit.(replanCounts := audit.replanCounts[rr.taskId := count],
                        correctionCounts := audit.correctionCounts[rr.taskId := IntOf(audit.correctionCounts, rr.taskId) + rr.correctionCount],
                        totalCorrections := audit.totalCorrections + rr.correctionCount);
        if rr.correctionCount >= ThrashThreshold {
          anomaly := "drift";
          var d := DriftText(rr, count);
          detail := Some(d);
          audit := audit.(drifts := audit.drifts + [d], anomalies := audit.anomalies + ["drift: " + d]);
        }
      }
    }

    /** The directive tracking of one message. */
    method OnDirective(msg: Message, fmt3: real -> string, anomaly0: string, detail0: Option<string>)
      returns (anomaly: string, detail: Option<string>)
      modifies this
      ensures Checked(audit, anomaly, detail) == TrackDirective(Checked(old(audit), anomaly0, detail0), msg, fmt3)
      ensures reports == old(reports)
    {
      anomaly, detail := anomaly0, detail0;
      if msg.msgType == MsgPlanDirective && msg.payload.PDirective? {
        anomaly, detail := OnGradient(msg.payload.directive, fmt3, anomaly, detail);
        anomaly, detail := OnBreakSymmetry(msg.payload.directive, fmt3, anomaly, detail);
      }
    }

    /** The gradient label of one directive. */
    method OnGradient(pd: PlanDirective, fmt3: real -> string, anomaly0: string, detail0: Option<string>)
      returns (anomaly: string, detail: Option<string>)
      modifies this
      ensures Checked(audit, anomaly, detail) == Gradient(Checked(old(audit), anomaly0, detail0), pd, fmt3)
      ensures reports == old(reports)
    {
      anomaly, detail := anomaly0, detail0;
      audit := audit.(trends := Tally(audit.trends, pd.gradient));
      if pd.gradient == "worsening" {
        anomaly := "convergence_failure";
        var d := "task " + pd.taskId + " gradient=worsening directive=" + pd.directive + " L=" + fmt3(pd.loss.l);
        detail := Some(d);
        audit := audit.(anomalies := audit.anomalies + ["convergence_failure: " + d]);
      }
    }

    /** The break_symmetry tracking of one directive. */
    method OnBreakSymmetry(pd: PlanDirective, fmt3: real -> string, anomaly0: string, detail0: Option<string>)
      returns (anomaly: string, detail: Option<string>)
      modifies this
      ensures Checked(audit, anomaly, detail) == BreakSymmetry(Checked(old(audit), anomaly0, detail0), pd, fmt3)
      ensures reports == old(reports)
    {
      anomaly, detail := anomaly0, detail0;
      var task := pd.taskId;
      if pd.directive == "break_symmetry" {
        var hasPrev := task in audit.lastBreakSymD;
        var prevD := if hasPrev then audit.lastBreakSymD[task] else 0.0;
        var count: nat;
        if hasPrev && pd.loss.d >= prevD - DTolerance {
          count := CountOf(audit.breakSymCount, task) + 1;
        } else {
          count := 1;
        }
        audit := audit.(lastBreakSymD := audit.lastBreakSymD[task := pd.loss.d], breakSymCount := audit.breakSymCount[task := count]);
        if count >= BreakSymThrashThreshold {
          anomaly := "ggs_thrashing";
          var d := "task " + task + ": " + NatToString(count) + " consecutive break_symmetry without D decreasing (D="
                   + fmt3(pd.loss.d) + ")";
          detail := Some(d);
          audit := audit.(anomalies := audit.anomalies + ["ggs_thrashing: " + d]);
        }
      } else {
        audit := audit.(breakSymCount := audit.breakSymCount - {task}, lastBreakSymD := audit.lastBreakSymD - {task});
      }
    }

    /** publishReport: report the window, then zero it. */
    method PublishReport(now: string)
      modifies this
      ensures reports == old(reports) + [Report(old(audit), now)]
      ensures audit == Reset(old(audit), now)
    {
      var tasks := audit.tasksObserved;
      var corrections := audit.totalCorrections;
      var report := AuditReport(audit.windowStart, now, tasks, audit.violations, 0.0, audit.trends, audit.drifts, audit.anomalies);
      audit := audit.(windowStart := now, tasksObserved := 0, totalCorrections := 0, trends := Trends(0, 0, 0),
                      violations := [], drifts := [], anomalies := []);
      var avg := 0.0;
      if tasks > 0 {
        avg := corrections as real / tasks as real;
      }
      reports := reports + [report.(avgCorrectionCount := avg)];
    }
  }

  /**
   * After a report the window is empty: a second report right away (at
   * the same moment) observes no task, no correction, no gradient and no
   * anomaly, while the per-task trackers carry over.
   */
  lemma ResetSpec(a: Audit, now: string)
    ensures var r := Reset(a, now);
            && Report(r, now) == AuditReport(now, now, 0, [], 0.0, Trends(0, 0, 0), [], [])
            && r.replanCounts == a.replanCounts && r.correctionCounts == a.correctionCounts
            && r.breakSymCount == a.breakSymCount && r.lastBreakSymD == a.lastBreakSymD
  {
  }
}
