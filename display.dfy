/**
 * The terminal display's text helpers: clipping by runes, the inline
 * detail shown on each pipeline flow line, the spinner's status label and
 * a role's label. A Dafny `char` here is one rune.
 */
module Display {
  import opened Types
  import opened Text

  const Ellipsis: char := '…'

  /** clip: s itself when it has at most n runes, else its first n runes and an ellipsis. */
  function Clip(s: string, n: nat): string
  {
    if |s| <= n then s else s[..n] + [Ellipsis]
  }

  /** The clip keeps a prefix of s, is at most one rune longer than the limit, and marks every cut. */
  lemma ClipSpec(s: string, n: nat)
    ensures var r := Clip(s, n);
            && |r| <= n + 1
            && (|s| <= n ==> r == s)
            && (|s| > n ==> |r| == n + 1 && r[..n] == s[..n] && r[n] == Ellipsis)
  {
  }

  /** Clipping twice to the same limit changes nothing more. */
  lemma ClipIdempotent(s: string, n: nat)
    ensures Clip(Clip(s, n), n) == Clip(s, n)
  {
    if |s| > n {
      var r := Clip(s, n);
      assert |r| == n + 1;
      assert r[..n] + [Ellipsis] == r;
    }
  }

  /** A role's emoji, where it has one. */
  function RoleEmoji(r: Role): Option<string>
  {
    if r == RolePerceiver then Some("🧠")
    else if r == RolePlanner then Some("📐")
    else if r == RoleExecutor then Some("⚙️ ")
    else if r == RoleAgentVal then Some("🔍")
    else if r == RoleMetaVal then Some("🔮")
    else if r == RoleMemory then Some("💾")
    else if r == RoleAuditor then Some("📡")
    else if r == RoleUser then Some("👤")
    else None
  }

  /** roleLabel: the emoji (a bullet for an unknown role), a space, the role name. */
  function RoleLabel(r: Role): string
  {
    var emoji := RoleEmoji(r);
    (if emoji.Some? then emoji.value else "•") + " " + r
  }

  lemma RoleLabelSpec(r: Role)
    ensures var l := RoleLabel(r);
            && |l| > |r| && l[|l| - |r|..] == r && l[|l| - |r| - 1] == ' '
            && (RoleEmoji(r).None? ==> l == "• " + r)
  {
  }

  /** The static spinner label of each message type, where it has one. */
  function StaticStatus(t: MessageType): Option<string>
  {
    if t == MsgTaskSpec then Some("🧠 perceiving...")
    else if t == MsgSubTask then Some("📐 scheduling subtasks...")
    else if t == MsgDispatchManifest then Some("📐 dispatching...")
    else if t == MsgExecutionResult then Some("🔍 evaluating result...")
    else if t == MsgCorrectionSignal then Some("⚙️  retrying...")
    else if t == MsgSubTaskOutcome then Some("🔮 evaluating outcomes...")
    else if t == MsgReplanRequest then Some("🔮 replanning...")
    else if t == MsgMemoryWrite then Some("💾 saving memory...")
    else if t == MsgMemoryRead then Some("💾 recalling...")
    else if t == MsgMemoryResponse then Some("📐 planning...")
    else None
  }

  const RetryHead: string := "⚙️  retry "
  const Dash: string := " — "
  const OutcomeMatched: string := "🔮 subtask matched — merging..."
  const OutcomeFailed: string := "🔮 subtask failed — assessing..."

  /** The retry label of a correction. */
  function RetryLabel(c: CorrectionSignal): string
  {
    RetryHead + IntToString(c.attemptNumber) + Dash + Clip(c.whatToDo, 38)
  }

  /** dynamicStatus: the spinner label for a message, enriched from its payload where the type allows. */
  function DynamicStatus(msg: Message): string
  {
    if msg.msgType == MsgCorrectionSignal && msg.payload.PCorrection? && msg.payload.correction.whatToDo != "" then
      RetryLabel(msg.payload.correction)
    else if msg.msgType == MsgSubTaskOutcome && msg.payload.POutcome? && msg.payload.outcome.status == "matched" then
      OutcomeMatched
    else if msg.msgType == MsgSubTaskOutcome && msg.payload.POutcome? && msg.payload.outcome.status == "failed" then
      OutcomeFailed
    else
      var s := StaticStatus(msg.msgType);
      if s.Some? then s.value else ""
  }

  /**
   * A correction with something to do is labelled with its attempt and
   * at most 38 runes of the instruction (plus an ellipsis); a matched or
   * failed outcome gets its own label; every other message falls back to
   * the static label of its type, or nothing.
   */
  lemma DynamicStatusSpec(msg: Message)
    ensures var r := DynamicStatus(msg);
            && (msg.msgType == MsgCorrectionSignal && msg.payload.PCorrection? && msg.payload.correction.whatToDo != "" ==>
                  && r[..|RetryHead|] == RetryHead
                  && |r| <= |RetryHead| + |IntToString(msg.payload.correction.attemptNumber)| + |Dash| + 39)
            && (msg.msgType == MsgSubTaskOutcome && msg.payload.POutcome? ==>
                  && (msg.payload.outcome.status == "matched" ==> r == OutcomeMatched)
                  && (msg.payload.outcome.status == "failed" ==> r == OutcomeFailed))
            && (msg.msgType != MsgCorrectionSignal && msg.msgType != MsgSubTaskOutcome ==>
                  r == (if StaticStatus(msg.msgType).Some? then StaticStatus(msg.msgType).value else ""))
  {
    if msg.msgType == MsgCorrectionSignal && msg.payload.PCorrection? && msg.payload.correction.whatToDo != "" {
      ClipSpec(msg.payload.correction.whatToDo, 38);
    }
  }

  /** A correction without an instruction, or with a payload of another kind, keeps the static retry label. */
  lemma CorrectionFallback(msg: Message)
    requires msg.msgType == MsgCorrectionSignal
    requires !msg.payload.PCorrection? || msg.payload.correction.whatToDo == ""
    ensures DynamicStatus(msg) == "⚙️  retrying..."
  {
  }

  /** "#N intent", then the first criterion, then how many more there are. */
  function SubTaskDetail(s: SubTask): string
  {
    var base := "#" + IntToString(s.sequence) + " " + Clip(s.intent, 36);
    if |s.successCriteria| == 0 then base
    else if |s.successCriteria| == 1 then base + " | " + Clip(s.successCriteria[0], 32)
    else base + " | " + Clip(s.successCriteria[0], 32) + " (+" + IntToString(|s.successCriteria| - 1) + ")"
  }

  /** "failed | unmet: …" for a failed outcome whose last attempt left a criterion unmet, else the bare status. */
  function OutcomeDetail(o: SubTaskOutcome): string
  {
    if o.status == "failed" && |o.gapTrajectory| > 0 && |o.gapTrajectory[|o.gapTrajectory| - 1].unmetCriteria| > 0 then
      "failed | unmet: " + Clip(o.gapTrajectory[|o.gapTrajectory| - 1].unmetCriteria[0], 38)
    else o.status
  }

  /** "1 subtask" or "N subtasks". */
  function ManifestDetail(m: DispatchManifest): string
  {
    if |m.subTaskIds| == 1 then "1 subtask" else NatToString(|m.subTaskIds|) + " subtasks"
  }

  /** msgDetail: the short inline detail of a flow line; "" when the payload gives nothing to show. */
  function MsgDetail(msg: Message): string
  {
    var p := msg.payload;
    if msg.msgType == MsgTaskSpec then
      if p.PTaskSpec? && p.spec.intent != "" then Clip(p.spec.intent, 55) else ""
    else if msg.msgType == MsgSubTask then
      if p.PSubTask? && p.subTask.intent != "" then SubTaskDetail(p.subTask) else ""
    else if msg.msgType == MsgExecutionResult then
      if p.PExecution? then p.result.status else ""
    else if msg.msgType == MsgSubTaskOutcome then
      if p.POutcome? then OutcomeDetail(p.outcome) else ""
    else if msg.msgType == MsgCorrectionSignal then
      if p.PCorrection? then "attempt " + IntToString(p.correction.attemptNumber) + Dash + Clip(p.correction.whatWasWrong, 40) else ""
    else if msg.msgType == MsgDispatchManifest then
      if p.PManifest? then ManifestDetail(p.manifest) else ""
    else if msg.msgType == MsgReplanRequest then
      if p.PReplan? then Clip(p.replan.gapSummary, 45) else ""
    else ""
  }

  /**
   * A subtask's detail is "#N " and the clipped intent; the first
   * criterion follows after " | " exactly when there is one, and a
   * "(+k)" count exactly when there are k more.
   */
  lemma SubTaskDetailSpec(s: SubTask)
    ensures var base := "#" + IntToString(s.sequence) + " " + Clip(s.intent, 36);
            var r := SubTaskDetail(s);
            && r[..|base|] == base
            && (|s.successCriteria| == 0 <==> r == base)
            && (|s.successCriteria| >= 1 ==> r[|base|..|base| + 3] == " | ")
            && (|s.successCriteria| == 1 ==> r == base + " | " + Clip(s.successCriteria[0], 32))
            && (|s.successCriteria| > 1 ==>
                  && r[..|base| + 3 + |Clip(s.successCriteria[0], 32)|] == base + " | " + Clip(s.successCriteria[0], 32)
                  && r[|r| - 1] == ')')
  {
  }

  /** The outcome detail names the first unmet criterion only for a failed outcome whose last attempt left one. */
  lemma OutcomeDetailSpec(o: SubTaskOutcome)
    ensures var unmet := o.status == "failed" && |o.gapTrajectory| > 0
                         && |o.gapTrajectory[|o.gapTrajectory| - 1].unmetCriteria| > 0;
            && (unmet ==> OutcomeDetail(o) == "failed | unmet: " + Clip(o.gapTrajectory[|o.gapTrajectory| - 1].unmetCriteria[0], 38))
            && (!unmet ==> OutcomeDetail(o) == o.status)
  {
  }

  /** A manifest's detail counts its subtasks, singular only for one. */
  lemma ManifestDetailSpec(m: DispatchManifest)
    ensures |m.subTaskIds| == 1 <==> ManifestDetail(m) == "1 subtask"
    ensures |m.subTaskIds| != 1 ==> ManifestDetail(m) == NatToString(|m.subTaskIds|) + " subtasks"
  {
    if |m.subTaskIds| != 1 {
      var r := ManifestDetail(m);
      var k := NatToString(|m.subTaskIds|);
      assert r == k + " subtasks";
      assert |r| >= 10;
    }
  }

  /** Types with no detail, or payloads that do not match the type, show nothing. */
  lemma MsgDetailSpec(msg: Message)
    ensures (msg.msgType !in {MsgTaskSpec, MsgSubTask, MsgExecutionResult, MsgSubTaskOutcome,
                              MsgCorrectionSignal, MsgDispatchManifest, MsgReplanRequest}) ==> MsgDetail(msg) == ""
    ensures msg.msgType == MsgDispatchManifest && msg.payload.PManifest? ==> MsgDetail(msg) == ManifestDetail(msg.payload.manifest)
    ensures msg.msgType == MsgSubTaskOutcome && msg.payload.POutcome? ==> MsgDetail(msg) == OutcomeDetail(msg.payload.outcome)
    ensures msg.msgType == MsgSubTask && msg.payload.PSubTask? && msg.payload.subTask.intent != "" ==>
              MsgDetail(msg) == SubTaskDetail(msg.payload.subTask)
    ensures msg.msgType == MsgTaskSpec ==> |MsgDetail(msg)| <= 56
    ensures msg.msgType == MsgReplanRequest ==> |MsgDetail(msg)| <= 46
  {
    if msg.msgType == MsgTaskSpec && msg.payload.PTaskSpec? {
      ClipSpec(msg.payload.spec.intent, 55);
    }
    if msg.msgType == MsgReplanRequest && msg.payload.PReplan? {
      ClipSpec(msg.payload.replan.gapSummary, 45);
    }
  }
}
