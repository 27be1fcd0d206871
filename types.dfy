/**
 * The shared message envelope and payload records that the roles of the
 * agent shell exchange over the bus. Roles and message types are strings,
 * as in the Go program, so that a message can carry a value outside the
 * known set.
 */
module Types {

  datatype Option<T> = None | Some(value: T)

  type Role = string
  type MessageType = string

  const RoleUser: Role := "User"
  const RolePerceiver: Role := "R1"
  const RolePlanner: Role := "R2"
  const RoleExecutor: Role := "R3"
  const RoleAgentVal: Role := "R4a"
  const RoleMetaVal: Role := "R4b"
  const RoleMemory: Role := "R5"
  const RoleAuditor: Role := "R6"
  const RoleGGS: Role := "R7"
  const RoleCC: Role := "cc"

  const MsgTaskSpec: MessageType := "TaskSpec"
  const MsgSubTask: MessageType := "SubTask"
  const MsgDispatchManifest: MessageType := "DispatchManifest"
  const MsgExecutionResult: MessageType := "ExecutionResult"
  const MsgCorrectionSignal: MessageType := "CorrectionSignal"
  const MsgSubTaskOutcome: MessageType := "SubTaskOutcome"
  const MsgReplanRequest: MessageType := "ReplanRequest"
  const MsgMemoryWrite: MessageType := "MemoryWrite"
  const MsgMemoryRead: MessageType := "MemoryRead"
  const MsgMemoryResponse: MessageType := "MemoryResponse"
  const MsgFinalResult: MessageType := "FinalResult"
  const MsgAuditQuery: MessageType := "AuditQuery"
  const MsgAuditReport: MessageType := "AuditReport"
  const MsgPlanDirective: MessageType := "PlanDirective"
  const MsgOutcomeSummary: MessageType := "OutcomeSummary"
  const MsgCCCall: MessageType := "CCCall"
  const MsgCCResponse: MessageType := "CCResponse"

  /**
   * A value of Go's `any` as the modelled code inspects it: absent (nil),
   * a JSON string, or any other JSON value given by its encoded text.
   */
  datatype Value = Null | Str(s: string) | Json(text: string)

  datatype TaskSpec = TaskSpec(
    taskId: string,
    intent: string,
    successCriteria: seq<string>,
    rawInput: string)

  datatype SubTask = SubTask(
    subTaskId: string,
    parentTaskId: string,
    intent: string,
    successCriteria: seq<string>,
    context: string,
    deadline: Option<string>,
    sequence: int)

  datatype DispatchManifest = DispatchManifest(
    taskId: string,
    subTaskIds: seq<string>,
    taskSpec: TaskSpec,
    plannerBrain: string,
    ccCalls: nat,
    taskCriteria: seq<string>)

  datatype ExecutionResult = ExecutionResult(
    subTaskId: string,
    status: string,
    output: Value,
    uncertainty: Option<string>,
    toolCalls: seq<string>)

  datatype CorrectionSignal = CorrectionSignal(
    subTaskId: string,
    attemptNumber: int,
    whatWasWrong: string,
    whatToDo: string,
    failedCriterion: string,
    failureClass: string)

  /** One criterion's verdict in the final attempt of a subtask. */
  datatype CriteriaVerdict = CriteriaVerdict(
    criterion: string,
    verdict: string,
    failureClass: string,
    evidence: string)

  /** One attempt in the fast (validator ↔ executor) loop. */
  datatype GapTrajectoryPoint = GapTrajectoryPoint(
    attempt: int,
    score: real,
    unmetCriteria: seq<string>,
    failureClass: string)

  datatype SubTaskOutcome = SubTaskOutcome(
    subTaskId: string,
    parentTaskId: string,
    intent: string,
    successCriteria: seq<string>,
    status: string,
    output: Value,
    failureReason: Option<string>,
    gapTrajectory: seq<GapTrajectoryPoint>,
    criteriaVerdicts: seq<CriteriaVerdict>,
    toolCalls: seq<string>)

  datatype ReplanRequest = ReplanRequest(
    taskId: string,
    gapSummary: string,
    failedSubTasks: seq<string>,
    correctionCount: int,
    elapsedMs: int,
    outcomes: seq<SubTaskOutcome>,
    recommendation: string)

  datatype LossBreakdown = LossBreakdown(d: real, p: real, omega: real, l: real)

  datatype PlanDirective = PlanDirective(
    taskId: string,
    loss: LossBreakdown,
    gradient: string,
    directive: string,
    blockedTools: seq<string>,
    failedCriterion: string,
    failureClass: string,
    budgetPressure: real,
    gradL: real,
    rationale: string)

  datatype OutcomeSummary = OutcomeSummary(
    taskId: string,
    summary: string,
    mergedOutput: Value,
    elapsedMs: int,
    outcomes: seq<SubTaskOutcome>)

  datatype FinalResult = FinalResult(
    taskId: string,
    summary: string,
    output: Value,
    loss: LossBreakdown,
    gradL: real,
    replans: int)

  datatype MemoryEntry = MemoryEntry(
    entryId: string,
    taskId: string,
    entryType: string,
    content: Value,
    criteriaMet: seq<string>,
    timestamp: string,
    tags: seq<string>)

  /** The payload of a bus message, one variant per record kind used here. */
  datatype Payload =
    | PTaskSpec(spec: TaskSpec)
    | PSubTask(subTask: SubTask)
    | PManifest(manifest: DispatchManifest)
    | PExecution(result: ExecutionResult)
    | PCorrection(correction: CorrectionSignal)
    | POutcome(outcome: SubTaskOutcome)
    | PReplan(replan: ReplanRequest)
    | PDirective(directive: PlanDirective)
    | POutcomeSummary(summary: OutcomeSummary)
    | PFinal(final: FinalResult)
    | PMemory(entry: MemoryEntry)
    | POther

  datatype Message = Message(
    id: string,
    from: Role,
    to: Role,
    msgType: MessageType,
    payload: Payload)
}
