/** The message and status types that travel between the maestro, the UI and the daemon. */
module Protocol {
  import opened Wrappers

  datatype ExecutionPlan = ExecutionPlan(taskId: string, description: string, commands: seq<string>)

  datatype TaskSubmitAck = TaskSubmitAck(taskId: string)

  datatype ExecutionOutcome = ExecutionOutcome(stdout: string, stderr: string, exitCode: int, success: bool)

  datatype TaskStatus =
    | Pending
    | DelegableAutoApproved
    | HeldForManualApproval
    | Executed
    | RejectedByOwner
    | ExecutionFailed

  datatype TaskQueryResult = TaskQueryResult(taskId: string, status: TaskStatus, result: Option<ExecutionOutcome>)

  datatype PolicyDecision = Delegable | NonDelegable
}
