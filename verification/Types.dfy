/** The values that travel between clients, the scheduler, a backend and an action queue. */
module Types {

  datatype Option<+T> = None | Some(value: T)

  datatype Result<+T, +E> = Ok(value: T) | Err(error: E)

  /** Opaque robot actions; nothing below inspects them. */
  type Action = int

  datatype Request = Request(
    requestId: string,
    sessionId: string,
    model: string,
    inputSignature: string,
    deadlineNs: int,
    receivedNs: int,
    sequenceNo: int,
    priority: int)

  datatype ActionChunk = ActionChunk(
    requestId: string,
    sessionId: string,
    model: string,
    sequenceNo: int,
    actions: seq<Action>,
    generatedNs: int)

  datatype Status =
    | Completed
    | DeadlineMissed
    | Expired
    | Unserviceable
    | Replaced
    | OutOfOrder
    | Overloaded
    | Failed
    | Cancelled

  datatype Outcome = Outcome(
    status: Status,
    action: Option<ActionChunk>,
    dispatchedNs: Option<int>,
    completedNs: int,
    replacedBy: Option<string>)

  function Min(a: int, b: int): int {
    if a <= b then a else b
  }

  function MaxReal(a: real, b: real): real {
    if a >= b then a else b
  }
}
