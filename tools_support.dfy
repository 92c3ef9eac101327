/**
 * What every MCP tool handler does around its client calls: look the client
 * up in the context, and prefix a failed call's error with the operation
 * name (`fmt.Errorf("<op>: %w", err)`).
 */
module ToolSupport {
  import opened Wrappers
  import opened Client
  import opened LogchefContext

  const MissingClient: string := "Logchef client not found in context"

  /** Runs `f` with the context's client; without one, fails before sending anything. */
  function WithClient<T>(ctx: Context, f: Client -> Traced<T>): (r: Traced<T>)
    ensures LogchefClientFromContext(ctx).None? ==> r.result == Failure(MissingClient) && r.sent == []
  {
    match LogchefClientFromContext(ctx)
    case None => Traced(Failure(MissingClient), [])
    case Some(c) => f(c)
  }

  /** `fmt.Errorf("<op>: %w", err)` on failure; success passes through; the requests are unchanged. */
  function Wrap<T>(op: string, t: Traced<T>): (r: Traced<T>)
    ensures r.sent == t.sent
    ensures r.result.Success? <==> t.result.Success?
    ensures t.result.Success? ==> r.result == t.result
    ensures t.result.Failure? ==> r.result.error == op + ": " + t.result.error
  {
    if t.result.Failure? then Traced(Failure(op + ": " + t.result.error), t.sent) else t
  }

  /** What a tool hands back: the client's reply, or a fixed acknowledgement `{Success, Message}`. */
  datatype Reply = Payload(text: string) | Ack(success: bool, message: string)

  /** A tool returning the client's reply, errors prefixed with the operation name. */
  function Answer(op: string, t: Traced<string>): (r: Traced<Reply>)
    ensures r.sent == t.sent
    ensures r.result.Success? <==> t.result.Success?
    ensures t.result.Success? ==> r.result.value == Payload(t.result.value)
    ensures t.result.Failure? ==> r.result.error == op + ": " + t.result.error
  {
    match t.result
    case Success(text) => Traced(Success(Payload(text)), t.sent)
    case Failure(e) => Traced(Failure(op + ": " + e), t.sent)
  }

  /** A tool whose client call returns only an error: the fixed message only after that call succeeded. */
  function Acknowledge(op: string, t: Traced<()>, message: string): (r: Traced<Reply>)
    ensures r.sent == t.sent
    ensures r.result.Success? <==> t.result.Success?
    ensures t.result.Success? ==> r.result.value == Ack(true, message)
    ensures t.result.Failure? ==> r.result.error == op + ": " + t.result.error
  {
    match t.result
    case Success(_) => Traced(Success(Ack(true, message)), t.sent)
    case Failure(e) => Traced(Failure(op + ": " + e), t.sent)
  }
}
