/**
  Go's `error` values as they flow through the notification service.

  A library (amqp091, net/smtp, encoding/json) hands back an opaque error,
  modelled as `Cause`. The service wraps such errors with `fmt.Errorf` and the
  `%w` verb; each wrapping site is a constructor of its own, so that a caller
  can see which step failed and which error it wrapped. `Message` is the text
  `err.Error()` produces.
 */
module Errors {
  import opened Text

  /**
    Go's nil-able value: `None` stands for nil. The three members let a
    reader stop at the first piece it cannot read (`var x :- Take(..)`):
    a missing piece is handed on as `None`, a present one yields its value.
   */
  datatype Option<+T> = None | Some(value: T) {
    predicate IsFailure() { !Some? }
    function PropagateFailure<U>(): Option<U> requires IsFailure() { None }
    function Extract(): T requires !IsFailure() { value }
  }

  datatype Error =
    | Cause(text: string)                       // an error a library returned
    | ConnectFailed(cause: Error)               // consumer.go:20
    | ChannelFailed(cause: Error)               // consumer.go:26
    | DeclareFailed(queue: string, cause: Error) // consumer.go:46
    | ConsumeFailed(cause: Error)               // consumer.go:63
    | StartFailed(queue: string, cause: Error)  // consumer_manager.go:46
    | SendFailed(cause: Error)                  // email_sender.go:46

  /** A Go `(T, error)` pair where exactly one side is meaningful. */
  datatype Result<+T> = Ok(value: T) | Err(error: Error)

  /** A bare Go `error` return: nil (`Pass`) or an error (`Fail`). */
  datatype Outcome = Pass | Fail(error: Error)

  /** The text of `err.Error()`. */
  function Message(e: Error): string
  {
    match e
    case Cause(text) => text
    case ConnectFailed(c) => "failed to connect to RabbitMQ: [" + Message(c) + "]"
    case ChannelFailed(c) => "failed to open a channel: [" + Message(c) + "]"
    case DeclareFailed(q, c) => "failed to declare queue [" + q + "]: [" + Message(c) + "]"
    case ConsumeFailed(c) => "failed to register a consumer: [" + Message(c) + "]"
    case StartFailed(q, c) => "error starting consumer for queue [" + q + "]: [" + Message(c) + "]"
    case SendFailed(c) => "failed to send email: [" + Message(c) + "]"
  }

  /** The queue an error names in its text, if it names one. */
  function QueueOf(e: Error): Option<string>
  {
    match e
    case DeclareFailed(q, _) => Some(q)
    case StartFailed(q, _) => Some(q)
    case _ => None
  }

  /** Wrapping keeps the wrapped error's text: it appears inside the new text. */
  lemma MessageKeepsCause(e: Error)
    requires !e.Cause?
    ensures Contains(Message(e), Message(e.cause))
  {
    match e
    case ConnectFailed(c) =>
      ContainsMiddle("failed to connect to RabbitMQ: [", Message(c), "]");
    case ChannelFailed(c) =>
      ContainsMiddle("failed to open a channel: [", Message(c), "]");
    case DeclareFailed(q, c) =>
      ContainsMiddle("failed to declare queue [" + q + "]: [", Message(c), "]");
    case ConsumeFailed(c) =>
      ContainsMiddle("failed to register a consumer: [", Message(c), "]");
    case StartFailed(q, c) =>
      ContainsMiddle("error starting consumer for queue [" + q + "]: [", Message(c), "]");
    case SendFailed(c) =>
      ContainsMiddle("failed to send email: [", Message(c), "]");
  }

  /** An error about a queue names that queue in its text. */
  lemma MessageNamesQueue(e: Error)
    requires QueueOf(e).Some?
    ensures Contains(Message(e), QueueOf(e).value)
  {
    match e
    case DeclareFailed(q, c) =>
      assert Message(e) == "failed to declare queue [" + q + ("]: [" + Message(c) + "]");
      ContainsMiddle("failed to declare queue [", q, "]: [" + Message(c) + "]");
    case StartFailed(q, c) =>
      assert Message(e) == "error starting consumer for queue [" + q + ("]: [" + Message(c) + "]");
      ContainsMiddle("error starting consumer for queue [", q, "]: [" + Message(c) + "]");
  }
}
