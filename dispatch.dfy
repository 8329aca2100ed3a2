/** What happens once an operation has built (or failed to build) its request:
    the `try` around the HTTP call, whose `catch` handles only transport
    failures, and the `array` return type that the decoded reply must meet. */
module Dispatch {
  import opened Php
  import opened Requests

  /** The Guzzle client the constructor configures: base URI and the headers
      sent with every request. */
  datatype Transport = Transport(baseUri: string, headers: seq<(string, string)>)

  /** How one HTTP exchange ends: a reply whose body `json_decode` turned into
      `decoded` (`Null` for a body that is not JSON), or a `GuzzleException`
      with its message. */
  datatype Exchange = Answered(decoded: Value) | TransportError(message: string)

  /** What an operation throws. */
  datatype Thrown =
    | InvalidArgumentException(message: string)
    | Exception(message: string)
    | TypeError

  // The phrase each operation puts before the transport's message.
  const SendSmsFailure := "Failed to send SMS: "
  const SendBulkSmsFailure := "Failed to send bulk SMS: "
  const BalanceFailure := "Failed to get balance: "
  const RechargeFailure := "Failed to recharge customer: "
  const DeductFailure := "Failed to deduct from customer: "
  const ReportsFailure := "Failed to get delivery reports: "
  const ReportFailure := "Failed to get delivery report: "
  const ReportsByDateRangeFailure := "Failed to get delivery reports by date range: "
  const SmsLogsFailure := "Failed to get SMS logs: "
  const RegisterSubCustomerFailure := "Failed to register sub-customer: "
  const ScheduleSmsFailure := "Failed to schedule SMS: "
  const SendMultipleFailure := "Failed to send multiple messages: "

  /** The exception a failed check raises; no `catch` clause matches it. */
  function Rejected(e: Error): Result<Value, Thrown> {
    Failure(InvalidArgumentException(e.message))
  }

  /** The outcome of an operation: a failed check surfaces as it was thrown and
      nothing is sent; a transport failure is logged and rethrown as an
      `Exception` carrying `prefix` and the transport's message; a reply that
      does not decode to an array breaks the `array` return type. `send` stands
      for the network. */
  function Complete(prefix: string, built: Result<Request, Error>, transport: Transport, send: (Transport, Request) -> Exchange): (r: Result<Value, Thrown>)
    ensures built.Failure? ==> r == Rejected(built.error)
    ensures r.Success? ==> built.Success? && send(transport, built.value) == Answered(r.value) && (r.value.List? || r.value.Dict?)
    ensures r.Failure? && r.error.Exception? ==>
      && built.Success? && send(transport, built.value).TransportError?
      && r.error.message == prefix + send(transport, built.value).message
    ensures r == Failure(TypeError) ==> built.Success? && send(transport, built.value).Answered?
    ensures built.Success? && send(transport, built.value).TransportError?
      ==> r == Failure(Exception(prefix + send(transport, built.value).message))
    ensures built.Success? && send(transport, built.value).Answered?
      && (send(transport, built.value).decoded.List? || send(transport, built.value).decoded.Dict?)
      ==> r == Success(send(transport, built.value).decoded)
    ensures built.Success? && send(transport, built.value).Answered?
      && !(send(transport, built.value).decoded.List? || send(transport, built.value).decoded.Dict?)
      ==> r == Failure(TypeError)
  {
    match built
    case Failure(e) => Rejected(e)
    case Success(request) =>
      match send(transport, request)
      case TransportError(message) => Failure(Exception(prefix + message))
      case Answered(decoded) =>
        if decoded.List? || decoded.Dict? then Success(decoded) else Failure(TypeError)
  }

  /** A failed check never reaches the network: the outcome is the same
      whatever the transport would have done, and it carries no prefix. */
  lemma RejectedBeforeSending(prefix: string, e: Error, transport: Transport, send1: (Transport, Request) -> Exchange, send2: (Transport, Request) -> Exchange)
    ensures Complete(prefix, Failure(e), transport, send1) == Complete(prefix, Failure(e), transport, send2)
    ensures Complete(prefix, Failure(e), transport, send1) == Failure(InvalidArgumentException(e.message))
  {
  }

  /** Every `Exception` an operation throws starts with its own phrase and
      ends with the transport's message; it arises exactly when the request
      was built and the exchange failed. */
  lemma TransportFailuresPrefixed(prefix: string, built: Result<Request, Error>, transport: Transport, send: (Transport, Request) -> Exchange)
    ensures var r := Complete(prefix, built, transport, send);
      (r.Failure? && r.error.Exception?) <==> (built.Success? && send(transport, built.value).TransportError?)
    ensures var r := Complete(prefix, built, transport, send);
      r.Failure? && r.error.Exception? ==>
        r.error.message == prefix + send(transport, built.value).message
  {
  }

  /** A reply that is not JSON decodes to null, which is not an array: the
      operation ends in a `TypeError`, not in a prefixed `Exception`. */
  lemma NonJsonReplyIsTypeError(prefix: string, request: Request, transport: Transport, send: (Transport, Request) -> Exchange)
    requires send(transport, request) == Answered(Null)
    ensures Complete(prefix, Success(request), transport, send) == Failure(TypeError)
  {
  }
}
