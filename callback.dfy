/** The completion callback the middlewares hand to the analytics client:
    `(error, response, body)` is classified as a transport error, an
    application error reported in the body, or a success, and only the two
    errors are logged, at debug level. */
module Callback {
  import opened JsValues

  datatype Verdict = TransportError | ApplicationError | Success

  /** The body reports an application error: it is truthy and so is its
      `error` property. */
  predicate ReportsError(body: Value) {
    body.Truthy() && Prop(body, "error").Truthy()
  }

  /** Which branch the callback takes; a transport error wins over an error
      in the body. */
  function Classify(error: Value, body: Value): (v: Verdict)
    ensures v == TransportError <==> error.Truthy()
    ensures v == ApplicationError <==> !error.Truthy() && ReportsError(body)
    ensures v == Success <==> !error.Truthy() && !ReportsError(body)
  {
    if error.Truthy() then TransportError
    else if body.Truthy() && Prop(body, "error").Truthy() then ApplicationError
    else Success
  }

  /** A debug log line, by what it reports: the transport error's `message`,
      or the body's `code` and `error`. */
  datatype LogLine =
    | TransportErrorLine(message: Value)
    | ApplicationErrorLine(code: Value, error: Value)

  /** The lines the callback logs for one response: at most one. */
  function LinesFor(error: Value, body: Value): (r: seq<LogLine>)
    ensures |r| <= 1
    ensures r == [] <==> Classify(error, body) == Success
    ensures Classify(error, body) == TransportError ==> r == [TransportErrorLine(Prop(error, "message"))]
    ensures Classify(error, body) == ApplicationError ==>
              r == [ApplicationErrorLine(Prop(body, "code"), Prop(body, "error"))]
  {
    match Classify(error, body)
    case TransportError => [TransportErrorLine(Prop(error, "message"))]
    case ApplicationError => [ApplicationErrorLine(Prop(body, "code"), Prop(body, "error"))]
    case Success => []
  }

  /** A transport error is reported the same way whatever the body says:
      the body is not consulted once `error` is set. */
  lemma TransportErrorWins(error: Value, body1: Value, body2: Value)
    requires error.Truthy()
    ensures LinesFor(error, body1) == LinesFor(error, body2)
  {
  }

  /** The host framework's logger, by the debug lines written to it. */
  class Logger {
    var debugLines: seq<LogLine>

    constructor ()
      ensures debugLines == []
    {
      debugLines := [];
    }
  }

  /** `callback(logger)(error, response, body)`: errors are logged and
      swallowed, nothing else happens; `response` is not read. */
  method Report(logger: Logger, error: Value, response: Value, body: Value)
    modifies logger
    ensures logger.debugLines == old(logger.debugLines) + LinesFor(error, body)
    ensures |logger.debugLines| <= |old(logger.debugLines)| + 1
  {
    if error.Truthy() {
      logger.debugLines := logger.debugLines + [TransportErrorLine(Prop(error, "message"))];
    } else if body.Truthy() && Prop(body, "error").Truthy() {
      logger.debugLines := logger.debugLines + [ApplicationErrorLine(Prop(body, "code"), Prop(body, "error"))];
    }
  }
}
