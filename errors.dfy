/** The registry's error values and the way an error returned by the request handler
    becomes an HTTP response. Go's `error` interface is modelled by the two kinds of
    value the response writer tells apart: a structured registry `Error`, which keeps its
    own status and code, and any other error, of which only its text is observable. */
module Errors {
  import opened Wrappers

  const STATUS_METHOD_NOT_ALLOWED := 405
  const STATUS_INTERNAL_SERVER_ERROR := 500

  /** A registry API error: machine code, human message and the HTTP status that
      travels on the response line rather than in the body. */
  datatype Error = Error(code: string, message: string, status: int)

  /** An error value as the response writer sees it. */
  datatype Failure = Structured(err: Error) | Opaque(text: string)

  /** The fixed refusal for every method that would change the registry. */
  const ERR_READ_ONLY := Error("DENIED", "read-only", STATUS_METHOD_NOT_ALLOWED)

  /** The text of an error: `Error()` of a structured error is its message. */
  function Message(f: Failure): string {
    match f
    case Structured(e) => e.message
    case Opaque(t) => t
  }

  /** Wraps any error as an internal server error that keeps the wrapped text. */
  function NewError(f: Failure): (e: Error)
    ensures e.status == STATUS_INTERNAL_SERVER_ERROR && e.code == "INTERNAL_ERROR"
    ensures Message(Structured(e)) == Message(f)
  {
    Error("INTERNAL_ERROR", Message(f), STATUS_INTERNAL_SERVER_ERROR)
  }

  /** One entry of the JSON error envelope: the status field is not serialised. */
  datatype Entry = Entry(code: string, message: string)

  /** A response body: the JSON envelope `{"errors": [...]}` or plain text. */
  datatype Body = Envelope(errors: seq<Entry>) | Plain(text: string)

  /** What the response writer puts on the wire: a status and a body. */
  datatype Written = Written(status: int, body: Body)

  /** The error text a client reads back from a written response. */
  function ReportedMessage(w: Written): string {
    match w.body
    case Envelope(entries) => if |entries| == 0 then "" else entries[0].message
    case Plain(t) => t
  }

  /** The structured error a client can reconstruct from a response that carries
      exactly one envelope entry, taking the status from the response line. */
  function ReportedError(w: Written): Option<Error> {
    match w.body
    case Envelope(entries) =>
      if |entries| == 1 then Some(Error(entries[0].code, entries[0].message, w.status)) else None
    case Plain(_) => None
  }

  /** Writes the response for the error a handler returned; nothing for no error.
      Whatever is written reports the error's own text. */
  function ServeError(err: Option<Failure>): (w: Option<Written>)
    ensures w.None? <==> err.None?
    ensures w.Some? ==> ReportedMessage(w.value) == Message(err.value)
  {
    match err
    case None => None
    case Some(Structured(e)) => Some(Written(e.status, Envelope([Entry(e.code, e.message)])))
    case Some(Opaque(t)) => Some(Written(STATUS_INTERNAL_SERVER_ERROR, Plain(t)))
  }

  /** A structured error is written with its own status and one envelope entry, from
      which the client recovers exactly that error. */
  lemma StructuredRoundTrip(e: Error)
    ensures ServeError(Some(Structured(e))).Some?
    ensures var w := ServeError(Some(Structured(e))).value;
      w.status == e.status && w.body.Envelope? && |w.body.errors| == 1 && ReportedError(w) == Some(e)
  {
  }

  /** Any other error is written as a 500 with its text as a plain body. */
  lemma OpaqueIsInternal(t: string)
    ensures ServeError(Some(Opaque(t))) == Some(Written(STATUS_INTERNAL_SERVER_ERROR, Plain(t)))
    ensures ReportedError(ServeError(Some(Opaque(t))).value) == None
  {
  }

  /** The read-only refusal is a 405 whose envelope says DENIED / read-only. */
  lemma ReadOnlyResponse()
    ensures ServeError(Some(Structured(ERR_READ_ONLY)))
         == Some(Written(405, Envelope([Entry("DENIED", "read-only")])))
  {
  }

  /** Wrapping an error with `NewError` before serving it changes only the framing:
      the status (500) and the reported text are those of serving it unwrapped. */
  lemma WrappedServesLikeOpaque(f: Failure)
    ensures var wrapped := ServeError(Some(Structured(NewError(f))));
      var bare := ServeError(Some(Opaque(Message(f))));
      wrapped.Some? && bare.Some? &&
      wrapped.value.status == bare.value.status == STATUS_INTERNAL_SERVER_ERROR &&
      ReportedMessage(wrapped.value) == ReportedMessage(bare.value) == Message(f) &&
      ReportedError(wrapped.value) == Some(NewError(f))
  {
  }
}
