/** What one `fetch` call and the following `res.json()` can produce, and the
    error (if any) that the body of the submit handler's `try` block throws for
    each of them (src/App.jsx, lines 16-22). The transport itself is not
    modelled: its observable result is the input `FetchOutcome`. */
module Fetch {
  import opened Wrappers

  /** What `res.json()` produced from the response body. */
  datatype Body =
      /** The body is not JSON: `res.json()` rejects with an error carrying this message. */
    | Unparsable(parseError: string)
      /** The body is the JSON literal `null`: reading `data.detail` then throws
          a TypeError, whose engine-chosen message is `accessError`. */
    | Null(accessError: string)
      /** Any other JSON value; `detail` is its string-valued `detail` member, if any. */
    | Parsed(detail: Option<string>)

  /** How the request settled. */
  datatype FetchOutcome =
      /** `fetch` itself rejected (DNS, connection, CORS ...) with this message. */
    | TransportError(message: string)
      /** A response arrived with this HTTP status and body. */
    | Received(status: int, body: Body)

  /** `res.ok`: section 2.2.3 of the WHATWG Fetch Standard calls a status ok
      when it is in the range 200 to 299. */
  predicate StatusOk(status: int) {
    200 <= status <= 299
  }

  /** The fallback message of the non-ok branch. */
  const SubmissionFailed: string := "Submission failed"

  /** JavaScript truthiness of a value that is either `undefined` or a string:
      a string is truthy exactly when it is non-empty. */
  predicate Truthy(v: Option<string>) {
    v.Some? && |v.value| > 0
  }

  /** The operand-selection of `data.detail || 'Submission failed'`. */
  function DetailOr(detail: Option<string>, fallback: string): string {
    if Truthy(detail) then detail.value else fallback
  }

  /** The submission reached the server and was accepted: the only outcome on
      which the `try` block runs to its end. */
  predicate Delivered(o: FetchOutcome) {
    o.Received? && StatusOk(o.status) && !o.body.Unparsable?
  }

  /** The message of the error thrown inside the `try` block, or `None` when
      the block completes. The body is parsed before the status is looked at,
      so an unparsable body fails with the parser's message whatever the
      status, and an ok status with a `null` body still succeeds because
      `data.detail` is only read on the non-ok path. */
  function Thrown(o: FetchOutcome): (err: Option<string>)
    ensures err.None? <==> Delivered(o)
    ensures o.TransportError? ==> err == Some(o.message)
    ensures o.Received? && o.body.Unparsable? ==> err == Some(o.body.parseError)
    ensures o.Received? && !StatusOk(o.status) && o.body.Null? ==> err == Some(o.body.accessError)
    ensures (o.Received? && !StatusOk(o.status) && o.body.Parsed? && Truthy(o.body.detail))
              ==> err == o.body.detail
    ensures (o.Received? && !StatusOk(o.status) && o.body.Parsed? && !Truthy(o.body.detail))
              ==> err == Some(SubmissionFailed)
  {
    match o
    case TransportError(m) => Some(m)
    case Received(status, body) =>
      match body
      case Unparsable(m) => Some(m)
      case Null(m) => if StatusOk(status) then None else Some(m)
      case Parsed(detail) =>
        if StatusOk(status) then None else Some(DetailOr(detail, SubmissionFailed))
  }

  /** A non-ok response is never reported with an empty message unless the
      transport or the parser supplied one: the `||` fallback is non-empty. */
  lemma ServerRejectionHasMessage(status: int, detail: Option<string>)
    requires !StatusOk(status)
    ensures Thrown(Received(status, Parsed(detail))).Some?
    ensures |Thrown(Received(status, Parsed(detail))).value| > 0
  {
  }
}
