/**
 * The Express error middleware: an error that carries a numeric `status`
 * keeps it, a zod error becomes 400, anything else 500.
 */
module ErrorHandler {
  import opened Wrappers
  import opened Json
  import opened Http

  /** The `status` property of the error object, as `typeof` sees it. */
  datatype StatusField = NoStatus | NumericStatus(code: int) | OtherStatus

  /** The fields of `err` the middleware reads; `errors` is None when absent. */
  datatype HandledError = HandledError(name: string, message: string, status: StatusField, errors: Option<Json>)

  const ValidationMessage: string := "Validation Error"
  const InternalMessage: string := "Internal Server Error"

  /** `{message: "Validation Error", errors}`; an absent `errors` is dropped. */
  function ValidationBody(errors: Option<Json>): (r: Json)
    ensures Get(r, "message") == Some(JStr(ValidationMessage))
    ensures Get(r, "errors") == errors
  {
    var msg := Member("message", JStr(ValidationMessage));
    if errors.None? then JObj([msg])
    else
      var ms := [msg, Member("errors", errors.value)];
      assert ms[..1] == [msg];
      assert ms[1].key != "message";
      assert Lookup(ms[..1], "message") == Some(JStr(ValidationMessage));
      assert Lookup(ms, "message") == Lookup(ms[..1], "message");
      JObj(ms)
  }

  function HandleError(e: HandledError): (r: Response)
    ensures e.status.NumericStatus? ==> r == Response(e.status.code, MessageBody(e.message))
    ensures !e.status.NumericStatus? && e.name == "ZodError" ==>
              r.status == 400 && Get(r.body, "message") == Some(JStr(ValidationMessage))
              && Get(r.body, "errors") == e.errors
    ensures !e.status.NumericStatus? && e.name != "ZodError" ==> r == Response(500, MessageBody(InternalMessage))
  {
    if e.status.NumericStatus? then
      Response(e.status.code, MessageBody(e.message))
    else if e.name == "ZodError" then
      Response(400, ValidationBody(e.errors))
    else
      Response(500, MessageBody(InternalMessage))
  }

  /** Only an error with its own numeric status gets its message echoed; every
      other error is answered with one of two fixed messages. */
  lemma MessageExposure(e: HandledError)
    ensures Get(HandleError(e).body, "message") ==
      Some(JStr(if e.status.NumericStatus? then e.message
                else if e.name == "ZodError" then ValidationMessage
                else InternalMessage))
  {
  }

  /** A numeric status wins even over the zod name. */
  lemma StatusBeforeName(message: string, code: int, errors: Option<Json>)
    ensures HandleError(HandledError("ZodError", message, NumericStatus(code), errors)).status == code
  {
  }
}
