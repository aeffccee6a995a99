/** The 4xx constructors of response/fail.go: result "fail", payload key "error". */
module FailResponses {
  import opened Util
  import opened Text
  import opened Http
  import opened Response

  const NotFoundMessage := "the requested resource could not be found"
  const ConflictMessage := "unable to update the record due to an edit conflict, please try again"

  const MethodNotAllowedTail := " method is not supported for this resource"

  /** The 405 message names the rejected verb between "the " and the fixed tail. */
  function MethodNotAllowedMessage(verb: string): (m: string)
    ensures |m| > 4 + |verb| && m[..4] == "the " && m[4..4 + |verb|] == verb
    ensures m[4 + |verb|..] == MethodNotAllowedTail
  {
    "the " + verb + MethodNotAllowedTail
  }

  /** `Fail(code, errors)`: a "fail" envelope carrying `errors` under "error"; unknown codes panic as in `new`. */
  function Fail(code: int, errors: Value, now: int): (r: Result<Envelope>)
    ensures r.Ok? <==> Known(code)
    ensures !Known(code) ==> r == Panic(UnknownCodeMessage(code))
    ensures r.Ok? ==>
      && r.value.code == code
      && r.value.payload.Keys == {TimeKey, StatusKey, ResultKey, "error"}
      && r.value.payload[ResultKey] == ResultValue(FailResult)
      && r.value.payload["error"] == errors
      && r.value.payload[StatusKey] == StringValue(Lower(StatusText(code)))
  {
    New(code, FailResult, "error", errors, now)
  }

  function BadRequest(errors: Value, now: int): (r: Result<Envelope>)
    ensures r.Ok? && r.value.code == 400 && r.value.payload.Keys == {TimeKey, StatusKey, ResultKey, "error"}
    ensures r.value.payload["error"] == errors
  {
    Fail(StatusBadRequest, errors, now)
  }

  function NotFound(now: int): (r: Result<Envelope>)
    ensures r.Ok? && r.value.code == 404 && r.value.payload.Keys == {TimeKey, StatusKey, ResultKey, "error"}
    ensures r.value.payload["error"] == StringValue(NotFoundMessage)
  {
    Fail(StatusNotFound, StringValue(NotFoundMessage), now)
  }

  /** The message names the rejected method: "the GET method is not supported for this resource". */
  function MethodNotAllowed(verb: string, now: int): (r: Result<Envelope>)
    ensures r.Ok? && r.value.code == 405 && r.value.payload.Keys == {TimeKey, StatusKey, ResultKey, "error"}
    ensures r.value.payload["error"] == StringValue(MethodNotAllowedMessage(verb))
  {
    Fail(StatusMethodNotAllowed, StringValue(MethodNotAllowedMessage(verb)), now)
  }

  function Conflict(now: int): (r: Result<Envelope>)
    ensures r.Ok? && r.value.code == 409 && r.value.payload.Keys == {TimeKey, StatusKey, ResultKey, "error"}
    ensures r.value.payload["error"] == StringValue(ConflictMessage)
  {
    Fail(StatusConflict, StringValue(ConflictMessage), now)
  }

  function UnprocessableEntity(errors: Value, now: int): (r: Result<Envelope>)
    ensures r.Ok? && r.value.code == 422 && r.value.payload.Keys == {TimeKey, StatusKey, ResultKey, "error"}
    ensures r.value.payload["error"] == errors
  {
    Fail(StatusUnprocessableEntity, errors, now)
  }

  /** A client sees the status line "400 Bad Request". */
  lemma BadRequestStatusLine(now: int)
    ensures StatusLine(BadRequest(DataValue(0), now).value.code) == "400 Bad Request"
  {
    StatusLine400();
  }

  /** A client sees the status line "404 Not Found". */
  lemma NotFoundStatusLine(now: int)
    ensures StatusLine(NotFound(now).value.code) == "404 Not Found"
  {
    StatusLine404();
  }

  /** A client sees the status line "405 Method Not Allowed". */
  lemma MethodNotAllowedStatusLine(now: int)
    ensures StatusLine(MethodNotAllowed("GET", now).value.code) == "405 Method Not Allowed"
  {
    StatusLine405();
  }

  /** A client sees the status line "409 Conflict". */
  lemma ConflictStatusLine(now: int)
    ensures StatusLine(Conflict(now).value.code) == "409 Conflict"
  {
    StatusLine409();
  }

  /** A client sees the status line "422 Unprocessable Entity". */
  lemma UnprocessableEntityStatusLine(now: int)
    ensures StatusLine(UnprocessableEntity(DataValue(0), now).value.code) == "422 Unprocessable Entity"
  {
    StatusLine422();
  }
}
