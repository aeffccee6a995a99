/** The 5xx constructors of response/error.go: result "error", the message under "error". */
module ErrorResponses {
  import opened Util
  import opened Text
  import opened Http
  import opened Response

  const InternalServerErrorMessage := "the server encontered a problem and could not process your request"

  /** `Error(code, msg)`: an "error" envelope with `msg` under "error"; unknown codes panic as in `new`. */
  function Error(code: int, msg: string, now: int): (r: Result<Envelope>)
    ensures r.Ok? <==> Known(code)
    ensures !Known(code) ==> r == Panic(UnknownCodeMessage(code))
    ensures r.Ok? ==>
      && r.value.code == code
      && r.value.payload.Keys == {TimeKey, StatusKey, ResultKey, "error"}
      && r.value.payload[ResultKey] == ResultValue(ErrorResult)
      && r.value.payload["error"] == StringValue(msg)
  {
    New(code, ErrorResult, "error", StringValue(msg), now)
  }

  function InternalServerError(now: int): (r: Result<Envelope>)
    ensures r.Ok? && r.value.code == 500 && r.value.payload.Keys == {TimeKey, StatusKey, ResultKey, "error"}
    ensures r.value.payload["error"] == StringValue(InternalServerErrorMessage)
  {
    Error(StatusInternalServerError, InternalServerErrorMessage, now)
  }

  /** The envelope the writer falls back to is exactly the one `InternalServerError` builds. */
  lemma FallbackIsInternalServerError(now: int)
    ensures FallbackEnvelope(now) == InternalServerError(now).value
  {
  }

  /** A client sees the status line "500 Internal Server Error". */
  lemma InternalServerErrorStatusLine(now: int)
    ensures StatusLine(InternalServerError(now).value.code) == "500 Internal Server Error"
  {
    StatusLine500();
  }
}
