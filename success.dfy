/** The 2xx constructors of response/success.go: result "success" and a caller-chosen key. */
module SuccessResponses {
  import opened Util
  import opened Text
  import opened Http
  import opened Response

  /** `Success(code, key, data)`: panics on an unknown code or an empty key, as `new` does. */
  function Success(code: int, key: string, data: Value, now: int): (r: Result<Envelope>)
    ensures r.Ok? <==> Known(code) && key != ""
    ensures !Known(code) ==> r == Panic(UnknownCodeMessage(code))
    ensures Known(code) && key == "" ==> r == Panic(EmptyKeyMessage)
    ensures r.Ok? ==>
      && r.value.code == code
      && r.value.payload.Keys == {TimeKey, StatusKey, ResultKey, key}
      && r.value.payload[key] == data
      && (key != ResultKey ==> r.value.payload[ResultKey] == ResultValue(SuccessResult))
  {
    New(code, SuccessResult, key, data, now)
  }

  function OK(key: string, data: Value, now: int): (r: Result<Envelope>)
    ensures r.Ok? <==> key != ""
    ensures r.Ok? ==> r.value.code == 200 && key in r.value.payload && StatusKey in r.value.payload && r.value.payload[key] == data
    ensures r.Ok? && key != StatusKey ==> r.value.payload[StatusKey] == StringValue("ok")
  {
    assert Lower("OK") == "ok";
    Success(StatusOK, key, data, now)
  }

  lemma LowerCreated()
    ensures Lower("Created") == "created"
  {
    assert "Created"[1..] == "reated";
    assert Lower("reated") == "reated";
  }

  function Created(key: string, data: Value, now: int): (r: Result<Envelope>)
    ensures r.Ok? <==> key != ""
    ensures r.Ok? ==> r.value.code == 201 && key in r.value.payload && StatusKey in r.value.payload && r.value.payload[key] == data
    ensures r.Ok? && key != StatusKey ==> r.value.payload[StatusKey] == StringValue("created")
  {
    LowerCreated();
    Success(StatusCreated, key, data, now)
  }

  /** A client sees the status line "200 OK". */
  lemma OKStatusLine(now: int)
    ensures StatusLine(OK("key", StringValue("data"), now).value.code) == "200 OK"
  {
    StatusLine200();
  }

  /** A client sees the status line "201 Created". */
  lemma CreatedStatusLine(now: int)
    ensures StatusLine(Created("key", StringValue("data"), now).value.code) == "201 Created"
  {
    StatusLine201();
  }
}
