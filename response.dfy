/**
 * The response envelope of response/response.go: every handler answers with a JSON object
 * holding `time`, `status`, `result` and one caller-chosen key, sent through a writer in a
 * fixed order of effects, with a 500 fallback when serialization fails.
 */
module Response {
  import opened Util
  import opened Text
  import opened Http

  /** The package's `result` constants, serialized as "success", "fail" and "error". */
  datatype ResultKind = SuccessResult | FailResult | ErrorResult

  /**
   * A payload value: the `time` integer, the `status` string, the `result` constant, or
   * caller data (a message string, or any other value, known here only by a tag).
   */
  datatype Value = IntValue(i: int) | StringValue(s: string) | ResultValue(kind: ResultKind) | DataValue(tag: nat)

  type Payload = map<string, Value>

  /** What `new` builds: the status code and the payload (the headers start empty). */
  datatype Envelope = Envelope(code: int, payload: Payload)

  const TimeKey := "time"
  const StatusKey := "status"
  const ResultKey := "result"

  function UnknownCodeMessage(code: int): string {
    "response code " + IntToDecimal(code) + " is unknown"
  }

  const EmptyKeyMessage := "response key cannot be empty"

  /**
   * `new(code, result, key, data)` at Unix time `now`. It panics on a code without a reason
   * phrase, then on an empty key. The payload literal is filled in order, so a key equal to
   * `time`, `status` or `result` replaces that entry.
   */
  function New(code: int, result: ResultKind, key: string, data: Value, now: int): (r: Result<Envelope>)
    ensures !Known(code) ==> r == Panic(UnknownCodeMessage(code))
    ensures Known(code) && key == "" ==> r == Panic(EmptyKeyMessage)
    ensures r.Ok? <==> Known(code) && key != ""
    ensures r.Ok? ==>
      && r.value.code == code
      && r.value.payload.Keys == {TimeKey, StatusKey, ResultKey, key}
      && r.value.payload[key] == data
      && (key != TimeKey ==> r.value.payload[TimeKey] == IntValue(now))
      && (key != StatusKey ==> r.value.payload[StatusKey] == StringValue(Lower(StatusText(code))))
      && (key != ResultKey ==> r.value.payload[ResultKey] == ResultValue(result))
  {
    if StatusText(code) == "" then Panic(UnknownCodeMessage(code))
    else if key == "" then Panic(EmptyKeyMessage)
    else
      Ok(Envelope(code, map[TimeKey := IntValue(now),
                            StatusKey := StringValue(Lower(StatusText(code))),
                            ResultKey := ResultValue(result),
                            key := data]))
  }

  /** Codes outside 100..599 never build an envelope (0, -1 and 900 among them). */
  lemma NewRejectsOutOfRangeCodes(code: int, result: ResultKind, key: string, data: Value, now: int)
    requires code < 100 || code > 599
    ensures New(code, result, key, data, now).Panic?
  {
  }

  /** A 200 envelope reports the status "ok" next to the caller's data. */
  lemma NewOk(result: ResultKind, data: Value, now: int)
    ensures var r := New(StatusOK, result, "message", data, now);
      && r.Ok? && r.value.code == 200
      && r.value.payload[StatusKey] == StringValue("ok")
      && r.value.payload[ResultKey] == ResultValue(result)
      && r.value.payload["message"] == data
  {
    assert Lower("OK") == "ok";
  }

  /**
   * `serialize`: the serializer's output with one line feed appended, or the serializer's
   * error and no bytes.
   */
  function Serialize(p: Payload, f: Serializer<Payload>): (r: Encoded)
    ensures r.EncodeError? <==> f(p, "", Indent).EncodeError?
    ensures r.EncodeError? ==> r == f(p, "", Indent)
    ensures r.Encoded? ==>
      && |r.bytes| > 0
      && r.bytes[|r.bytes| - 1] == Newline
      && r.bytes[..|r.bytes| - 1] == f(p, "", Indent).bytes
  {
    match f(p, "", Indent)
    case EncodeError(m) => EncodeError(m)
    case Encoded(js) => Encoded(js + [Newline])
  }

  /** What `write` leaves in the writer, and the error it returns. */
  function WriteEffect(s: Wire, headers: Header, code: int, p: Payload, f: Serializer<Payload>): (r: (Wire, Option<string>))
    ensures r.1.Some? <==> Serialize(p, f).EncodeError?
    ensures r.1.Some? ==> r == (s, Some(f(p, "", Indent).message))
    ensures r.1.None? ==> r.0 == SendJson(s, headers, code, f(p, "", Indent).bytes + [Newline])
  {
    match Serialize(p, f)
    case EncodeError(m) => (s, Some(m))
    case Encoded(js) => (SendJson(s, headers, code, js), None)
  }

  /** A failed serialization leaves the writer exactly as it was and reports the serializer's error. */
  lemma WriteFailureTouchesNothing(s: Wire, headers: Header, code: int, p: Payload, f: Serializer<Payload>)
    requires f(p, "", Indent).EncodeError?
    ensures WriteEffect(s, headers, code, p, f) == (s, Some(f(p, "", Indent).message))
  {
  }

  const FallbackMessage := "the server encontered a problem and could not process your request"

  /** The envelope `writeError` builds: code 500, result "error", the fixed message under "error". */
  function FallbackEnvelope(now: int): (e: Envelope)
    ensures e.code == StatusInternalServerError
    ensures e.payload.Keys == {TimeKey, StatusKey, ResultKey, "error"}
    ensures e.payload["error"] == StringValue(FallbackMessage)
    ensures e.payload[ResultKey] == ResultValue(ErrorResult)
  {
    New(StatusInternalServerError, ErrorResult, "error", StringValue(FallbackMessage), now).value
  }

  /** `writeError`: send the fallback envelope; if that cannot be serialized either, send a bare 500. */
  function FallbackWire(s: Wire, f: Serializer<Payload>, now: int): (r: Wire)
    ensures s.status.None? ==> r.status == Some(StatusInternalServerError)
    ensures s.status.Some? ==> r.status == s.status && r.sent == s.sent
    ensures Serialize(FallbackEnvelope(now).payload, f).Encoded? ==>
      r.body == s.body + Serialize(FallbackEnvelope(now).payload, f).bytes
      && r.header == s.header[ContentType := [ApplicationJson]]
    ensures Serialize(FallbackEnvelope(now).payload, f).EncodeError? ==> r.body == s.body && r.header == s.header
  {
    var (t, err) := WriteEffect(s, map[], StatusInternalServerError, FallbackEnvelope(now).payload, f);
    if err.Some? then WithStatus(t, StatusInternalServerError) else t
  }

  /** `Write`: the writer state after the envelope or its fallback was sent, and the code returned. */
  function Delivery(s: Wire, headers: Header, code: int, p: Payload, f: Serializer<Payload>, now: int): (r: (Wire, int))
    ensures Serialize(p, f).Encoded? ==> r == (SendJson(s, headers, code, Serialize(p, f).bytes), code)
    ensures Serialize(p, f).EncodeError? ==> r == (FallbackWire(s, f, now), StatusInternalServerError)
  {
    var (t, err) := WriteEffect(s, headers, code, p, f);
    if err.None? then (t, code) else (FallbackWire(t, f, now), StatusInternalServerError)
  }

  /**
   * On a writer that has sent nothing yet, the status that reaches the client is the code
   * `Write` returns, and the three outcomes of the fallback chain are: the envelope itself;
   * the 500 error envelope; a bare 500 with no body and no added header.
   */
  lemma DeliveryOutcomes(s: Wire, headers: Header, code: int, p: Payload, f: Serializer<Payload>, now: int)
    requires s.status.None?
    ensures var (t, c) := Delivery(s, headers, code, p, f, now);
      var fallback := FallbackEnvelope(now).payload;
      && t.status == Some(c)
      && (Serialize(p, f).Encoded? ==>
            c == code && t.body == s.body + Serialize(p, f).bytes
            && t.sent[ContentType] == [ApplicationJson]
            && forall k :: k in headers && k != ContentType ==> t.sent[k] == headers[k])
      && (Serialize(p, f).EncodeError? && Serialize(fallback, f).Encoded? ==>
            c == 500 && t.body == s.body + Serialize(fallback, f).bytes
            && t.sent == s.header[ContentType := [ApplicationJson]])
      && (Serialize(p, f).EncodeError? && Serialize(fallback, f).EncodeError? ==>
            c == 500 && t.body == s.body && t.sent == s.header && t.header == s.header)
  {
    match Serialize(p, f)
    case Encoded(js) =>
      SendJsonOnFreshStatus(s, headers, code, js);
    case EncodeError(_) =>
      match Serialize(FallbackEnvelope(now).payload, f)
      case Encoded(js) =>
        SendJsonOnFreshStatus(s, map[], StatusInternalServerError, js);
        assert s.header + map[] == s.header;
      case EncodeError(_) =>
  }

  /**
   * The package's `response`: headers accumulated before sending, the code, the payload. Only
   * `new` builds one, so its code always has a reason phrase.
   */
  class Response {
    var headers: Header
    var code: int
    const payload: Payload

    predicate Valid()
      reads this
    {
      Known(code)
    }

    constructor (e: Envelope)
      requires Known(e.code)
      ensures headers == map[] && code == e.code && payload == e.payload
      ensures Valid()
    {
      headers, code, payload := map[], e.code, e.payload;
    }

    /** `Header(key, value)`: the last value set for a name wins; other names are untouched. */
    method Header(key: string, value: string)
      modifies this
      ensures headers == old(headers)[key := [value]]
      ensures code == old(code)
      ensures old(Valid()) ==> Valid()
    {
      headers := headers[key := [value]];
    }

    /** `writeError`: the code becomes 500, then the fallback envelope (or a bare 500) is sent. */
    method WriteError(w: Writer, f: Serializer<Payload>, now: int)
      modifies this, w
      ensures code == StatusInternalServerError && headers == old(headers) && Valid()
      ensures w.State() == FallbackWire(old(w.State()), f, now)
    {
      code := StatusInternalServerError;
      var errorResponse := new Response(FallbackEnvelope(now));
      var err := WriteJson(errorResponse, w, f);
      if err.Some? {
        KnownCodesAccepted(w.State(), StatusInternalServerError);
        var _ := w.WriteHeader(StatusInternalServerError);
      }
    }

    /** `Write`: send the envelope, fall back to `writeError` on failure, return the final code. */
    method Write(w: Writer, f: Serializer<Payload>, now: int) returns (c: int)
      requires Valid()
      modifies this, w
      ensures (w.State(), c) == Delivery(old(w.State()), old(headers), old(code), payload, f, now)
      ensures code == c && headers == old(headers)
    {
      var err := WriteJson(this, w, f);
      if err.Some? {
        WriteError(w, f, now);
      }
      c := code;
    }
  }

  /**
   * `write(r, w, f)`: serialize first; on failure return the error and touch nothing; otherwise
   * copy the custom headers, force the JSON content type, write the status, then the body.
   */
  method WriteJson(r: Response, w: Writer, f: Serializer<Payload>) returns (err: Option<string>)
    requires r.Valid()
    modifies w
    ensures (w.State(), err) == WriteEffect(old(w.State()), r.headers, r.code, r.payload, f)
  {
    var enc := Serialize(r.payload, f);
    if enc.EncodeError? {
      return Some(enc.message);
    }
    w.CopyHeaders(r.headers);
    w.SetHeader(ContentType, ApplicationJson);
    KnownCodesAccepted(w.State(), r.code);
    var _ := w.WriteHeader(r.code);
    w.Write(enc.bytes);
    return None;
  }
}
