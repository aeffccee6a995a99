/**
 * The second draft of `serialize` and `write` in response/methods.go: it works on a
 * `Response` record (body, header, code) and panics on nil parameters before doing anything.
 */
module ResponseDraft {
  import opened Util
  import opened Http

  /** The draft's `Response` record; a nil body is `None`. */
  datatype Record<B> = Record(body: Option<B>, header: Header, code: int)

  const NilSerializerMessage := "serializer param cannot be nil"
  // response/methods_test.go:42 expects "response param cannot be nil" for a nil body;
  // response/methods.go:14 panics with the message below, which is the one modelled.
  const NilBodyMessage := "body param cannot be nil"
  const NilWriterMessage := "response writer param cannot be nil"
  const NilResponseMessage := "response param cannot be nil"

  datatype Serialized = Serialized(bytes: seq<byte>) | SerializeFailed(message: string) | SerializePanic(panic: string)

  /**
   * `serialize(f, body)`: a nil serializer panics first, then a nil body; otherwise the
   * serializer's output with one line feed appended, or its error and no bytes.
   */
  function Serialize<B>(f: Option<Serializer<B>>, body: Option<B>): (r: Serialized)
    ensures f.None? ==> r == SerializePanic(NilSerializerMessage)
    ensures f.Some? && body.None? ==> r == SerializePanic(NilBodyMessage)
    ensures r.SerializePanic? <==> f.None? || body.None?
    ensures f.Some? && body.Some? ==>
      var out := f.value(body.value, "", Indent);
      && (r.SerializeFailed? <==> out.EncodeError?)
      && (r.SerializeFailed? ==> r.message == out.message)
      && (r.Serialized? ==>
            |r.bytes| > 0 && r.bytes[|r.bytes| - 1] == Newline && r.bytes[..|r.bytes| - 1] == out.bytes)
  {
    if f.None? then SerializePanic(NilSerializerMessage)
    else if body.None? then SerializePanic(NilBodyMessage)
    else
      match f.value(body.value, "", Indent)
      case EncodeError(m) => SerializeFailed(m)
      case Encoded(js) => Serialized(js + [Newline])
  }

  datatype Written = Written | WriteFailed(message: string) | WritePanic(panic: string)

  /**
   * The order of the draft `write`'s checks: the writer (`None` when nil, else what it has seen
   * so far), the record, `serialize`'s own; then the record's code, which the writer refuses
   * when it lies outside 100..999 and no status was sent yet.
   */
  function WriteOutcome<B>(w: Option<Wire>, f: Option<Serializer<B>>, r: Option<Record<B>>): (o: Written)
    ensures w.None? ==> o == WritePanic(NilWriterMessage)
    ensures w.Some? && r.None? ==> o == WritePanic(NilResponseMessage)
    ensures w.Some? && r.Some? && f.None? ==> o == WritePanic(NilSerializerMessage)
    ensures w.Some? && r.Some? && f.Some? && r.value.body.None? ==> o == WritePanic(NilBodyMessage)
    ensures w.Some? && r.Some? && Serialize(f, r.value.body).SerializePanic? ==>
      o == WritePanic(Serialize(f, r.value.body).panic)
    ensures w.Some? && r.Some? && Serialize(f, r.value.body).SerializeFailed? ==>
      o == WriteFailed(Serialize(f, r.value.body).message)
    ensures o.Written? <==>
      w.Some? && r.Some? && Serialize(f, r.value.body).Serialized? && !RefusesStatus(w.value, r.value.code)
    ensures w.Some? && r.Some? && Serialize(f, r.value.body).Serialized? && RefusesStatus(w.value, r.value.code) ==>
      o == WritePanic(InvalidCodeMessage(r.value.code))
  {
    if w.None? then WritePanic(NilWriterMessage)
    else if r.None? then WritePanic(NilResponseMessage)
    else
      match Serialize(f, r.value.body)
      case SerializePanic(p) => WritePanic(p)
      case SerializeFailed(m) => WriteFailed(m)
      case Serialized(_) =>
        if RefusesStatus(w.value, r.value.code) then WritePanic(InvalidCodeMessage(r.value.code)) else Written
  }

  /**
   * `write(w, f, r)`: a panic before serialization or a serialization failure leaves the writer
   * untouched; a refused code panics with the custom headers and the content type already stored;
   * otherwise the writer holds the record's headers, the JSON content type, status `r.code` and
   * the body.
   */
  method Write<B>(w: Writer?, f: Option<Serializer<B>>, r: Option<Record<B>>) returns (o: Written)
    modifies w
    ensures o == WriteOutcome(if w == null then None else Some(old(w.State())), f, r)
    ensures w != null && (r.None? || !Serialize(f, r.value.body).Serialized?) ==> w.State() == old(w.State())
    ensures w != null && r.Some? && Serialize(f, r.value.body).Serialized? && o.WritePanic? ==>
      w.State() == WithHeader(WithHeaders(old(w.State()), r.value.header), ContentType, [ApplicationJson])
    ensures o.Written? ==>
      w.State() == SendJson(old(w.State()), r.value.header, r.value.code, Serialize(f, r.value.body).bytes)
  {
    if w == null {
      return WritePanic(NilWriterMessage);
    }
    if r.None? {
      return WritePanic(NilResponseMessage);
    }
    var js := Serialize(f, r.value.body);
    match js
    case SerializePanic(p) =>
      return WritePanic(p);
    case SerializeFailed(m) =>
      return WriteFailed(m);
    case Serialized(bytes) =>
      w.CopyHeaders(r.value.header);
      w.SetHeader(ContentType, ApplicationJson);
      var panic := w.WriteHeader(r.value.code);
      if panic.Some? {
        return WritePanic(panic.value);
      }
      w.Write(bytes);
      return Written;
  }

  /**
   * The draft does not check the record's code: on a fresh writer a serializable record with
   * code 0 panics in `WriteHeader`, while a record with a known code is written.
   */
  lemma UncheckedCode<B>(f: Serializer<B>, body: B, header: Header)
    requires f(body, "", Indent).Encoded?
    ensures WriteOutcome(Some(FreshWire()), Some(f), Some(Record(Some(body), header, 0)))
      == WritePanic(InvalidCodeMessage(0))
    ensures WriteOutcome(Some(FreshWire()), Some(f), Some(Record(Some(body), header, StatusOK))).Written?
  {
  }
}
