/**
 * `Read` of request/request.go: decode a JSON request body capped at 1 MiB, translate every
 * decoder failure into a client-facing message (or a panic), and insist that the body holds
 * a single JSON value (section 2 of RFC 8259: a JSON text is one value).
 */
module Request {
  import opened Util
  import opened Text

  /** The body limit handed to the byte-limiting reader. */
  const MaxBodyBytes := 1_048_576

  /**
   * What `json.Decoder.Decode` can fail with, as the classification sees it: a syntax error at
   * an offset, `io.ErrUnexpectedEOF`, a type mismatch on a field (possibly unnamed) at an offset,
   * `io.EOF`, the unknown-field error (its raw message), the limiting reader's error with its
   * limit, the invalid-destination error, and any other error.
   */
  datatype DecodeError =
    | SyntaxError(message: string, offset: int)
    | UnexpectedEOF
    | UnmarshalTypeError(field: string, offset: int)
    | EOF
    | UnknownField(raw: string)
    | MaxBytesError(limit: int)
    | InvalidUnmarshalError(message: string)
    | OtherError(message: string)

  /**
   * `err.Error()`: the decoder's messages as they are; the fixed texts stand in for the errors
   * whose wording only matters in that it does not start with the unknown-field prefix.
   */
  function ErrorText(e: DecodeError): (r: string)
    ensures e.UnknownField? ==> r == e.raw
    ensures e.SyntaxError? || e.InvalidUnmarshalError? || e.OtherError? ==> r == e.message
    ensures e.MaxBytesError? || e.UnexpectedEOF? || e.EOF? ==> !HasPrefix(r, UnknownFieldPrefix)
  {
    match e
    case SyntaxError(m, _) => m
    case UnexpectedEOF => "unexpected EOF"
    case UnmarshalTypeError(_, _) => "json: cannot unmarshal"
    case EOF => "EOF"
    case UnknownField(raw) => raw
    case MaxBytesError(_) =>
      assert "http: request body too large"[0] != UnknownFieldPrefix[0];
      "http: request body too large"
    case InvalidUnmarshalError(m) => m
    case OtherError(m) => m
  }

  const UnknownFieldPrefix := "json: unknown field "
  const BadlyFormedMessage := "contains badly-formed JSON"
  const EmptyBodyMessage := "body must not be empty"
  const SingleValueMessage := "must only contain a single JSON value"

  function OffsetMessage(what: string, offset: int): string {
    what + " (at character " + IntToDecimal(offset) + ")"
  }

  /** What `Read` returns: success, one of its own messages, the decoder's error as is, or a panic. */
  datatype ReadOutcome = Accepted | Rejected(message: string) | Returned(err: DecodeError) | Panicked(err: DecodeError)

  /**
   * The first-match chain of `Read`: syntax error, unexpected end, type mismatch, end of input,
   * unknown-field prefix, byte limit, invalid destination, anything else.
   */
  function Classify(e: DecodeError): (r: ReadOutcome)
    ensures !r.Accepted?
    ensures r.Panicked? <==> e.InvalidUnmarshalError? && !HasPrefix(e.message, UnknownFieldPrefix)
    ensures r.Returned? <==> (e.OtherError? || e.UnknownField?) && !HasPrefix(ErrorText(e), UnknownFieldPrefix)
    ensures r.Panicked? || r.Returned? ==> r.err == e
    ensures e.SyntaxError? ==> r == Rejected(OffsetMessage(BadlyFormedMessage, e.offset))
    ensures e.UnexpectedEOF? ==> r == Rejected(BadlyFormedMessage)
    ensures e.EOF? ==> r == Rejected(EmptyBodyMessage)
    ensures e.MaxBytesError? ==> r == Rejected("must not be larger than " + IntToDecimal(e.limit) + " bytes")
    ensures e.UnmarshalTypeError? && e.field == "" ==>
      r == Rejected(OffsetMessage("contains incorrect JSON type", e.offset))
    ensures e.UnmarshalTypeError? && e.field != "" ==>
      r == Rejected("contains incorrect JSON type for field: " + RemoveAll(e.field, '"'))
    ensures (!(e.SyntaxError? || e.UnexpectedEOF? || e.UnmarshalTypeError? || e.EOF?)
             && HasPrefix(ErrorText(e), UnknownFieldPrefix)) ==>
      r == Rejected("contains unknown key: " + RemoveAll(TrimPrefix(ErrorText(e), UnknownFieldPrefix), '"'))
  {
    assert e.MaxBytesError? ==> ErrorText(e)[0] != UnknownFieldPrefix[0];
    if e.SyntaxError? then Rejected(OffsetMessage(BadlyFormedMessage, e.offset))
    else if e.UnexpectedEOF? then Rejected(BadlyFormedMessage)
    else if e.UnmarshalTypeError? then
      if e.field != "" then Rejected("contains incorrect JSON type for field: " + RemoveAll(e.field, '"'))
      else Rejected(OffsetMessage("contains incorrect JSON type", e.offset))
    else if e.EOF? then Rejected(EmptyBodyMessage)
    else if HasPrefix(ErrorText(e), UnknownFieldPrefix) then
      Rejected("contains unknown key: " + RemoveAll(TrimPrefix(ErrorText(e), UnknownFieldPrefix), '"'))
    else if e.MaxBytesError? then Rejected("must not be larger than " + IntToDecimal(e.limit) + " bytes")
    else if e.InvalidUnmarshalError? then Panicked(e)
    else Returned(e)
  }

  /** The decoder's unknown-field error `json: unknown field "name"` names the key without quotes. */
  lemma UnknownKeyMessage(name: string)
    requires '"' !in name
    ensures Classify(UnknownField(UnknownFieldPrefix + "\"" + name + "\"")) == Rejected("contains unknown key: " + name)
  {
    var quoted := "\"" + name + "\"";
    var raw := UnknownFieldPrefix + quoted;
    assert UnknownFieldPrefix + "\"" + name + "\"" == raw;
    assert raw[..|UnknownFieldPrefix|] == UnknownFieldPrefix;
    assert raw[|UnknownFieldPrefix|..] == quoted;
    assert ErrorText(UnknownField(raw)) == raw;
    assert TrimPrefix(raw, UnknownFieldPrefix) == quoted;
    RemoveAllAppend("\"" + name, "\"", '"');
    RemoveAllAppend("\"", name, '"');
    assert RemoveAll("\"", '"') == [];
    assert RemoveAll(quoted, '"') == name;
  }

  /** A body over the limit is reported with the 1 MiB limit spelled out. */
  lemma BodyLimitMessage()
    ensures Classify(MaxBytesError(MaxBodyBytes)) == Rejected("must not be larger than 1048576 bytes")
  {
    assert IntToDecimal(1048576) == "1048576" by {
      assert NatToDecimal(1) == "1";
      assert NatToDecimal(10) == "10";
      assert NatToDecimal(104) == "104";
      assert NatToDecimal(1048) == "1048";
      assert NatToDecimal(10485) == "10485";
      assert NatToDecimal(104857) == "104857";
      assert NatToDecimal(1048576) == "1048576";
    }
  }

  /**
   * One call of `Decode`: the error it reports (if any), the input it leaves unread, and how many
   * bytes it pulled through the byte-limiting reader (a decoder may read ahead of the value).
   */
  datatype Step = Step(err: Option<DecodeError>, rest: seq<byte>, read: nat)

  /** `http.MaxBytesReader`'s state: the limit it was created with and the bytes it still lets through. */
  datatype Budget = Budget(limit: int, left: int)

  /** A decoder over a body behind the byte-limiting reader, from its unread input and the reader's budget. */
  type Decoding = (seq<byte>, Budget) -> Step

  /** A limiting reader's error always carries the limit that reader was created with. */
  ghost predicate ReportsItsLimit(decode: Decoding) {
    forall input, b :: decode(input, b).err.Some? && decode(input, b).err.value.MaxBytesError? ==>
      decode(input, b).err.value.limit == b.limit
  }

  /** `json.Decoder` over `http.MaxBytesReader`: a cursor over the unread input and one byte budget shared by every call. */
  class Decoder {
    const decode: Decoding
    const limit: int
    var remaining: seq<byte>
    var left: int

    constructor (input: seq<byte>, limit: int, decode: Decoding)
      ensures this.decode == decode && this.limit == limit && remaining == input && left == limit
    {
      this.decode, this.limit, remaining, left := decode, limit, input, limit;
    }

    /** `dec.Decode(dst)`: report this value's error, move past what it consumed and spend what it read. */
    method Decode() returns (err: Option<DecodeError>)
      modifies this
      ensures var step := decode(old(remaining), Budget(limit, old(left)));
        err == step.err && remaining == step.rest && left == old(left) - step.read
    {
      var step := decode(remaining, Budget(limit, left));
      err, remaining, left := step.err, step.rest, left - step.read;
    }
  }

  /** The first decode of `Read`: the whole body with the full 1 MiB budget. */
  function FirstDecode(body: seq<byte>, decode: Decoding): Step {
    decode(body, Budget(MaxBodyBytes, MaxBodyBytes))
  }

  /** The second decode of `Read`: the first one's rest with what the first one left of the budget. */
  function SecondDecode(body: seq<byte>, decode: Decoding): Step {
    var first := FirstDecode(body, decode);
    decode(first.rest, Budget(MaxBodyBytes, MaxBodyBytes - first.read))
  }

  /**
   * `Read`: decode the body once; a failure is classified; after a success a second decode,
   * on the same byte budget, must report end of input, or the body held more than one JSON value.
   */
  method Read(body: seq<byte>, decode: Decoding) returns (r: ReadOutcome)
    ensures FirstDecode(body, decode).err.Some? ==> r == Classify(FirstDecode(body, decode).err.value)
    ensures FirstDecode(body, decode).err.None? && SecondDecode(body, decode).err != Some(EOF) ==>
      r == Rejected(SingleValueMessage)
    ensures r.Accepted? <==> FirstDecode(body, decode).err.None? && SecondDecode(body, decode).err == Some(EOF)
    ensures ReportsItsLimit(decode) && FirstDecode(body, decode).err.Some?
            && FirstDecode(body, decode).err.value.MaxBytesError? ==>
      r == Rejected("must not be larger than 1048576 bytes")
  {
    var dec := new Decoder(body, MaxBodyBytes, decode);
    var err := dec.Decode();
    if err.Some? {
      BodyLimitMessage();
      return Classify(err.value);
    }
    err := dec.Decode();
    if err != Some(EOF) {
      return Rejected(SingleValueMessage);
    }
    return Accepted;
  }
}
