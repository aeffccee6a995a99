/**
 * The parts of Go's net/http that the core writes through: the reason-phrase table,
 * header maps, the response writer, and the JSON serializer signature.
 */
module Http {
  import opened Util
  import opened Text

  /**
   * `http.StatusText`: the reason phrase of every status code net/http knows (the codes of
   * section 15 of RFC 9110 together with the WebDAV and other registered extensions), and
   * the empty string for any other integer.
   */
  function StatusText(code: int): (r: string)
    ensures r != "" ==> 100 <= code <= 599
  {
    match code
    case 100 => "Continue"
    case 101 => "Switching Protocols"
    case 102 => "Processing"
    case 103 => "Early Hints"
    case 200 => "OK"
    case 201 => "Created"
    case 202 => "Accepted"
    case 203 => "Non-Authoritative Information"
    case 204 => "No Content"
    case 205 => "Reset Content"
    case 206 => "Partial Content"
    case 207 => "Multi-Status"
    case 208 => "Already Reported"
    case 226 => "IM Used"
    case 300 => "Multiple Choices"
    case 301 => "Moved Permanently"
    case 302 => "Found"
    case 303 => "See Other"
    case 304 => "Not Modified"
    case 305 => "Use Proxy"
    case 307 => "Temporary Redirect"
    case 308 => "Permanent Redirect"
    case 400 => "Bad Request"
    case 401 => "Unauthorized"
    case 402 => "Payment Required"
    case 403 => "Forbidden"
    case 404 => "Not Found"
    case 405 => "Method Not Allowed"
    case 406 => "Not Acceptable"
    case 407 => "Proxy Authentication Required"
    case 408 => "Request Timeout"
    case 409 => "Conflict"
    case 410 => "Gone"
    case 411 => "Length Required"
    case 412 => "Precondition Failed"
    case 413 => "Request Entity Too Large"
    case 414 => "Request URI Too Long"
    case 415 => "Unsupported Media Type"
    case 416 => "Requested Range Not Satisfiable"
    case 417 => "Expectation Failed"
    case 418 => "I'm a teapot"
    case 421 => "Misdirected Request"
    case 422 => "Unprocessable Entity"
    case 423 => "Locked"
    case 424 => "Failed Dependency"
    case 425 => "Too Early"
    case 426 => "Upgrade Required"
    case 428 => "Precondition Required"
    case 429 => "Too Many Requests"
    case 431 => "Request Header Fields Too Large"
    case 451 => "Unavailable For Legal Reasons"
    case 500 => "Internal Server Error"
    case 501 => "Not Implemented"
    case 502 => "Bad Gateway"
    case 503 => "Service Unavailable"
    case 504 => "Gateway Timeout"
    case 505 => "HTTP Version Not Supported"
    case 506 => "Variant Also Negotiates"
    case 507 => "Insufficient Storage"
    case 508 => "Loop Detected"
    case 510 => "Not Extended"
    case 511 => "Network Authentication Required"
    case _ => ""
  }

  /** A code net/http has a reason phrase for. */
  predicate Known(code: int) {
    StatusText(code) != ""
  }

  const StatusOK := 200
  const StatusCreated := 201
  const StatusBadRequest := 400
  const StatusNotFound := 404
  const StatusMethodNotAllowed := 405
  const StatusConflict := 409
  const StatusUnprocessableEntity := 422
  const StatusInternalServerError := 500

  /** The status line a client sees, "404 Not Found" (`%03d %s` on three-digit codes). */
  function StatusLine(code: int): string {
    IntToDecimal(code) + " " + StatusText(code)
  }

  // The status lines of the codes the response constructors use.

  lemma StatusLine200()
    ensures StatusLine(200) == "200 OK"
  {
    ThreeDigits(200);
    assert IntToDecimal(200) == "200";
    assert StatusText(200) == "OK";
  }

  lemma StatusLine201()
    ensures StatusLine(201) == "201 Created"
  {
    ThreeDigits(201);
    assert IntToDecimal(201) == "201";
    assert StatusText(201) == "Created";
  }

  lemma StatusLine400()
    ensures StatusLine(400) == "400 Bad Request"
  {
    ThreeDigits(400);
    assert IntToDecimal(400) == "400";
    assert StatusText(400) == "Bad Request";
  }

  lemma StatusLine404()
    ensures StatusLine(404) == "404 Not Found"
  {
    ThreeDigits(404);
    assert IntToDecimal(404) == "404";
    assert StatusText(404) == "Not Found";
  }

  lemma StatusLine405()
    ensures StatusLine(405) == "405 Method Not Allowed"
  {
    ThreeDigits(405);
    assert IntToDecimal(405) == "405";
    assert StatusText(405) == "Method Not Allowed";
  }

  lemma StatusLine409()
    ensures StatusLine(409) == "409 Conflict"
  {
    ThreeDigits(409);
    assert IntToDecimal(409) == "409";
    assert StatusText(409) == "Conflict";
  }

  lemma StatusLine422()
    ensures StatusLine(422) == "422 Unprocessable Entity"
  {
    ThreeDigits(422);
    assert IntToDecimal(422) == "422";
    assert StatusText(422) == "Unprocessable Entity";
  }

  lemma StatusLine500()
    ensures StatusLine(500) == "500 Internal Server Error"
  {
    ThreeDigits(500);
    assert IntToDecimal(500) == "500";
    assert StatusText(500) == "Internal Server Error";
  }

  /** `http.Header`: each name maps to its list of values; names are opaque strings here. */
  type Header = map<string, seq<string>>

  const ContentType := "Content-Type"
  const ApplicationJson := "application/json"

  /**
   * What a response writer has seen so far: the live header map handlers write into,
   * the status once it has been sent, the header map as it was when the status went out
   * (later header changes are not transmitted), and the body bytes.
   */
  datatype Wire = Wire(header: Header, status: Option<int>, sent: Header, body: seq<byte>)

  function FreshWire(): Wire {
    Wire(map[], None, map[], [])
  }

  /** `w.Header()[name] = values`; `w.Header().Set(name, v)` is the case `values == [v]`. */
  function WithHeader(s: Wire, name: string, values: seq<string>): Wire {
    s.(header := s.header[name := values])
  }

  /** Every entry of `h` stored into the writer's header map, overriding entries of the same name. */
  function WithHeaders(s: Wire, h: Header): Wire {
    s.(header := s.header + h)
  }

  /**
   * `w.WriteHeader(code)` for a code it accepts: the first call sends the status and the current
   * headers; later calls are ignored.
   */
  function WithStatus(s: Wire, code: int): Wire {
    if s.status.Some? then s else s.(status := Some(code), sent := s.header)
  }

  /** `w.Write(b)`: sends status 200 first when no status was sent yet, then appends `b` to the body. */
  function WithBody(s: Wire, b: seq<byte>): Wire {
    var t := WithStatus(s, StatusOK);
    t.(body := t.body + b)
  }

  /**
   * The effects of sending a JSON body, in the order the core performs them: copy the custom
   * headers, force `Content-Type: application/json`, write the status, write the body.
   */
  function SendJson(s: Wire, custom: Header, code: int, js: seq<byte>): (r: Wire)
    ensures r.header == (s.header + custom)[ContentType := [ApplicationJson]]
    ensures r.body == s.body + js
    ensures s.status.None? ==> r.status == Some(code) && r.sent == r.header
    ensures s.status.Some? ==> r.status == s.status && r.sent == s.sent
  {
    WithBody(WithStatus(WithHeader(WithHeaders(s, custom), ContentType, [ApplicationJson]), code), js)
  }

  /**
   * On a writer that has not sent a status yet, `SendJson` transmits exactly the custom headers
   * plus the JSON content type (which overrides a custom one), the given status and the body.
   */
  lemma SendJsonOnFreshStatus(s: Wire, custom: Header, code: int, js: seq<byte>)
    requires s.status.None?
    ensures var t := SendJson(s, custom, code, js);
      && t.status == Some(code)
      && t.sent.Keys == s.header.Keys + custom.Keys + {ContentType}
      && t.sent[ContentType] == [ApplicationJson]
      && (forall k :: k in custom && k != ContentType ==> t.sent[k] == custom[k])
      && (forall k :: k in s.header && k !in custom && k != ContentType ==> t.sent[k] == s.header[k])
      && t.body == s.body + js
      && t.header == t.sent
  {
  }

  /** Once a status has been sent, a later status and later headers never reach the client. */
  lemma StatusIsFinal(s: Wire, code: int, name: string, values: seq<string>)
    requires s.status.Some?
    ensures WithStatus(WithHeader(s, name, values), code).status == s.status
    ensures WithStatus(WithHeader(s, name, values), code).sent == s.sent
  {
  }

  /**
   * `WriteHeader` panics on a code outside 100..999, but only while no status has been sent: a
   * later call is ignored before the code is looked at.
   */
  predicate RefusesStatus(s: Wire, code: int) {
    s.status.None? && !(100 <= code <= 999)
  }

  function InvalidCodeMessage(code: int): string {
    "invalid WriteHeader code " + IntToDecimal(code)
  }

  /** A code with a reason phrase is never refused. */
  lemma KnownCodesAccepted(s: Wire, code: int)
    requires Known(code)
    ensures !RefusesStatus(s, code)
  {
  }

  /** The value a JSON serializer produces: the encoded bytes, or the error it reports. */
  datatype Encoded = Encoded(bytes: seq<byte>) | EncodeError(message: string)

  /** The signature of `json.MarshalIndent`: value, line prefix, indent. */
  type Serializer<-T> = (T, string, string) -> Encoded

  /** The indent every serialization in the core asks for: two spaces per level. */
  const Indent := "  "

  /** `http.ResponseWriter` as a test recorder sees it. */
  class Writer {
    var header: Header
    var status: Option<int>
    var sent: Header
    var body: seq<byte>

    function State(): Wire
      reads this
    {
      Wire(header, status, sent, body)
    }

    constructor ()
      ensures State() == FreshWire()
    {
      header, status, sent, body := map[], None, map[], [];
    }

    /** `w.Header().Set(name, value)`. */
    method SetHeader(name: string, value: string)
      modifies this
      ensures State() == WithHeader(old(State()), name, [value])
    {
      header := header[name := [value]];
    }

    /** `for key, value := range h { w.Header()[key] = value }`. */
    method CopyHeaders(h: Header)
      modifies this
      ensures State() == WithHeaders(old(State()), h)
    {
      var pending := h.Keys;
      ghost var done: set<string> := {};
      while pending != {}
        invariant pending + done == h.Keys && pending !! done
        invariant header == old(header) + map k | k in done :: h[k]
        invariant status == old(status) && sent == old(sent) && body == old(body)
        decreases pending
      {
        var k :| k in pending;
        header := header[k := h[k]];
        pending, done := pending - {k}, done + {k};
      }
      assert (map k | k in done :: h[k]) == h;
    }

    /** `w.WriteHeader(code)`: a refused code panics and changes nothing. */
    method WriteHeader(code: int) returns (panic: Option<string>)
      modifies this
      ensures panic.Some? <==> RefusesStatus(old(State()), code)
      ensures panic.Some? ==> panic == Some(InvalidCodeMessage(code)) && State() == old(State())
      ensures panic.None? ==> State() == WithStatus(old(State()), code)
    {
      if status.Some? {
        return None;
      }
      if !(100 <= code <= 999) {
        return Some(InvalidCodeMessage(code));
      }
      status, sent := Some(code), header;
      return None;
    }

    /** `w.Write(b)`. */
    method Write(b: seq<byte>)
      modifies this
      ensures State() == WithBody(old(State()), b)
    {
      var _ := WriteHeader(StatusOK);
      body := body + b;
    }
  }
}
