# modular: a Dafny model of the HTTP toolkit core

`modular` is a small Go toolkit for JSON web services. This project models its core:

- the **response envelope**: `time`, `status`, `result` and one caller key;
- the envelope constructors for success, fail (4xx) and error (5xx);
- the way a response is **sent through a writer**, with its 500 fallback when serialization fails;
- the draft `serialize`/`write` pair that works on a `Response` record;
- the **request body reader**, which classifies decoder errors into client messages, enforces the 1 MiB limit and rejects trailing values;
- **path and query parameters** with typed integer accessors;
- the **route table**;
- the **server**: default configuration, address, setters, the decision that ends `Run`, and the panic-recovery wrapper.

A Go panic is modelled as a returned value, and the state is left unchanged. Examples are `Result.Panic(message)`, `ReadOutcome.Panicked`, `Written.WritePanic`, and the `Option<string>` the setters return.

The response writer (`http.ResponseWriter`) is a class, `Http.Writer`. It has:

- a live header map;
- the status once it has been sent;
- a snapshot of the headers taken when the status went out;
- the body.

Its methods are proved against pure functions over the value `Http.Wire`. The first `WriteHeader` wins, and `Write` sends 200 first when no status was written. The pure functions are `WithHeader`, `WithHeaders`, `WithStatus`, `WithBody` and `SendJson`.

Status texts follow Go's `http.StatusText` table, which the code calls. That table gives 422 as "Unprocessable Entity".

Modules, one per source file, with shared helpers:

- `Util`: Option, Result, bytes.
- `Text`: lower-casing, `strings.ReplaceAll` of one character, prefixes, decimal formatting, `strconv.ParseInt`.
- `Http`: the status table, headers and the writer.
- `Response`: response/response.go.
- `FailResponses`, `SuccessResponses` and `ErrorResponses`: response/fail.go, response/success.go and response/error.go.
- `ResponseDraft`: response/methods.go.
- `Request`: request/request.go.
- `Params`: request/params.go.
- `Router`: router/router.go.
- `Server`: server/server.go.

## Model

| member | source | states |
|---|---|---|
| Text.RemoveAll | request/request.go:39 | quote removal drops every occurrence of the character, keeps every other character present, never lengthens, and is the identity when the character is absent |
| Text.RemoveAllAppend | request/request.go:47 | removing a character distributes over concatenation |
| Text.Lower | response/response.go:45 | lower-casing keeps the length and maps every character through the ASCII lower-case map |
| Text.HasPrefix | request/request.go:46 | a text that has the prefix is the prefix followed by the rest |
| Text.PrefixOfConcat | request/request.go:46 | every text that continues the prefix has it, the converse of `HasPrefix`'s contract |
| Text.TrimPrefix | request/request.go:47 | the trimmed text is the remainder after the prefix, or the text itself when the prefix is absent |
| Text.NatToDecimal | response/response.go:33 | `%d` of a natural number is non-empty, all digits, and has no leading zero |
| Text.IntToDecimal | request/request.go:32 | `%d` of an integer starts with a minus sign exactly when it is negative, followed by digits whose value is its magnitude |
| Text.DecimalRoundTrip | response/response.go:33 | reading back the decimal form of a natural number gives the number |
| Text.ParseInt | request/params.go:16 | base-10 parsing with an optional sign succeeds only on non-empty text, and only with a value inside the signed range of the bit size |
| Text.ParseFormattedInt | request/params.go:16 | every value in range, formatted in decimal, parses back to itself |
| Text.ParsedShape | request/params.go:16 | accepted text is an optional sign followed by at least one digit, and the value is the digits' value, negated exactly when the sign is a minus |
| Text.ParseIntAccepts | request/params.go:16 | the converse of `ParsedShape`: an optional sign and one or more digits whose signed value fits are accepted with that value |
| Text.ParseIntExamples | request/params.go:16 | "+5", "007" and "-0" are accepted; empty text, a bare sign and "5a" are not |
| Http.StatusText | response/response.go:32-34 | a code with a reason phrase lies in 100..599 |
| Http.KnownCodesAccepted | response/response.go:134 | a code with a reason phrase is never refused by `WriteHeader`, so the envelope writer never panics there |
| Http.SendJson | response/response.go:128-136 | the header map is the old one overridden by the custom headers and then the JSON content type; the body is appended; the status and sent headers are set only if no status was sent before |
| Http.StatusLine200 | response/success.go:11-13 | code 200 is written "200 OK" |
| Http.StatusLine201 | response/success.go:15-17 | code 201 is written "201 Created" |
| Http.StatusLine400 | response/fail.go:13-15 | code 400 is written "400 Bad Request" |
| Http.StatusLine404 | response/fail.go:17-20 | code 404 is written "404 Not Found" |
| Http.StatusLine405 | response/fail.go:22-25 | code 405 is written "405 Method Not Allowed" |
| Http.StatusLine409 | response/fail.go:27-30 | code 409 is written "409 Conflict" |
| Http.StatusLine422 | response/fail.go:32-34 | code 422 is written "422 Unprocessable Entity" |
| Http.StatusLine500 | response/error.go:9-12 | code 500 is written "500 Internal Server Error" |
| Http.SendJsonOnFreshStatus | response/response.go:128-136 | on a writer with no status sent, the client receives the custom headers plus `Content-Type: application/json` (which overrides a custom one), the requested status and the body |
| Http.StatusIsFinal | server/server.go:72-73 | once a status was sent, a later header change and a later `WriteHeader` change nothing the client receives |
| Http.Writer.SetHeader | response/response.go:132 | `Header().Set` replaces the values of one name, nothing else |
| Http.Writer.CopyHeaders | response/response.go:128-130 | the copy loop leaves the header map equal to the old map overridden by every custom entry |
| Http.Writer.WriteHeader | response/methods.go:52 | with no status sent, a code outside 100..999 panics with "invalid WriteHeader code N" and changes nothing; otherwise the first status written is kept together with the headers of that moment, and later calls are ignored |
| Http.Writer.Write | response/response.go:136 | writing the body sends 200 first if no status was sent, then appends the bytes |
| Response.New | response/response.go:31-50 | an unknown code panics with "response code N is unknown", then an empty key panics; otherwise the payload has exactly the keys time/status/result/key, the lower-cased status text and the result, with the caller key overriding a fixed key |
| Response.NewRejectsOutOfRangeCodes | response/response.go:32-34 | every code outside 100..599 (0 among them) panics |
| Response.NewOk | response/response.go:40-49 | a 200 envelope reports status "ok" next to the result and the data |
| Response.Serialize | response/response.go:105-116 | the output is the serializer's bytes with one line feed appended, or exactly the serializer's error |
| Response.WriteFailureTouchesNothing | response/response.go:119-123 | a serialization failure returns the error and leaves the writer exactly as it was |
| Response.WriteEffect | response/response.go:119-138 | `write` fails exactly when serialization does, then leaving the writer as it was; otherwise the writer receives `SendJson` of the serialized bytes |
| Response.FallbackEnvelope | response/response.go:52-55 | the fallback is a 500 "error" envelope carrying the fixed message under "error" |
| Response.FallbackWire | response/response.go:52-60 | on a writer with no status sent the status becomes 500; the body grows by the serialized fallback envelope, or stays as it was (headers too) if that cannot be serialized |
| Response.Delivery | response/response.go:69-74 | a serializable envelope is sent with its own code, which is returned; otherwise the writer gets the fallback and 500 is returned |
| Response.DeliveryOutcomes | response/response.go:52-74 | on a fresh writer the status the client sees equals the code `Write` returns. The three outcomes are: the envelope with its headers; the 500 error envelope with only the JSON content type added; a bare 500 with no body and no header added |
| Response.Response.constructor | response/response.go:40-49 | a new response has no custom headers and carries the envelope's code (one with a reason phrase, as `new` ensures) and payload |
| Response.Response.Header | response/response.go:62-67 | setting a header replaces that name's values and leaves the code alone |
| Response.Response.WriteError | response/response.go:52-60 | the code becomes 500 and the writer holds the fallback envelope, or a bare 500 if that cannot be serialized either |
| Response.Response.Write | response/response.go:69-74 | the writer state and returned code are those of `Delivery`: the envelope on success, else the `writeError` fallback with 500 returned |
| Response.WriteJson | response/response.go:119-138 | serialize first; on error return it untouched; otherwise copy headers, force the JSON content type, write the status, then the body |
| FailResponses.MethodNotAllowedMessage | response/fail.go:22-25 | the message is "the ", then the rejected method, then " method is not supported for this resource" |
| FailResponses.Fail | response/fail.go:9-11 | builds only for known codes, panicking as `new` does otherwise; a "fail" envelope with the errors under "error" and the lower-cased status |
| FailResponses.BadRequest | response/fail.go:13-15 | always builds a 400 envelope with the errors under "error" |
| FailResponses.NotFound | response/fail.go:17-20 | always builds a 404 envelope with the not-found message |
| FailResponses.MethodNotAllowed | response/fail.go:22-25 | always builds a 405 envelope whose message names the method |
| FailResponses.Conflict | response/fail.go:27-30 | always builds a 409 envelope with the edit-conflict message |
| FailResponses.UnprocessableEntity | response/fail.go:32-34 | always builds a 422 envelope with the errors under "error" |
| FailResponses.BadRequestStatusLine | response/fail.go:13-15 | the client sees "400 Bad Request" |
| FailResponses.NotFoundStatusLine | response/fail.go:17-20 | the client sees "404 Not Found" |
| FailResponses.MethodNotAllowedStatusLine | response/fail.go:22-25 | the client sees "405 Method Not Allowed" |
| FailResponses.ConflictStatusLine | response/fail.go:27-30 | the client sees "409 Conflict" |
| FailResponses.UnprocessableEntityStatusLine | response/fail.go:32-34 | the client sees "422 Unprocessable Entity" |
| SuccessResponses.Success | response/success.go:7-9 | builds only for a known code and a non-empty key; an unknown code panics with "response code N is unknown", a known code with an empty key with the empty-key message; a "success" envelope with the data under the key |
| SuccessResponses.OK | response/success.go:11-13 | builds exactly when the key is non-empty; code 200, status "ok", data under the key |
| SuccessResponses.Created | response/success.go:15-17 | builds exactly when the key is non-empty; code 201, status "created", data under the key |
| SuccessResponses.OKStatusLine | response/success.go:11-13 | the client sees "200 OK" |
| SuccessResponses.CreatedStatusLine | response/success.go:15-17 | the client sees "201 Created" |
| ErrorResponses.Error | response/error.go:5-7 | builds only for known codes, panicking as `new` does otherwise; an "error" envelope with the message under "error" |
| ErrorResponses.InternalServerError | response/error.go:9-12 | always builds a 500 envelope with the fixed problem message |
| ErrorResponses.FallbackIsInternalServerError | response/error.go:9-12 | the `writeError` fallback envelope is exactly `InternalServerError`'s |
| ErrorResponses.InternalServerErrorStatusLine | response/error.go:9-12 | the client sees "500 Internal Server Error" |
| ResponseDraft.Serialize | response/methods.go:9-27 | a nil serializer panics first, then a nil body; otherwise the serializer's bytes plus a line feed, or its error |
| ResponseDraft.WriteOutcome | response/methods.go:30-56 | a nil writer panics first, then a nil response, then `serialize`'s panic ("serializer param cannot be nil", then "body param cannot be nil") passed on as it is; a serializer error is returned unchanged; after serialization a code outside 100..999 on a writer with no status sent panics in `WriteHeader`; success exactly when none of these happen |
| ResponseDraft.Write | response/methods.go:30-56 | a panic before serialization or a serialization failure leaves the writer untouched; a refused code panics with the custom headers and the content type already stored; on success the writer holds the record's headers, the JSON content type, the record's code and the body |
| ResponseDraft.UncheckedCode | response/methods.go:52 | on a fresh writer a serializable record with code 0 panics in `WriteHeader`, while one with code 200 is written |
| Request.Classify | request/request.go:23-58 | the first-match chain: offsets for syntax and unnamed type errors; the named field with its quotes removed; "body must not be empty"; for any later error whose text starts with the unknown-field prefix, the rest of that text without quotes; the byte limit; a panic on an invalid destination; any other error returned as is |
| Request.ErrorText | request/request.go:46-47 | the text of the unknown-field, syntax, invalid-destination and other errors is their own message; the texts of the limit and end-of-input errors never start with the unknown-field prefix |
| Request.UnknownKeyMessage | request/request.go:46-48 | the decoder's `json: unknown field "name"` becomes "contains unknown key: name" |
| Request.BodyLimitMessage | request/request.go:50-51 | a body over the 1 MiB limit is reported as "must not be larger than 1048576 bytes" |
| Request.Decoder.Decode | request/request.go:17-20 | one decode reports its error, advances past what it consumed and spends what it read from the one byte budget the limiting reader keeps for the whole body |
| Request.Decoder.constructor | request/request.go:15-17 | a decoder starts on the whole body with the limit it is given and all of it still to spend |
| Request.Read | request/request.go:12-72 | a first decode failure is classified; after a success, anything but end of input on the second decode is "must only contain a single JSON value"; acceptance exactly when the first succeeds and the second, on what the first left of the budget, reports end of input; when the limiting reader reports its own limit, an over-limit body is "must not be larger than 1048576 bytes" |
| Params.Integer | request/params.go:11-22 | empty text is "empty parameter", unparsable or out-of-range text is "parameter must be a valid number", both with 0; otherwise the parsed value, within the bit size's range |
| Params.IntegerOfDecimal | request/params.go:11-22 | every in-range value written in decimal is read back with no error |
| Params.Int8Bounds | request/params.go:38-40 | "127" and "-128" are valid `int8` values and "128" is not |
| Params.Int64 | request/params.go:26-28 | empty text is "empty parameter"; text 64-bit parsing refuses is "parameter must be a valid number"; both with 0; otherwise the parsed value, within the `int64` range |
| Params.Int32 | request/params.go:30-32 | empty text is "empty parameter"; text 32-bit parsing refuses is "parameter must be a valid number"; both with 0; otherwise the parsed value, within the `int32` range |
| Params.Int16 | request/params.go:34-36 | empty text is "empty parameter"; text 16-bit parsing refuses is "parameter must be a valid number"; both with 0; otherwise the parsed value, within the `int16` range |
| Params.Int8 | request/params.go:38-40 | empty text is "empty parameter"; text 8-bit parsing refuses is "parameter must be a valid number"; both with 0; otherwise the parsed value, within the `int8` range |
| Params.Int | request/params.go:42-44 | `Int` behaves as `Int64` |
| Params.String | request/params.go:46-51 | empty text is an error, anything else is returned unchanged |
| Params.PathParams | request/params.go:59-65 | exactly the requested names are present, each with the value the router matched |
| Params.QueryParams | request/params.go:67-76 | exactly the requested names present in the query are kept, each with its first value |
| Router.BuildPath | router/router.go:75-77 | the path is the input behind one leading slash |
| Router.BuildPathExamples | router/router.go:75-77 | "" gives "/", "articles/:id" gives "/articles/:id" |
| Router.BuildRoute | router/router.go:25-27 | a route keeps its method and handler and makes the path absolute |
| Router.Router.constructor | router/router.go:79-83 | the route table starts empty |
| Router.Router.Register | router/router.go:44-53 | a nil handler panics with "handler cannot be nil" and leaves the table unchanged; otherwise exactly one route is appended after the existing ones |
| Router.Router.Get | router/router.go:50-53 | as `Register`, with method GET |
| Router.Router.Post | router/router.go:55-58 | as `Register`, with method POST |
| Router.Router.Put | router/router.go:60-63 | as `Register`, with method PUT |
| Router.Router.Patch | router/router.go:65-68 | as `Register`, with method PATCH |
| Router.Router.Delete | router/router.go:70-73 | as `Register`, with method DELETE |
| Router.RegisterOne | router/router.go:50-53 | one GET registration on a fresh table yields exactly that route at "/articles" |
| Server.Create | server/server.go:35-43 | the default configuration: Development, no TLS, localhost, port 8080, 1 min idle, 5 s read, 10 s write timeouts |
| Server.Address | server/server.go:57-59 | the address is the host, a colon, then the port |
| Server.DefaultAddress | server/server.go:57-59 | the default server listens on "localhost:8080" |
| Server.AddressDeterminesHostAndPort | server/server.go:57-59 | for hosts without a colon, the address determines host and port |
| Server.RunOutcome | server/server.go:132-149 | a listen error other than server-closed is returned as is; otherwise the shutdown result; success exactly when the server was closed and shutdown succeeded |
| Server.Recovered | server/server.go:61-80 | a handler that returned leaves the response untouched; a panic adds `Connection: close` and status 500 (ignored when a status was already sent), with no body |
| Server.RecoverPanic | server/server.go:66-77 | the wrapper's deferred function leaves the writer in the `Recovered` state |
| Server.Server.constructor | server/server.go:152-165 | a nil configuration means the default one; the address and all three timeouts come from the configuration; no handler or logger yet |
| Server.Server.New | server/server.go:167-170 | a server on the default configuration, at "localhost:8080" with 1 min, 5 s and 10 s timeouts |
| Server.Server.Build | server/server.go:172-174 | as `new`: a nil configuration means the default one; otherwise the given configuration, with its address and timeouts |
| Server.Server.SetLogger | server/server.go:82-88 | a nil logger panics with "logger param cannot be nil" and changes nothing; otherwise the logger and its error log are set |
| Server.Server.SetHandler | server/server.go:90-95 | a nil handler panics with "handler param cannot be nil" and changes nothing; otherwise the handler is installed inside the recovery wrapper |
| Server.Server.Run | server/server.go:97-149 | the default logger is installed first when none was set; without a handler it returns "server handler has not been set" and never listens; otherwise the result is `RunOutcome` |

## Left out

- `Response.Response.Write` and `Response.WriteJson` require a code with a reason phrase: a `response` is only built by `new`, which panics otherwise, and `writeError` sets 500.
- Router `Mux` and httprouter's registration and matching (router/router.go:33-42): thin wrappers over a library that is not part of this model. `PathParams` receives the router's lookup as a function, in place of the context lookup in `get` (request/params.go:55-57).
- The `Run` internals are not modelled: the signal-watcher goroutine, the `shutdownError` channel, `ListenAndServe` and `Shutdown` with its 30 s context. They involve concurrency and OS signals. Their results are the parameters `listen` and `shutdown` of `Server.Server.Run`.
- Logging is not modelled: slog output, the recovery wrapper's log lines and the blank lines printed in Development mode. Loggers are tokens; `ErrorLog` records which logger feeds it.
- The internals of `encoding/json` are not modelled, that is MarshalIndent formatting and decoder tokenising. The serializer is an abstract function that may fail. The decoder is an abstract step function from the unread input and the limiting reader's budget (its limit and the bytes it still lets through) to an error, the rest and the bytes it read. `DisallowUnknownFields` lives inside that function; `Request.Decoder` carries the one budget from the first decode to the second. That a limiting reader's error carries its own limit is the hypothesis `Request.ReportsItsLimit`.
- `Request.ErrorText` gives fixed stand-in texts for the decoder's own error kinds. Only the unknown-field prefix test depends on an error's text.
- Error wrapping is not modelled: `errors.As`/`errors.Is` see a flat error kind.
- `http.Header` key canonicalisation is not modelled, and header names are opaque strings. A nil header map and an empty one are the same.
- Content sniffing by the writer is not modelled.
- `time.Now().Unix()` (response/response.go:44) is the parameter `now`.
- Payload values of arbitrary Go type are `Response.DataValue` tokens.
- `Text.Lower` lower-cases ASCII letters only. Every status text in Go's table is ASCII.
- The runtime `recover()` mechanism is not modelled. The wrapped handler's end is the value `Returned` or `Panicked`, and the panic value only reaches the log.
- `Params.Int`: Go's `int` is taken as 64 bits wide, as on 64-bit platforms. The `T(i)` conversions in `integer` are exact because `strconv.ParseInt` already checked the range.
- FailResponses.BadRequest: states the code, keys and error value but not the concrete lower-cased status; that follows from `FailResponses.Fail` (status = lower-cased `StatusText(code)`) and the status line lemma.
- FailResponses.NotFound: as `BadRequest`, the concrete lower-cased status is stated only through `Fail`.
- FailResponses.MethodNotAllowed: as `BadRequest`, the concrete lower-cased status is stated only through `Fail`.
- FailResponses.Conflict: as `BadRequest`, the concrete lower-cased status is stated only through `Fail`.
- FailResponses.UnprocessableEntity: as `BadRequest`, the concrete lower-cased status is stated only through `Fail`.
- Http.Writer.WriteHeader: informational codes (100..199) are treated as final like every other accepted code, where a server's `http.ResponseWriter` sends them as interim headers and keeps the status open. So `Response.DeliveryOutcomes` ("the client sees the returned code") holds for such a writer only, and for an envelope built with 100, 102 or 103 a server client would see the implicit 200 of the body write instead.
- Http.StatusText: the contract states only the range of known codes; the table itself is the body, copied from Go's `net/http`.

## Notes on the source

- `Write` and `writeError` call the method `write` (response/response.go:77-101). It is the package function `write(r, w, f)` (response/response.go:119-138) with `f` fixed to `json.MarshalIndent`. Both are modelled by `Response.WriteJson` with the serializer as a parameter.
- router/router_test.go:44 expects the panic "handler param cannot be nil". router/router.go:46 panics with "handler cannot be nil", and the model follows the code.
- response/methods_test.go:42 expects "response param cannot be nil" for a nil body. response/methods.go:14 panics with "body param cannot be nil", and the model follows the code.
- server/server_test.go:19 assigns an integer `Port`. The field is a string (server/server.go:28), and the model follows the code.
- The draft `write` passes the record's code to `WriteHeader` unchecked (response/methods.go:52). Under `http.ResponseWriter` semantics a code outside 100..999 then panics, after the custom headers and the content type were stored (`ResponseDraft.UncheckedCode`). The envelope writer in response/response.go cannot reach that panic, because `new` admits only codes with a reason phrase.
- The recovery wrapper sends no envelope body, only `Connection: close` and status 500 (server/server.go:72-73). Under `http.ResponseWriter` semantics that 500 is lost if the handler had already written a status.
