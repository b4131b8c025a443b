# mcpgopher client core in Dafny

This project models three parts of the Go client library `mcpgopher` for the
Model Context Protocol (MCP), and proves properties of each part.

1. **The Streamable HTTP transport** (`client/transport/streamable_http.go`).
   It follows MCP revision 2025-03-26, "Basic > Transports > Streamable HTTP".
   Every JSON-RPC message is sent as its own POST. The server answers with a
   single JSON response or with a `text/event-stream` body. The modelled
   pieces are:
   - the reduced server-sent-events reader `readSSE`
     (`sse.dfy`, with the Go string helpers it uses in `text.dfy`);
   - the correlation of stream events with the request;
   - the request headers, using Go's canonical header names (`headers.dfy`);
   - the classification of HTTP status codes and media types;
   - the session token (`Mcp-Session-Id`), which starts empty, is stored on
     `initialize`, is cleared by compare-and-swap on 404, and is announced
     once with a DELETE by `Close`. The transport is the class
     `Transport.StreamableHttp` (`transport.dfy`).
2. **The result parsers of `mcp/utils.go`** (`mcp_types.dfy`, `mcp_utils.dfy`).
   They cover `ExtractString`, `ExtractMap`, `ParseContent`,
   `ParseResourceContents`, the three result parsers and the `New*`
   constructors. They work over a JSON tree (`json.dfy`).
3. **The tool-schema normaliser of `client/openai.go`** (`openai.dfy`): this is
   `normalizeSchema` and `mcpToVendor`.

Code that updates state step by step is imperative Dafny:
- `Transport.StreamableHttp` is a class whose methods change `sessionId`,
  `closed`, `initialized` and `handler`.
- Ghost logs record DELETE notices and handler calls.
- `readSSE`, the correlation callback, the header loop, the array loops of the
  result parsers and `normalizeSchema` are methods with loops.
- Each of these methods is proved equal to a specification function. Lemmas
  then state the properties of that function.

Some things are inputs to the model rather than modelled behaviour:
- HTTP exchanges are inputs. The server's reply arrives as an `Option<Reply>`
  (`None` when the request could not be sent).
- JSON decoding of a payload into a JSON-RPC envelope is a `Codec`.
- The order in which Go's range loop visits the static header map is an input
  `order`.

## Model

| member | source | states |
|---|---|---|
| Text.TrimLineEnd | client/transport/streamable_http.go:374 | the result is the longest prefix of the line without a trailing CR or LF; everything removed is CR or LF |
| Text.TrimPrefix | client/transport/streamable_http.go:385-388 | the prefix followed by the result is the line |
| Text.TrimSpace | client/transport/streamable_http.go:386-388 | the trimmed field value is an infix of the line with no Unicode space at either end, and only spaces were removed around it |
| Text.TrimSpaceOfTrimmed | client/transport/streamable_http.go:386-388 | trimming a value that has no space at either end returns it unchanged |
| Sse.SplitLinesSpec | client/transport/streamable_http.go:355 | reading with `ReadString('\n')` splits the body into complete lines ending in LF and an unterminated rest; concatenating them gives the body back |
| Sse.ReadSse | client/transport/streamable_http.go:344-392 | the reader loop emits exactly the events of the line-by-line specification `Decode`, and every emitted event has a non-empty name and non-empty data |
| Sse.EventLineOverwrites | client/transport/streamable_http.go:385-386 | an `event:` line replaces the name with the space-trimmed rest of the line, keeps the data and emits nothing |
| Sse.DataLineOverwrites | client/transport/streamable_http.go:387-388 | a `data:` line replaces the data with the space-trimmed rest of the line, keeps the name and emits nothing |
| Sse.LaterDataLineWins | client/transport/streamable_http.go:387-388 | of two consecutive `data:` lines only the second counts (data lines are not joined) |
| Sse.LaterEventLineWins | client/transport/streamable_http.go:385-386 | of two consecutive `event:` lines only the second counts |
| Sse.OtherLineIgnored | client/transport/streamable_http.go:385-389 | any other non-blank line (comments, `id:`, `retry:`) changes nothing |
| Sse.BlankLineBoundary | client/transport/streamable_http.go:374-383 | a line of only CR/LF emits (name, data) and resets both fields exactly when both are non-empty; otherwise it does nothing |
| Sse.RunEventsWellFormed | client/transport/streamable_http.go:375-381 | every event emitted while reading lines has a non-empty name and non-empty data |
| Sse.DecodedEventsWellFormed | client/transport/streamable_http.go:355-381 | every delivered event, including one flushed at end of input, has a non-empty name and non-empty data |
| Sse.EndOfInput | client/transport/streamable_http.go:355-371 | at end of input a complete pending record is delivered once more; on a read error or a cancellation nothing more is delivered |
| Sse.UnterminatedLineDropped | client/transport/streamable_http.go:355-363 | a final line without LF is dropped unparsed, whatever it contains |
| Sse.SplitConcat | client/transport/streamable_http.go:355 | splitting LF-terminated lines joined together returns those lines |
| Sse.SerializeRoundTrip | client/transport/streamable_http.go:344-392 | a stream written as `event:`/`data:`/blank-line records decodes back to the same events, however the stream ends |
| Sse.UnclosedRecordOnEndOfInput | client/transport/streamable_http.go:357-370 | a last record without its blank line is delivered on end of input and lost on a read error |
| Headers.CanonicalFrom | client/transport/streamable_http.go:199-206 | letters at the start and after each hyphen become upper case, all other letters lower case, and the length is kept |
| Headers.CanonicalKey | client/transport/streamable_http.go:199-206 | a token name is canonicalised as above; a name that is not a token is kept as it is |
| Headers.CanonicalIgnoresCase | client/transport/streamable_http.go:205-206 | two header names that differ only in letter case have one canonical form, so they set the same header |
| Headers.CanonicalKeyIdempotent | client/transport/streamable_http.go:199-206 | canonicalising a canonical name changes nothing |
| Headers.BuildHeaders | client/transport/streamable_http.go:198-207 | the header loop yields the fixed headers, then the session header, then the static headers written in visiting order |
| Headers.ApplyStaticKeys | client/transport/streamable_http.go:205-207 | the header names sent are the earlier ones plus the canonical name of every static header |
| Headers.LastWriteWins | client/transport/streamable_http.go:205-207 | a static header is sent with its configured value unless a later static header with the same canonical name replaces it, and it overrides any fixed header of that name |
| Headers.UnwrittenKept | client/transport/streamable_http.go:205-207 | a name that no static header writes keeps its earlier value or stays absent |
| Headers.FixedNamesCanonical | client/transport/streamable_http.go:199-203 | `Content-Type`, `Accept` and `Mcp-Session-Id` are already canonical |
| Headers.BaseHeadersContent | client/transport/streamable_http.go:199-204 | before the static headers: `Content-Type: application/json`, `Accept: application/json, text/event-stream`, and `Mcp-Session-Id` exactly when the token is non-empty |
| Headers.DefaultHeaders | client/transport/streamable_http.go:198-207 | `Content-Type` and `Accept` are always sent with their fixed values unless a static header of the same name overrides them |
| Headers.SessionHeaderSent | client/transport/streamable_http.go:201-204 | `Mcp-Session-Id` is sent exactly when the token is non-empty, carrying the token, unless a static header overrides it |
| Transport.TerminalIndex | client/transport/streamable_http.go:305-326 | it finds the first event whose data decodes to a response with a non-null id; no earlier event does |
| Transport.Correlate | client/transport/streamable_http.go:301-327 | the callback loop returns that first id-bearing response, or nothing. It hands to the handler exactly the notifications before it, in order, and only when a handler is set |
| Transport.NoticesFromNullIdEvents | client/transport/streamable_http.go:311-323 | every notification handed over comes from an event whose data decodes to a response with a null id and then to that notification |
| Transport.NoticesPrefix | client/transport/streamable_http.go:301-324 | the notifications of the earlier events are handed over first, in stream order |
| Transport.NullIdEventNoticed | client/transport/streamable_http.go:311-323 | conversely, every event with a null-id response whose data decodes as a notification hands that notification over, right after those of the events before it |
| Transport.NoticesAppend | client/transport/streamable_http.go:301-324 | notifications are handed over in stream order; undecodable events add nothing |
| Transport.NoHandlerNoDeliveries | client/transport/streamable_http.go:318-322 | nothing is handed over without a handler, or outside a successful event-stream reply |
| Transport.StreamReply | client/transport/streamable_http.go:288-340 | on the stream path the result is the first id-bearing response, and that id is not compared with the request's. Without one the exchange fails with "unexpected nil response", or with the context error if it was cancelled |
| Transport.ResponseOnlyFromServer | client/transport/streamable_http.go:209-231 | a response is returned only when the server answered with a status other than 404; on another failure status it is the decoded body |
| Transport.FailureStatus | client/transport/streamable_http.go:217-231 | 404 yields "session terminated"; any other status except 200 and 202 yields the body when it decodes, else an error carrying the status and body |
| Transport.JsonReply | client/transport/streamable_http.go:244-263 | a JSON reply is returned whatever its id, except that a null id is refused unless the method is `ping`; an undecodable body is a decode error |
| Transport.OtherMediaType | client/transport/streamable_http.go:269-270 | a media type other than `application/json` and `text/event-stream` is refused, naming the `Content-Type` header |
| Transport.OnlyInitializeStores | client/transport/streamable_http.go:217-239 | no method other than `initialize` stores a token; the token is kept or, on a 404, cleared |
| Transport.InitializeStoresHeader | client/transport/streamable_http.go:233-239 | a successful `initialize` stores the received `Mcp-Session-Id` if it is non-empty and keeps the old token otherwise. This happens before the media-type check |
| Transport.NotFoundCompareAndSwap | client/transport/streamable_http.go:219-221 | a 404 clears the token only if it still equals the value loaded for this exchange |
| Transport.FailureKeepsToken | client/transport/streamable_http.go:209-231 | a request that could not be sent, or a failure status other than 404, leaves the token unchanged |
| Transport.InitializeFailure | client/transport/streamable_http.go:109-118 | `Initialize` succeeds exactly when `SendRequest` returns a response |
| Transport.CheckedInitializeFailure | client/transport/streamable_http.go:95-118 | corrected: `initialize` succeeds exactly when a response without an error arrives |
| Transport.InitializeAcceptsErrorResponse | client/transport/streamable_http.go:109-118 | a server that refuses `initialize` with a JSON-RPC error (status 500, error in the body) is taken to have accepted it |
| Transport.StreamableHttp.constructor | client/transport/streamable_http.go:68-87 | a new transport holds the empty token, is open and uninitialized, and has no handler and no logged effects |
| Transport.StreamableHttp.GetSessionId | client/transport/streamable_http.go:443-445 | returns the current token |
| Transport.StreamableHttp.SetNotificationHandler | client/transport/streamable_http.go:437-441 | replaces the handler |
| Transport.StreamableHttp.BeginExchange | client/transport/streamable_http.go:198-207 | loads the token once and builds the request headers from it |
| Transport.StreamableHttp.FinishExchange | client/transport/streamable_http.go:209-340 | given the token loaded at the start, it sets the new token (compare-and-swap on 404, store on `initialize`), the result and the notifications handed to the handler, and keeps the transport invariant |
| Transport.StreamableHttp.SendRequest | client/transport/streamable_http.go:164-272 | a whole exchange: the headers sent, the new token, the result and the handler calls |
| Transport.StreamableHttp.SendNotification | client/transport/streamable_http.go:394-435 | sends the same headers as a request; succeeds exactly on 200 or 202, else reports the status and body; never touches the session |
| Transport.StreamableHttp.Initialize | client/transport/streamable_http.go:97-119 | sends `initialize` with id "1" and the protocol version, client info and capabilities. It marks the transport initialized exactly when the exchange yields a response |
| Transport.StreamableHttp.InitializeChecked | client/transport/streamable_http.go:97-119 | corrected `Initialize`: the transport becomes initialized only on a response without an error |
| Transport.StreamableHttp.Close | client/transport/streamable_http.go:122-155 | the first call closes; if a token is held it clears it and logs one DELETE carrying the old token. A later call changes nothing, so at most one DELETE is ever issued |
| McpUtils.ExtractString | mcp/utils.go:249-257 | the string under the key when it is present and a string, else "" |
| McpUtils.ExtractMap | mcp/utils.go:259-267 | the object under the key when it is present and an object, else nil |
| McpUtils.DecodeObject | mcp/utils.go:10-17 | a nil message is "response is nil"; an object decodes; `null` decodes to an empty map; anything else is an unmarshal error |
| McpUtils.NewTextContent | mcp/utils.go:269-275 | the tag is "text" and the text is copied |
| McpUtils.NewImageContent | mcp/utils.go:277-284 | the tag is "image" and data and MIME type are copied |
| McpUtils.NewAudioContent | mcp/utils.go:286-293 | the tag is "audio" and data and MIME type are copied |
| McpUtils.NewEmbeddedResource | mcp/utils.go:303-309 | the tag is "resource" and the resource is copied |
| McpUtils.NewPromptMessage | mcp/utils.go:295-301 | role and content are copied |
| McpUtils.NewToolResultText | mcp/utils.go:311-321 | one text content, no meta, not an error |
| McpUtils.ParseResourceContents | mcp/utils.go:221-247 | succeeds exactly when `uri` is non-empty and `text` or `blob` is non-empty; text wins over blob; uri and MIME type are copied |
| McpUtils.ParseContent | mcp/utils.go:179-219 | text always parses. Image and audio parse exactly when data and MIME type are non-empty. A resource needs an object `resource` that parses. Every other type, a missing one included, is "unsupported". Results carry the tag of their kind |
| McpUtils.ParseMessage | mcp/utils.go:147-172 | a message parses exactly when its role is "assistant" or "user" and its `content` is an object that parses; any other role, "system" included, is refused |
| McpUtils.ParseArray | mcp/utils.go:45-59 | the element loop yields the elements of the array specification `ParseEach` in order, stopping at the first failure |
| McpUtils.ParseEachOk | mcp/utils.go:45-59 | an array parses exactly when every element is an object that parses, and then the output has the array's length and order |
| McpUtils.ParseEachErr | mcp/utils.go:45-59 | a failing array fails with the error of its first failing element |
| McpUtils.ParseCallToolResult | mcp/utils.go:9-62 | the parser's loop yields exactly the tool-result specification `CallToolResultOf` |
| McpUtils.ParseReadResourceResult | mcp/utils.go:65-111 | the parser's loop yields exactly the resource-result specification `ReadResourceResultOf` |
| McpUtils.ParseGetPromptResult | mcp/utils.go:114-177 | the parser's loop yields exactly the prompt-result specification `GetPromptResultOf` |
| McpUtils.CallToolResultAccepts | mcp/utils.go:9-62 | a tool result parses exactly when `content` is an array of objects that all parse; `_meta` and `isError` are copied only when well-typed and never cause failure; content keeps length and order |
| McpUtils.CallToolResultFirstError | mcp/utils.go:45-56 | a failing tool result reports the error of its first failing content element |
| McpUtils.ReadResourceResultAccepts | mcp/utils.go:65-111 | a resource result parses exactly when `contents` is an array of objects that all parse as resource contents, kept in order; `_meta` never causes failure |
| McpUtils.GetPromptResultAccepts | mcp/utils.go:114-177 | a missing `messages` gives no messages. Otherwise the result parses exactly when `messages` is an array of objects that all parse as messages, kept in order. `description` is copied only when it is a string |
| McpUtils.PromptRejectsOtherRoles | mcp/utils.go:154-157 | a single message whose role is not "assistant" or "user" makes the whole prompt result fail |
| McpUtils.ResourceRoundTrip | mcp/utils.go:221-247 | encoding resource contents as JSON and parsing them gives them back |
| McpUtils.ContentRoundTrip | mcp/utils.go:179-219 | encoding parseable content as JSON and parsing it gives it back |
| McpUtils.ParsedContentReencodes | mcp/utils.go:179-219 | whatever the parser produces is parseable, so re-encoding and parsing reproduce it |
| OpenAi.Filtered | client/openai.go:66-73 | the copy has every key of the input except `annotations` and `outputSchema`, with the same values |
| OpenAi.NormalizeSchema | client/openai.go:65-101 | the loops yield the normalised schema, and the caller's `properties` object is left rewritten with the normalised children |
| OpenAi.NormalizedKeys | client/openai.go:65-101 | `annotations` and `outputSchema` are always absent. Every other input key is kept, and only `items` can be added. Values other than `items` and `properties` are unchanged |
| OpenAi.ArrayItems | client/openai.go:79-85 | an array schema without `items` gets `{"type":"string"}`; existing items are kept unchanged and not normalised |
| OpenAi.ObjectProperties | client/openai.go:86-96 | in an object schema with object `properties`, each object-valued property is normalised; other property values are unchanged |
| OpenAi.OtherSchemasFiltered | client/openai.go:76-98 | when the type is absent, not a string or any other string, the result is exactly the filtered copy |
| OpenAi.NormalizeIdempotent | client/openai.go:65-101 | normalising twice is normalising once |
| OpenAi.RewrittenInputNormalizesAlike | client/openai.go:88-95 | the in-place rewrite changes the caller's schema only under `properties`, and normalising the rewritten schema gives the same result |
| OpenAi.McpToVendor | client/openai.go:53-62 | `{"type":"function","function":{name, description, parameters}}`: name and description are copied (null when absent) and the parameters are the normalised input schema, which carries no `annotations` or `outputSchema` and is a fixed point of normalisation |

## Findings

| source | as written | input that shows it | evidently intended | confidence | as-written member | corrected member |
|---|---|---|---|---|---|---|
| client/transport/streamable_http.go:109-118 | `Initialize` discards the response of `SendRequest` and marks the transport initialized whenever no transport error occurred. Error responses are returned without error, both on a failure status whose body decodes (line 227-228) and on 200 | reply status 500 (or 200) with body `{"jsonrpc":"2.0","id":"1","error":{"code":-32603,...}}`: `Initialize` returns nil and sets `initialized` | a JSON-RPC error in the `initialize` response fails initialization, as `client/http.go:151-152` treats error responses for other requests | medium; not executed | Transport.InitializeAcceptsErrorResponse | Transport.StreamableHttp.InitializeChecked |

## Left out

- Concurrency is not modelled. This covers the goroutine that cancels in-flight requests when the transport closes (client/transport/streamable_http.go:176-183), the stream-reading goroutine and its channel `select` (lines 297-339), the `atomic.Value`, `atomic.Bool` and `RWMutex`, and the asynchronous DELETE with its 5-second timeout. Exchanges are sequential. Cancellation is an input: a reply of `None`, or a stream that ended as `Cancelled`. The DELETE is an entry in a ghost log. When a cancelled stream ends, Go's reader closes the response channel while the context is done, so the `select` at lines 331-338 may return either the context error or "unexpected nil response". When no response was read, the model (`Transport.StreamOutcome`) resolves this race to the context error. When a response was already read and the stream then ends cancelled, Go may still pick the context error, but the model returns the response.
- The handler is read once per exchange rather than once per event, because exchanges are sequential. Swapping the handler during an exchange is not modelled.
- After the terminal response the model stops reading the stream. Events after it race with the cancellation in Go and are not modelled.
- Closing does not force later exchanges to fail. In Go that happens only through the racing context cancellation, so the reply of a later exchange stays an input.
- HTTP itself is left out: URL parsing in `NewStreamableHTTP`, `WithHTTPTimeout`, `Start`, request creation and marshalling failures, and `mime.ParseMediaType`. The reply's status, headers, parsed media type and body are inputs.
- JSON decoding of envelopes (`encoding/json`, `JSONRPCNotification.UnmarshalJSON`) is the `Codec` input. Request ids are opaque `Id` values. The `int64` id declared in `client/transport/interface.go` is not modelled.
- `Request` and `Ping` are not modelled: they generate ids from the clock and randomness and print debug output. All `fmt.Printf` output is omitted.
- Strings are sequences of Unicode code points. The Go reader works on bytes, and `strings.TrimSpace` decodes UTF-8 and treats an invalid byte as the non-space U+FFFD. A body that is not valid UTF-8 cannot be expressed in the model.
- JSON numbers are integers. The parsers never look at numbers.
- `Annotated` fields on content, `ToBoolPtr` and the difference between a nil and an empty slice are not modelled.
- `Transport.StreamableHttp.Initialize` and `Transport.StreamableHttp.SendRequest`: the request body posted to the server is not modelled. `Initialize` returns the request it builds instead.
- `OpenAi.NormalizeSchema`: the Go maps are references. The model returns the caller's schema after the call as a value (`schemaAfter`). It does not model other aliases of the nested maps, which a freshly decoded JSON tree does not have. The call itself creates some: it copies `schema` shallowly (client/openai.go:68-72), rewrites the caller's `properties` map in place and stores that same map in the result (lines 88-95), so afterwards the result and the caller's schema share `properties` and every kept value. Nothing in the modelled code changes either tree afterwards.
- `OpenAi.McpToVendor` requires `inputSchema` to be an object, because the Go type assertion panics otherwise.
- `OpenaiTools`, `client/http.go`, `client/interface.go` and the example program are not part of this model.
- The comment at client/transport/streamable_http.go:235 says an empty session id is allowed, but line 236 stores only a non-empty one. The model follows the code.
- A message with a null id on the stream path goes to the notification handler (client/transport/streamable_http.go:312-324). The model follows the code.
