# coincheck-mcp request router, modelled in Dafny

coincheck-mcp exposes the Coincheck exchange's REST API to AI agents as a
Model Context Protocol server (protocol revision "2024-11-05"). The server
speaks JSON-RPC over standard input and output. This project models its
request-handling core:

- the **tool catalog** of the `mcp` package (`GetToolDefinitions`);
- the **dispatcher** `HandleCallTool`, which maps a tool name and a loosely
  typed argument map to one exchange call. It coerces arguments with silent
  defaults: "btc_jpy" for `pair`, "" for `order_type`, 0 for numbers;
- the **request router** `HandleRequest`, which uses the error codes of
  section 5.1 of the JSON-RPC 2.0 Specification (-32601, -32602, -32603);
- the **serve loop** `Run` and the credential guard of `NewServer`;
- the **older copy** of all of this in `main.go`. It renames four tools, has
  no case for `notifications/initialized`, and writes a reply for every
  decoded request.

Files, one module each:

| file | module | models |
|---|---|---|
| wrappers.dfy | Wrappers | `Option` and a Go-style `Result` (a value or the error text) |
| json.dfy | Json | decoded JSON values and the type-assertion coercions |
| protocol.dfy | Protocol | request, response, error, tool definition |
| tools.dfy | Tools | mcp/tools.go |
| handlers.dfy | Handlers | mcp/handlers.go |
| server.dfy | Server | mcp/server.go |
| legacy.dfy | Legacy | main.go |

The exchange is not modelled. A dispatched call is a `Call` value, such as
`CreateOrder(pair, orderType, rate, amount)`. The exchange's answer comes
from a parameter `exec: Call -> Result<Value>`. `json.MarshalIndent` is the
parameter `marshal`. Whether writing a reply to a healthy standard output
would succeed is the parameter `encodes`. Whether the client library can build a client is the parameter
`clientError`. The endless read loop runs over a finite sequence of decoder
outcomes (`Protocol.Decoding`). A message is either decoded into a request
or is well-formed JSON of the wrong shape, which the decoder skips. Or it
is a stream error: malformed JSON, a read error or the end of input. Go's
`json.Decoder` stores a stream error and returns it from every later
`Decode` call, so after one the loop never reads or answers anything again.
`json.Encoder` likewise stores a failed write and returns it from every
later `Encode` call, so after one failed write no reply is written again.
The loop's state (`Protocol.Session`) holds what has been written, the
number of decode errors logged, and the two stored errors.

Three behaviours of the code that a reader may not expect, which the model
keeps:

- Only `notifications/initialized` is suppressed. Any other request sent
  without an id is answered like any other request, with a null id. The
  reply is -32601 exactly when the method is unknown
  (`Server.OtherNotificationsAnswered`).
- `NewServerWithConfig` has no emptiness check of its own
  (`Server.ConfigPathAcceptsEmptyCredentials`).
- The two copies keep their different tool names.

## Model

| member | source | states |
|---|---|---|
| Json.TruncateToInt | mcp/handlers.go:178-180 | `int(id)` drops the fraction toward zero: the result has the sign of the input and lies within 1 of it |
| Tools.GetToolDefinitions | mcp/tools.go:4-193 | the catalog has 12 definitions with pairwise distinct names, and its name set is the twelve MCP tool names |
| Tools.CatalogNamesDistinct | mcp/tools.go:5-193 | the catalog has exactly 12 entries and no two share a name |
| Tools.CatalogNameSet | mcp/tools.go:8-179 | the catalog's names are exactly the twelve MCP tool names |
| Tools.CatalogFollowsSchemaRules | mcp/tools.go:13-191 | in every schema, a declared `pair` is a string defaulting to "btc_jpy"; `order_type`'s enum is ["buy","sell"]; `required` lists, each once, exactly the properties without a default |
| Tools.ListingToolsTakeNoArguments | mcp/tools.go:96-133 | the balance, account, transaction-history and open-orders tools declare no properties and require nothing |
| Handlers.HandleCallTool | mcp/handlers.go:91-193 | a name outside the catalog gives the error "unknown tool: <name>" and calls nothing; a catalog name gives the outcome of exactly the exchange call that `Dispatch` selects for it |
| Handlers.DispatchAcceptsCatalogNames | mcp/handlers.go:94-192 | the dispatcher accepts a name if and only if the catalog lists it; otherwise the error is "unknown tool: " followed by the name |
| Handlers.PairDefaultsToBtcJpy | mcp/handlers.go:96-128 | for every tool name, a call without `pair` dispatches exactly like one with `pair: "btc_jpy"` |
| Handlers.OrderTypeDefaultsToEmpty | mcp/handlers.go:129-132 | for every tool name, a missing `order_type` dispatches like `order_type: ""` |
| Handlers.NumbersDefaultToZero | mcp/handlers.go:133-187 | for every tool name, a missing `price`, `rate`, `amount` or `order_id` dispatches like the number 0 |
| Handlers.NonStringIsAbsent | mcp/handlers.go:97-131 | for every tool name, a non-string `pair` or `order_type` dispatches as if it were absent |
| Handlers.NonNumberIsAbsent | mcp/handlers.go:133-187 | for every tool name, a non-number `price`, `rate`, `amount` or `order_id` (the string "42" included) dispatches as if it were absent |
| Handlers.WrongTypeIsAbsent | mcp/handlers.go:97-187 | for every catalog tool, an argument its schema declares but given with the wrong JSON type dispatches as if it were absent |
| Handlers.AbsentIsDefault | mcp/handlers.go:96-188 | for every catalog tool, an absent declared argument dispatches like its schema default, or like the zero value of its type when the schema has no default |
| Handlers.RequiredAreZeroDefaulted | mcp/tools.go:93-190 | a property is in the tool's `required` list exactly when the dispatcher substitutes "" or 0 for it when it is absent |
| Handlers.OnlyDeclaredArgumentsRead | mcp/handlers.go:96-188 | a catalog tool's call depends only on the arguments its schema declares; all other keys are ignored |
| Handlers.DeclaredArgumentsMatter | mcp/tools.go:13-191 | every property a schema declares does change the selected call for some well-typed value |
| Handlers.OrderIdCoercion | mcp/handlers.go:176-188 | `order_id: 42` cancels order 42, `order_id: "42"` cancels order 0, and -7.5 looks up order -7 |
| Handlers.CreateOrderForwardsArguments | mcp/handlers.go:157-174 | numeric `rate` and `amount` and a string `order_type` reach `CreateOrder` unchanged, with the default pair "btc_jpy" |
| Handlers.CallToolResponse | mcp/handlers.go:40-79 | the `tools/call` branch always yields a well-formed reply that echoes the id |
| Handlers.HandleRequest | mcp/handlers.go:10-88 | the reply is empty (`jsonrpc` "" with a null id, no result, no error) exactly for `notifications/initialized`; every other reply is "2.0", echoes the id and sets exactly one of result and error; -32601 "Method not found" is the reply to exactly the unknown methods |
| Handlers.MissingToolName | mcp/handlers.go:41-48 | `tools/call` without a string `name` gets -32602 "Missing tool name", the same whatever the exchange or the marshaller would do |
| Handlers.UnknownToolIsInternalError | mcp/handlers.go:50-57 | an unknown tool name gets -32603 with the message "unknown tool: <name>" |
| Handlers.ToolFailureIsInternalError | mcp/handlers.go:51-58 | a failing exchange call gets -32603 carrying the error text verbatim |
| Handlers.MarshalFailureIsInternalError | mcp/handlers.go:61-68 | a result that cannot be marshalled gets -32603 "Failed to marshal result: " followed by the error |
| Handlers.SuccessIsTextContent | mcp/handlers.go:70-79 | success is a single text block: "Tool <name> executed successfully. Result:\n" followed by the marshalled result |
| Handlers.NonObjectArgumentsAreEmpty | mcp/handlers.go:50 | a missing or non-object `arguments` gives the same reply as an empty argument object |
| Handlers.InitializeAndListTools | mcp/handlers.go:16-38 | `initialize` answers protocol version "2024-11-05" and echoes the id; `tools/list` answers the catalog |
| Protocol.SuccessText | mcp/handlers.go:75 | the success text starts with "Tool " and ends with the marshalled result |
| Server.NewServerWithConfig | mcp/server.go:19-29 | construction succeeds exactly when the client constructor accepts the credentials, which it receives unchanged; a failure is wrapped as "failed to create coincheck client: ..." |
| Server.NewServer | mcp/server.go:32-49 | an unset or empty API key or secret gives the "environment variables are required" error; a built server never has an empty credential |
| Server.NewServerGuardsThenBuilds | mcp/server.go:32-49 | with a credential missing, the result does not depend on the client constructor; otherwise it equals `NewServerWithConfig` on the same credentials |
| Server.ConfigPathAcceptsEmptyCredentials | mcp/server.go:19-23 | `NewServerWithConfig` builds a server from empty credentials when the client library allows it |
| Server.Run | mcp/server.go:52-73 | the loop ends in exactly the state `Served` gives for its input: the replies written and the number of decode errors logged |
| Server.WrittenAppend | mcp/server.go:58-72 | the output for two consecutive input stretches is the output of the first followed by that of the second, unless the decoder or the encoder holds a stored error after the first |
| Server.WrittenAreReplies | mcp/server.go:65-71 | everything written is a "2.0" reply with exactly one of result and error |
| Server.TypeMismatchSkipped | mcp/server.go:58-63 | a well-formed value of the wrong shape writes nothing, and decoding goes on with the rest of the input |
| Server.StreamErrorIsFinal | mcp/server.go:58-63 | after a stream error nothing more is ever written, while each further pass logs the stored error again, so the logged count grows by one per pass |
| Server.ReadFailedIffStreamError | mcp/server.go:58-63 | the decoder holds a stored error exactly when a stream error has occurred |
| Server.ReadFailureIsFinal | mcp/server.go:58-63 | once the decoder holds a stored error, every later pass only adds one logged decode error |
| Server.WriteFailureIsFinal | mcp/server.go:66-70 | once the encoder holds a stored error, nothing more is written |
| Server.WriteErrorIsFinal | mcp/server.go:66-70 | when a reply fails to be written, neither it nor any later reply is written |
| Server.NotificationSuppressed | mcp/server.go:65-71 | `notifications/initialized` writes nothing |
| Server.OtherNotificationsAnswered | mcp/server.go:65-71 | any request without an id other than `notifications/initialized` gets a well-formed reply with a null id, written in its place when no stored error is held and the write succeeds; the reply is -32601 exactly when the method is unknown |
| Server.RequestAnsweredInOrder | mcp/server.go:65-71 | any other decoded request writes exactly its own reply, in input order, when no stored error is held and the write succeeds; otherwise nothing from it or from later input is written |
| Server.OneReplyPerRequest | mcp/server.go:58-72 | when every write succeeds, the number of replies equals the number of decoded requests other than the notification that come before any stream error |
| Server.ServeUntilClosed | mcp/server.go:58-63 | the loop corrected to return at the first stream error: it reads nothing past that error and writes the same replies as `Run` |
| Legacy.ListTools | main.go:61-251 | the older list has 12 definitions with pairwise distinct names, and its name set is the twelve older tool names |
| Legacy.LegacyCatalogFacts | main.go:62-250 | the older list has exactly 12 entries with pairwise distinct names |
| Legacy.LegacyNameSet | main.go:65-236 | the older list's names are exactly the twelve older tool names |
| Legacy.CatalogsAgreeUpToRenaming | main.go:61-251 | entry by entry, the older list has the MCP catalog's schemas and `required` lists, and its names map to the MCP names through the renaming |
| Legacy.LegacyCallTool | main.go:253-355 | a name outside the older list gives "unknown tool: <name>"; a listed name gives the outcome of exactly the exchange call that `LegacyDispatch` selects for it |
| Legacy.LegacyDispatchAcceptsListedNames | main.go:256-354 | the older dispatcher accepts a name if and only if the older list contains it |
| Legacy.SharedToolsAgree | main.go:258-343 | on the eight shared names, both dispatchers select the same call with the same coerced arguments |
| Legacy.RenamedToolsAgree | main.go:272-350 | get_orderbook, get_accounts, get_transactions and get_order select the same calls as get_order_book, get_account_info, get_transaction_history and get_order_details |
| Legacy.ListedToolsAgree | main.go:256-351 | every listed older tool dispatches like its MCP counterpart |
| Legacy.LegacyCallToolResponse | main.go:383-422 | the older `tools/call` branch always yields a well-formed reply that echoes the id, with -32602 "Missing tool name" when the name is missing or not a string, -32603 "unknown tool: <name>" for a name outside the older list, and no other codes |
| Legacy.LegacyHandleRequest | main.go:357-431 | every request gets a "2.0" reply that echoes the id, with exactly one of result and error; -32601 is the reply to exactly the methods other than its three |
| Legacy.LegacyToolFailureIsInternalError | main.go:393-401 | for every tool of the older list, renamed ones included, a failing exchange call gives -32603 with the error text verbatim |
| Legacy.LegacyMarshalFailureIsInternalError | main.go:403-411 | for every tool of the older list, a result that cannot be marshalled gives -32603 "Failed to marshal result: " followed by the error text |
| Legacy.LegacySuccessIsTextContent | main.go:413-422 | for every tool of the older list, success is one text block "Tool <older name> executed successfully. Result:" followed by the marshalled result |
| Legacy.NotificationIsMethodNotFound | main.go:424-429 | `notifications/initialized` gets -32601 with its id echoed, where the MCP router returns the empty marker |
| Legacy.RoutersAgree | main.go:383-429 | apart from `initialize`, `tools/list`, the notification and the renamed tools, both routers give identical replies |
| Legacy.LegacyServe | main.go:439-453 | the older loop ends in exactly the state `LegacyServed` gives for its input: the replies written and the number of decode errors logged |
| Legacy.LegacyWrittenAppend | main.go:442-453 | the older loop's output for two consecutive input stretches is the concatenation of their outputs, unless the decoder or the encoder holds a stored error after the first |
| Legacy.LegacyReadFailureIsFinal | main.go:442-447 | once the older decoder holds a stored error, every later pass only adds one logged decode error |
| Legacy.LegacyWriteFailureIsFinal | main.go:449-452 | once the older encoder holds a stored error, nothing more is written |
| Legacy.LegacyStreamErrorIsFinal | main.go:442-447 | after a stream error the older loop writes nothing more, while each further pass logs the stored error again |
| Legacy.LegacyOneReplyPerDecoded | main.go:442-453 | when every write succeeds, the older loop writes one reply per request decoded before any stream error, notifications included; its decoder holds a stored error exactly when a stream error has occurred |
| Legacy.NotificationAnswered | main.go:449-452 | when no stored error is held, the older loop writes a -32601 reply to `notifications/initialized`, unlike section 4.1 of JSON-RPC 2.0 |
| Legacy.LegacyServeUntilClosed | main.go:442-447 | the older loop corrected to return at the first stream error: it reads nothing past that error and writes the same replies as `LegacyServe` |

## Left out

- The exchange REST calls, HTTP, request signing and the go-coincheck library: they are network calls into code outside the repository. A call is a `Call` value and its outcome is the `exec` parameter.
- JSON decoding and encoding, and `json.MarshalIndent`'s output format: these are library code. A decoded request is a `Request` value, marshalling is the `marshal` parameter, and the success of writing a reply is the `encodes` parameter. A partial write to a failing standard output is not modelled. A marshalling failure inside `Encode`, which Go does not store, cannot occur for these replies and is not modelled.
- Json.TruncateToInt: float64 values are modelled as unbounded reals, so the conversion of NaN, infinities and values outside Go's `int` range is not modelled.
- Floating-point rounding of `price`, `rate` and `amount`: the values are passed through unchanged and never computed with.
- Logging, `os.Stdin`/`os.Stdout` and `context.Background()`: they are I/O and process context.
- Server.Run, Server.Written, Server.WrittenAppend, Server.RequestAnsweredInOrder, Legacy.LegacyServe, Legacy.LegacyWritten and Legacy.LegacyWrittenAppend: one function `exec` answers every exchange call of a session, so the exchange is treated as stateless. An order created by one request does not change what a later `get_open_orders` returns, and the replies to later input do not depend on earlier exchange calls.
- Server.Run and Legacy.LegacyServe: the endless `for` loops run here over a finite sequence of decoder outcomes and return at its end. After a stream error the Go loops never return; they call `Decode` again forever and log the same error each time. The model captures that nothing more is written while the logged errors keep growing, but not the non-termination. The Findings section records this.
- The tools' English and Japanese descriptions, the per-property descriptions, and the constant `"$schema"` and `"type": "object"` entries of every schema: they are display text and constants, with no behaviour.
- The `initialize` payload beyond its protocol version and server name and version: the `capabilities` object is constant.
- main.go `NewMCPServer` (main.go:42-59) has the same environment guard as `NewServer`, which `Server.NewServer` models. Its `log.Fatal` exit from `main` is process lifecycle.
- config/config.go (`LoadConfig`) and client/coincheck.go are not part of this model. They are file I/O and thin wrappers around the client constructor.
- The request's `jsonrpc` field is carried but never consulted, as in both routers.

## Findings

| source | as written | input that shows it | evidently intended | confidence | as-written member | corrected member |
|---|---|---|---|---|---|---|
| mcp/server.go:58-63 | a failed `Decode` is logged and the loop continues, even for a stream error that the decoder returns again on every later call | the client closes standard input: every later `Decode` returns `io.EOF`, and the server never exits, logging "Error decoding request: EOF" forever | return from `Run` when decoding the stream has failed, at least on end of input | not executed; rests on `json.Decoder` storing stream errors | Server.StreamErrorIsFinal | Server.ServeUntilClosed |
| main.go:442-447 | the same loop in `main` | the same closed standard input | let `main` return on a stream error | not executed; rests on `json.Decoder` storing stream errors | Legacy.LegacyStreamErrorIsFinal | Legacy.LegacyServeUntilClosed |
