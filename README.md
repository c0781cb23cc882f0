# DeepWiki MCP gateway: a Dafny model of its request-translation and streaming-relay core

The repository is a thin gateway in front of the DeepWiki knowledge service.
A tool call or HTTP/WebSocket request becomes a JSON body POSTed to the
upstream streaming chat endpoint. The streamed answer comes back in one of
three ways: aggregated into one string, relayed chunk by chunk, or (in one
variant) interpreted chunk by chunk as possibly-JSON fragments. Three
near-duplicate variants carry this core:

- `deepwiki_mcp/main.py` is the `AskDeepWiki` tool. It always sends one synthesised user message, tagged `[DEEP RESEARCH] ` on request, in a four-key body. It reads the answer through the fragment interpreter (`text`, then `content`, then `delta.content`, then `str(value)`, with verbatim fallback).
- `mcp/server.py` is the FastAPI gateway: the ten-key body, the choice between a server-sent event stream and a direct answer, the WebSocket envelope relay, and `/health`.
- `mcp/mcp_server.py` is the SDK-based `query_repository` and `health_check` tools.

## How the model is built

- The upstream is abstracted as `Upstream.Stream(chunks, outcome)`: the text chunks delivered in arrival order, then `Completed` or `Failed(str(e))`. A failure after k chunks is a stream of k chunks with a `Failed` outcome. The network is a parameter `upstream: map<string, Value> -> Stream`. The methods that build the body themselves (`DeepWikiMain.Query`, `DeepWikiMain.AskDeepWiki`, `Server.Query`, `Server.WebSocketQuery`, `McpServer.ClientQueryRepository`, `McpServer.QueryRepositoryTool`) apply it to the body they post and also return that body (`posted`). The lower-level methods (`DeepWikiMain.StreamQuery`, `DeepWikiMain.DirectQuery`, `Server.DirectQuery`, `Server.ResponseStream`) take the body as an argument.
- JSON is `Json.Value`. `json.loads` is an abstract parameter `decode: string -> Decoded`: `NotJson` for `JSONDecodeError`, `Parsed(value)`, or `DecodeRaised(error)` for any other exception `json.loads` raises, such as the `ValueError` of an integer past the digit limit or a `RecursionError` on deep nesting. Python's `str()` of a non-string value is an abstract parameter `show`.
- Python's `in`, subscript and `+=` are modelled on every decoded shape (`Fragment.Contains`, `Subscript`, `Appended`). So the shapes on which `_stream_query` raises `TypeError` are part of the model. Example: a decoded string is searched as a substring, and a number is "not iterable". The error texts are those of CPython 3.12.
- The accumulation loops are methods proved against specification functions: `Upstream.AccumulateRaw` against `Concat(NonEmpty(chunks))`, `DeepWikiMain.StreamQuery` against `Fragment.Collect`, `Server.ResponseStream` against `EventItems`, and `Server.WebSocketQuery` against `RelayTranscript`. The three raw loops of the source (`_direct_query` in `deepwiki_mcp/main.py` and in `mcp/server.py`, and the client loop behind `query_repository`) share `AccumulateRaw`.
- `health_check` of the three clients is identical and modelled once: `Upstream.HealthCheck` over a `Probe` (a status code, or an exception).

In these places the code behaves differently from what a caller might expect; the model follows the code:

- No check rejects an empty query or repository. The values are forwarded as given.
- `httpx`'s `stream()` does not raise on a non-2xx status. An error status's body is streamed as ordinary chunks. Only an exception (connection, DNS, timeout, broken stream) is a failure.
- The fragment interpreter is not total. A `TypeError` while probing a decoded value ends the whole aggregation with an error (see Findings).
- The `"Error querying DeepWiki API: "` handler of `DeepWikiClient.query` in `deepwiki_mcp/main.py:168-173` cannot run, because `_stream_query` catches every `Exception` itself. The model has no path to it.
- In `mcp/mcp_server.py` the `health_check` tool's `error` branch (lines 188-190) cannot run either, because the client's `health_check` catches every `Exception` (`McpServer.HealthToolOverProbe`).
- In `/health` the healthy body is `{"status": "healthy", "deepwiki_api": "connected"}`, with both keys.

## Model

| member | source | states |
|---|---|---|
| Upstream.HealthCheck | deepwiki_mcp/main.py:115-125 | the client probe is available exactly when the GET answered 200; any other status and any exception give false (the same code is at mcp/server.py:99-109 and mcp/mcp_server.py:35-45) |
| Upstream.AccumulateRaw | mcp/server.py:178-184 | the accumulated response text is the in-order concatenation of the non-empty chunks, which equals the concatenation of all chunks |
| Upstream.SkippingEmptyChunksIsInvisible | mcp/server.py:183-184 | the `if chunk:` guard never changes raw concatenated text |
| Upstream.NonEmpty | deepwiki_mcp/main.py:185 | the chunks kept by `if chunk:` are non-empty, drawn from the stream, and no more than were delivered |
| Upstream.NonEmptyKeepsEveryNonEmpty | deepwiki_mcp/main.py:185 | every non-empty chunk delivered is kept, so with `NonEmpty` the guard keeps exactly the non-empty chunks |
| Upstream.NonEmptyIdempotent | deepwiki_mcp/main.py:185 | a stream already passed through `if chunk:` passes through it unchanged |
| Upstream.NonEmptyAppend | mcp/server.py:182-184 | filtering a stream split in two is filtering each part, in order |
| Upstream.ConcatAppend | mcp/server.py:184 | appending chunk by chunk builds the concatenation of any split of the chunks |
| Json.FromOptional | mcp/server.py:133-140 | an unset optional field is sent as `null`, and a set one as its string; never `""` for unset |
| Json.DictRoundTrip | mcp/mcp_server.py:85 | a `Dict[str, str]` message survives JSON encoding unchanged |
| Payload.Encode | mcp/server.py:130-141 | the full body has exactly the ten keys `repo_url`, `messages`, `filePath`, `token`, `type`, `provider`, `model`, `language`, `excluded_dirs`, `excluded_files` |
| Payload.MessagesRoundTrip | mcp/server.py:132 | the list of message dicts decodes back to the same dicts in the same order |
| Payload.EncodeReadsBack | mcp/server.py:130-141 | each of the ten keys reads back as the field it was built from: the URL as a string, the messages in order, unset optionals as unset |
| Payload.RoundTrip | mcp/server.py:130-141 | the upstream reads back from the body exactly the request record that was encoded |
| Payload.EncodeInjective | mcp/server.py:133-140 | different request records give different bodies; in particular unset and `""` are distinguishable |
| Fragment.Contains | deepwiki_mcp/main.py:190-194 | Python's `in` succeeds exactly on a dict, a string or a list, and raises "not iterable" on every scalar; on a dict it tests the keys, on a list the elements |
| Fragment.Subscript | deepwiki_mcp/main.py:191-195 | Python's `v[key]` succeeds exactly when `v` is a dict holding `key`, and then yields that key's value |
| Fragment.Appended | deepwiki_mcp/main.py:191 | `+=` appends exactly a string value, and raises `TypeError` for every other value |
| Fragment.Extract | deepwiki_mcp/main.py:189-197 | a decoded null, boolean or number raises "argument of type '<T>' is not iterable"; a decoded string contributes itself exactly when it mentions none of `text`, `content`, `delta`; a decoded list contributes exactly when none of those three strings is an element |
| Fragment.Interpret | deepwiki_mcp/main.py:187-200 | a chunk that fails to decode with `JSONDecodeError` contributes itself and never raises; any other exception of `json.loads` (an over-long integer's `ValueError`, a `RecursionError`) is not caught and becomes the chunk's error |
| Fragment.TextWins | deepwiki_mcp/main.py:190-191 | a decoded object with `text` contributes `parsed['text']` whatever `content` or `delta` hold |
| Fragment.ContentBeforeDelta | deepwiki_mcp/main.py:192-193 | without `text`, `content` wins over `delta` |
| Fragment.DeltaContent | deepwiki_mcp/main.py:194-195 | without `text` and `content`, an object `delta` holding `content` contributes `delta.content` |
| Fragment.NoRecognisedKey | deepwiki_mcp/main.py:196-197 | an object with none of the keys (or with a `delta` object lacking `content`) contributes `str(parsed)` |
| Fragment.UndecodableIsVerbatim | deepwiki_mcp/main.py:198-200 | a chunk that fails to decode contributes itself verbatim |
| Fragment.Collect | deepwiki_mcp/main.py:182-200 | a failed aggregate carries the error of some non-empty chunk whose interpretation raised |
| Fragment.FailureSticks | deepwiki_mcp/main.py:187-207 | once a chunk's interpretation has raised, later chunks do not change the result |
| Fragment.CollectConcatenates | deepwiki_mcp/main.py:182-203 | when every non-empty chunk interprets, the aggregate is the in-order concatenation of their texts; empty chunks contribute nothing |
| Fragment.CollectFailsAtFirstFault | deepwiki_mcp/main.py:187-207 | the first non-empty chunk whose interpretation raises decides the aggregate: its error, none of the partial text |
| Fragment.CollectSucceedsIff | deepwiki_mcp/main.py:182-207 | the aggregate succeeds if and only if no non-empty chunk's interpretation raises |
| Fragment.CollectVerbatim | deepwiki_mcp/main.py:215-220 | aggregating without interpretation gives the raw concatenation of the chunks |
| Fragment.NumberChunkRaises | deepwiki_mcp/main.py:189-190 | as written, a chunk decoding to the number 42 raises `argument of type 'int' is not iterable` |
| Fragment.NumberChunkLosesAnswer | deepwiki_mcp/main.py:182-207 | as written, the stream `["The answer is ", "42"]` aggregates to that error, losing the answer |
| Fragment.InterpretTotal | deepwiki_mcp/main.py:198-200 | corrected: agrees with the interpreter wherever it succeeds, and falls back to the chunk verbatim wherever it would raise |
| Fragment.InterpretTotalNeverFails | deepwiki_mcp/main.py:182-203 | corrected: aggregation never fails and is the in-order concatenation of every non-empty chunk's text |
| DeepWikiMain.UserContent | deepwiki_mcp/main.py:142 | the content is longer than the query exactly when deep research is asked for, and is the query itself otherwise |
| DeepWikiMain.ApiMessages | deepwiki_mcp/main.py:139-144 | exactly one message, role `user`, whose content is the (possibly tagged) query |
| DeepWikiMain.ApiRequest | deepwiki_mcp/main.py:147-152 | the body has exactly the keys `repo_url`, `type`, `language`, `messages` |
| DeepWikiMain.ApiRequestReadsBack | deepwiki_mcp/main.py:147-152 | the upstream reads the repository, type, language and the one message; file path, token, provider, model and exclusions are absent |
| DeepWikiMain.DefaultRequestBody | deepwiki_mcp/main.py:80-88 | with only repository and query given, the body carries `github`, `en` and the untagged query; the defaults `google` and the Gemini model are not sent |
| DeepWikiMain.DeepResearchContent | deepwiki_mcp/main.py:142 | with deep research the content is `"[DEEP RESEARCH]"`, a single space, then the query verbatim |
| DeepWikiMain.PlainContent | deepwiki_mcp/main.py:142 | without deep research the only message is `{role: "user", content: query}` |
| DeepWikiMain.ApiRequestIgnores | deepwiki_mcp/main.py:139-152 | caller-supplied `messages`, `provider` and `model` do not affect the body |
| DeepWikiMain.StreamQuery | deepwiki_mcp/main.py:175-207 | the reply is the interpreted aggregate of the stream, or `"Error streaming response from DeepWiki API: "` plus the error of the first chunk that raised or of the failed stream |
| DeepWikiMain.CompletedStreamIsConcatenation | deepwiki_mcp/main.py:182-203 | a completed stream whose chunks all interpret replies with exactly the concatenation of their texts |
| DeepWikiMain.FailedStreamDiscardsPartialText | deepwiki_mcp/main.py:204-207 | a failed stream replies with the error message, never the partial text |
| DeepWikiMain.FaultingChunkDiscardsPartialText | deepwiki_mcp/main.py:187-207 | a chunk whose probing raises replaces the whole reply by the streaming error message |
| DeepWikiMain.DirectQuery | deepwiki_mcp/main.py:209-227 | the answer is the raw concatenation of the chunks; a failure propagates as the exception |
| DeepWikiMain.Query | deepwiki_mcp/main.py:127-173 | posts the four-key body and returns the streaming reply for it |
| DeepWikiMain.ToolRequest | deepwiki_mcp/main.py:260-266 | the tool's request is the defaulted record with the given repository type, language and deep-research flag |
| DeepWikiMain.AskDeepWiki | deepwiki_mcp/main.py:238-270 | posts the body of the tool's request and answers with the client's reply, error text included |
| Server.ApiMessages | mcp/server.py:122-127 | the conversation sent is never empty; a non-empty given conversation is sent as is, and anything other than the single synthesised user message comes from the caller (the same rule is repeated at lines 265-270 for the WebSocket) |
| Server.MessageDicts | mcp/server.py:132 | one `{"role", "content"}` dict per message, in order |
| Server.ApiRequest | mcp/server.py:130-141 | the body has exactly the ten upstream keys |
| Server.ApiRequestFields | mcp/server.py:130-141 | `repository`→`repo_url`, `file_path`→`filePath`, `access_token`→`token`, `repo_type`→`type`, other names kept; unset is `null` |
| Server.ApiRequestReadsBack | mcp/server.py:130-141 | the upstream reads back exactly the projected request |
| Server.MessagesForwardedOrSynthesised | mcp/server.py:122-127 | a non-empty conversation is forwarded unchanged; an empty or missing one becomes `[{role: "user", content: query}]` |
| Server.DefaultRequest | mcp/server.py:64-73 | with only repository and query given, the body has `github`, `google`, `en`, one user message, and `null` for the rest, and the mode is direct |
| Server.ModeOf | mcp/server.py:145-148 | the mode is streaming exactly when `stream` is true; `None` and false are direct |
| Server.StreamFlagOnlySelectsMode | mcp/server.py:262 | forcing `stream` (as the WebSocket does) does not change the body |
| Server.ResponseStream | mcp/server.py:156-168 | yields every non-empty chunk verbatim, then one `json.dumps({"error": msg})` item if the stream failed |
| Server.EventStreamCarriesAnswer | mcp/server.py:162-165 | a completed event stream holds only chunks, and their text is the whole answer |
| Server.EventStreamReportsFailure | mcp/server.py:166-168 | a failed event stream keeps the chunks already yielded and ends with exactly one error item |
| Server.DirectQuery | mcp/server.py:172-192 | the answer is the raw concatenation of the chunks and `contexts == []`; a failure propagates |
| Server.Query | mcp/server.py:143-151 | stream mode returns the event stream; direct mode returns the answer, or HTTP 500 with `"Error querying DeepWiki API: " + msg` in place of any partial answer |
| Server.ModesAgree | mcp/server.py:145-148 | for a completed stream both modes deliver the same text |
| Server.WebSocketQuery | mcp/server.py:261-318 | sends one `{text: chunk, done: false}` per non-empty chunk in order, then `{text: "", done: true}` on success or one `{error: msg, done: true}` on failure |
| Server.RelayEndsWithOneTerminal | mcp/server.py:296-318 | exactly one envelope has `done` true and it is the last; the ones before carry the non-empty chunks in order |
| Server.RelayTerminalMatchesOutcome | mcp/server.py:307-318 | success ends with the empty `done` envelope; failure ends with the error envelope and no success terminal is sent |
| Server.RelayReassemblesAnswer | mcp/server.py:296-305 | a client that concatenates the `done: false` texts of a successful relay gets the direct-mode answer |
| Server.HealthEndpoint | mcp/server.py:214-226 | 200 with `healthy`/`connected` exactly when the probe answered 200, else 503 with `unhealthy`/`disconnected` |
| McpServer.ApiRequest | mcp/mcp_server.py:83-94 | the body has exactly the ten upstream keys |
| McpServer.ApiRequestFields | mcp/mcp_server.py:83-94 | `file_path`→`filePath`, `access_token`→`token`, `repo_type`→`type`, other names kept; unset optionals are `null` |
| McpServer.ApiRequestReadsBack | mcp/mcp_server.py:83-94 | the upstream reads back exactly the projected arguments |
| McpServer.ApiMessages | mcp/mcp_server.py:80-81 | a given conversation is kept; a missing one becomes one user message with the query; the conversation is empty only when the caller passed `[]` |
| McpServer.GivenMessagesForwarded | mcp/mcp_server.py:80-81 | any given conversation, the empty list included, is forwarded unchanged |
| McpServer.MissingMessagesSynthesised | mcp/mcp_server.py:80-81 | whatever the other arguments, a missing conversation reaches the upstream as `[{role: "user", content: query}]` |
| McpServer.DefaultBody | mcp/mcp_server.py:120-131 | with only the required arguments, the body has `github`, `google`, `en`, one user message with the query, and `null` for the rest |
| McpServer.ClientQueryRepository | mcp/mcp_server.py:96-111 | the answer is the raw concatenation of the non-empty chunks; a failure raises `"Error querying DeepWiki API: " + msg` and returns no partial text |
| McpServer.QueryRepositoryTool | mcp/mcp_server.py:154-171 | the tool answers with the client's text, or `"Error: " + str(e)` |
| McpServer.ToolFailureText | mcp/mcp_server.py:169-171 | a failed stream answers `"Error: Error querying DeepWiki API: " + msg` |
| McpServer.HealthTool | mcp/mcp_server.py:181-190 | true gives `healthy`/`connected`, false gives `unhealthy`/`disconnected`, an exception gives `error` with its message |
| McpServer.HealthToolOverProbe | mcp/mcp_server.py:35-45 | over the client's check the tool never reports `error`, and reports `healthy` exactly when the probe answered 200 |
| Variants.DefaultBodiesAgree | mcp/server.py:130-141 | with only repository and query given, the gateway and the SDK-based server send the same body |
| Variants.ConversationRulesDifferOnlyOnEmpty | mcp/mcp_server.py:80-81 | the two conversation rules agree except on `[]`, which the gateway replaces by the query and the SDK-based server forwards |
| Variants.EntryPointAgreesWithServer | deepwiki_mcp/main.py:139-152 | without deep research the entry point sends the gateway's synthesised message, repository, type and language, but no provider and no model |
| Variants.RawAnswersAgree | mcp/mcp_server.py:100-108 | for a completed stream the gateway's direct reply and the SDK client's reply are both the raw concatenation; the entry point's streaming reply, taken with the identity interpreter, is that same text, so interpretation is the only thing that sets it apart |
| Variants.RaisedErrorsAgree | mcp/server.py:149-151 | the gateway's HTTP 500 detail and the SDK client's exception text are the same |

## Findings

| source | as written | input that shows it | evidently intended | confidence | as-written member | corrected member |
|---|---|---|---|---|---|---|
| deepwiki_mcp/main.py:189-200 | a chunk that decodes to a JSON number, boolean or `null` reaches `'text' in parsed`, which raises `TypeError`. Only `JSONDecodeError` is caught per chunk, so the outer handler replaces the whole answer by an error message. The same happens when `json.loads` itself raises something other than `JSONDecodeError` | the chunks `"The answer is "` and `"42"`: the reply is `Error streaming response from DeepWiki API: argument of type 'int' is not iterable` | a chunk whose shape is not recognised degrades to verbatim text, as the decode-failure fallback does | medium; not executed | Fragment.NumberChunkLosesAnswer | Fragment.InterpretTotalNeverFails |

`DeepWikiMain.StreamQuery` takes the interpreter as a parameter. `DeepWikiMain.Query` passes it the interpreter as written, because that is the code. With `Fragment.Lenient`, the corrected interpreter, the same method never fails on a completed stream.

## Left out

- HTTP transport is not modelled: the `httpx` clients, their timeouts (60 s, 300 s, none), the fixed upstream URL, and the request headers. The upstream is the `upstream` parameter. Any exception it raises, from connecting to the last chunk, is a `Failed` outcome.
- The FastAPI and FastMCP plumbing is not modelled: application setup, CORS, route decorators, `StreamingResponse` media types, the SSE transport, startup and shutdown hooks, and the root information endpoint of `mcp/server.py`. The `/query` route calls `DeepWikiClient.query` in both of its branches; `Server.Query` is that call.
- WebSocket transport is not modelled: `accept`, `receive_text`, decoding the inbound request, validation errors and the outer error envelope (mcp/server.py:253-259, 320-331), and client disconnection. `Server.WebSocketQuery` starts from a decoded request, and its `sent` is everything the socket accepted.
- The `ServerSession._received_request` patch is not modelled. It changes a foreign library at run time.
- Hostname resolution, environment configuration and logging (including the loop that dumps the request body) are not modelled.
- JSON parsing and Python's `str()` of a non-string value are the abstract parameters `decode` and `show`. The JSON text of `json.dumps({"error": msg})` is represented by the value it encodes (`Server.SseItem.Dumped`).
- `response_format` and the WebSocket's `response_text` accumulator are not modelled. Neither affects anything.
- `mcp/main.py` and `mcp/examples/mcp_client.py` are not part of this model. They are an entry point and a demo client with no logic of the core.
- Fragment.Subscript: a `KeyError` for a missing key cannot occur (every subscript follows a successful `in` test). It is given Python's message only so that the function is total.
- Fragment.Contains: only CPython 3.12's wording of the `TypeError` messages is modelled. Other Python versions word some of them differently.
