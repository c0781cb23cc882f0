/**
 * The HTTP/WebSocket gateway: the request record and its mapping onto the
 * upstream body, the choice between a server-sent event stream and one
 * aggregated answer, the WebSocket relay of envelopes, and `/health`.
 */
module Server {
  import opened Wrappers
  import opened Json
  import opened Upstream
  import opened Payload

  datatype ChatMessage = ChatMessage(role: string, content: string)

  /** The request record; each optional field may also be given explicitly as `null`. */
  datatype QueryRequest = QueryRequest(
    repository: string,
    query: string,
    messages: Option<seq<ChatMessage>>,
    filePath: Option<string>,
    stream: Option<bool>,
    language: Option<string>,
    accessToken: Option<string>,
    repoType: Option<string>,
    provider: Option<string>,
    model: Option<string>,
    excludedDirs: Option<string>,
    excludedFiles: Option<string>)

  datatype QueryResponse = QueryResponse(answer: string, contexts: Option<seq<string>>)

  datatype Mode = Streaming | Direct

  /** One item of the `text/event-stream` body: a chunk verbatim, or `json.dumps(value)`. */
  datatype SseItem = Chunk(text: string) | Dumped(value: Value)

  /** What `DeepWikiClient.query` produces: a streaming response, an answer, or an `HTTPException`. */
  datatype QueryReply =
    | EventStream(items: seq<SseItem>)
    | Answer(response: QueryResponse)
    | HttpError(status: int, detail: string)

  /** A JSON response of the web application: its status code and body. */
  datatype HttpReply = HttpReply(status: int, body: map<string, string>)

  const QueryErrorPrefix: string := "Error querying DeepWiki API: "

  /** A request with every field the caller did not give at its declared default. */
  function NewQueryRequest(repository: string, query: string): QueryRequest
  {
    QueryRequest(repository, query, None, None, Some(false), Some("en"), None, Some("github"),
                 Some("google"), None, None, None)
  }

  // ---- Request mapping ----

  /** The conversation sent: the caller's when it is non-empty, else one user message with the query. */
  function ApiMessages(req: QueryRequest): (ms: seq<ChatMessage>)
    ensures ms != []
    ensures req.messages.Some? && req.messages.value != [] ==> ms == req.messages.value
    ensures ms != [ChatMessage("user", req.query)] ==> req.messages.Some? && ms == req.messages.value
  {
    if req.messages.Some? && req.messages.value != [] then req.messages.value
    else [ChatMessage("user", req.query)]
  }

  /** `{"role": msg.role, "content": msg.content}` for each message, in order. */
  function MessageDicts(messages: seq<ChatMessage>): (ds: seq<map<string, string>>)
    ensures |ds| == |messages|
    ensures forall i :: 0 <= i < |messages| ==> ds[i] == MessageDict(messages[i].role, messages[i].content)
  {
    seq(|messages|, i requires 0 <= i < |messages| => MessageDict(messages[i].role, messages[i].content))
  }

  /** The field-for-field projection onto the upstream schema. */
  function ToUpstream(req: QueryRequest): UpstreamRequest
  {
    UpstreamRequest(
      repoUrl := req.repository,
      messages := MessageDicts(ApiMessages(req)),
      filePath := req.filePath,
      token := req.accessToken,
      repoType := req.repoType,
      provider := req.provider,
      model := req.model,
      language := req.language,
      excludedDirs := req.excludedDirs,
      excludedFiles := req.excludedFiles)
  }

  /** `api_request`, shared by `query` and `websocket_query`. */
  function ApiRequest(req: QueryRequest): (body: map<string, Value>)
    ensures body.Keys == FullKeys
  {
    Encode(ToUpstream(req))
  }

  /**
   * The body renames `repository` to `repo_url`, `file_path` to `filePath`,
   * `access_token` to `token` and `repo_type` to `type`, keeps the other
   * names, and sends an unset field as `null`.
   */
  lemma ApiRequestFields(req: QueryRequest)
    ensures var body := ApiRequest(req);
      && body["repo_url"] == JStr(req.repository)
      && body["filePath"] == FromOptional(req.filePath)
      && body["token"] == FromOptional(req.accessToken)
      && body["type"] == FromOptional(req.repoType)
      && body["provider"] == FromOptional(req.provider)
      && body["model"] == FromOptional(req.model)
      && body["language"] == FromOptional(req.language)
      && body["excluded_dirs"] == FromOptional(req.excludedDirs)
      && body["excluded_files"] == FromOptional(req.excludedFiles)
      && (req.filePath == None ==> body["filePath"] == JNull && body["filePath"] != JStr(""))
  {
  }

  /** The upstream reads back exactly the projected request: nothing is lost or altered in the body. */
  lemma ApiRequestReadsBack(req: QueryRequest)
    ensures Decode(ApiRequest(req)) == Some(ToUpstream(req))
  {
    RoundTrip(ToUpstream(req));
  }

  /** A non-empty conversation is forwarded unchanged; an empty or missing one becomes one user message. */
  lemma MessagesForwardedOrSynthesised(req: QueryRequest)
    ensures req.messages.Some? && |req.messages.value| > 0 ==> ApiMessages(req) == req.messages.value
    ensures req.messages == None || req.messages == Some([]) ==>
      ToUpstream(req).messages == [MessageDict("user", req.query)]
  {
    if req.messages == None || req.messages == Some([]) {
      assert MessageDicts([ChatMessage("user", req.query)]) == [MessageDict("user", req.query)];
    }
  }

  /** A request with only the two required fields: its body and its mode. */
  lemma DefaultRequest(repository: string, query: string)
    ensures Decode(ApiRequest(NewQueryRequest(repository, query))) ==
      Some(UpstreamRequest(repository, [MessageDict("user", query)], None, None, Some("github"),
                           Some("google"), None, Some("en"), None, None))
    ensures ModeOf(NewQueryRequest(repository, query)) == Direct
    ensures NewQueryRequest(repository, query).stream == Some(false)
  {
    var req := NewQueryRequest(repository, query);
    MessagesForwardedOrSynthesised(req);
    ApiRequestReadsBack(req);
  }

  /** `if request.stream:` is decided once; `None` and `False` both mean direct. */
  function ModeOf(req: QueryRequest): (m: Mode)
    ensures m == Streaming <==> req.stream == Some(true)
  {
    if req.stream == Some(true) then Streaming else Direct
  }

  /** The flag `stream` selects the mode and nothing else: the body does not depend on it. */
  lemma StreamFlagOnlySelectsMode(req: QueryRequest, flag: Option<bool>)
    ensures ApiRequest(req.(stream := flag)) == ApiRequest(req)
  {
  }

  // ---- Server-sent event stream ----

  function ChunkItems(chunks: seq<string>): (items: seq<SseItem>)
    ensures |items| == |chunks|
    ensures forall i :: 0 <= i < |chunks| ==> items[i] == Chunk(chunks[i])
  {
    seq(|chunks|, i requires 0 <= i < |chunks| => Chunk(chunks[i]))
  }

  /** One more chunk adds one chunk item when it is non-empty, and none otherwise. */
  lemma EventStep(chunks: seq<string>, c: string)
    ensures ChunkItems(NonEmpty(chunks + [c]))
            == ChunkItems(NonEmpty(chunks)) + (if c == "" then [] else [Chunk(c)])
  {
    NonEmptySnoc(chunks, c);
    var kept := NonEmpty(chunks);
    if c != "" {
      assert forall i :: 0 <= i < |kept| ==> (kept + [c])[i] == kept[i];
      assert ChunkItems(kept + [c]) == ChunkItems(kept) + [Chunk(c)];
    } else {
      assert kept + [] == kept;
    }
  }

  /** `json.dumps({"error": str(e)})`, the chunk that reports a failure. */
  function ErrorItem(error: string): SseItem
  {
    Dumped(JObject(map["error" := JStr(error)]))
  }

  /** The event-stream body: every non-empty chunk verbatim, then one error item if the stream failed. */
  function EventItems(up: Stream): seq<SseItem>
  {
    ChunkItems(NonEmpty(up.chunks)) + (if up.outcome.Failed? then [ErrorItem(up.outcome.error)] else [])
  }

  /** `response_stream`: yield each non-empty chunk; on failure yield the error item. */
  method ResponseStream(body: map<string, Value>, upstream: map<string, Value> -> Stream)
    returns (items: seq<SseItem>)
    ensures items == EventItems(upstream(body))
  {
    var up := upstream(body);
    items := [];
    for i := 0 to |up.chunks|
      invariant items == ChunkItems(NonEmpty(up.chunks[..i]))
    {
      assert up.chunks[..i + 1] == up.chunks[..i] + [up.chunks[i]];
      EventStep(up.chunks[..i], up.chunks[i]);
      if up.chunks[i] != "" {
        items := items + [Chunk(up.chunks[i])];
      }
    }
    assert up.chunks[..|up.chunks|] == up.chunks;
    if up.outcome.Failed? {
      items := items + [ErrorItem(up.outcome.error)];
    }
  }

  /** The text a consumer of the event stream reads: the chunks, and the error items as nothing. */
  function ItemsText(items: seq<SseItem>): string
  {
    if items == [] then ""
    else
      var last := items[|items| - 1];
      ItemsText(items[..|items| - 1]) + (if last.Chunk? then last.text else "")
  }

  lemma {:induction false} ItemsTextOfChunks(chunks: seq<string>)
    ensures ItemsText(ChunkItems(chunks)) == Concat(chunks)
    decreases |chunks|
  {
    if chunks != [] {
      var init := chunks[..|chunks| - 1];
      assert ChunkItems(chunks)[..|chunks| - 1] == ChunkItems(init);
      ItemsTextOfChunks(init);
    }
  }

  /** A completed event stream carries exactly the chunks of the stream, and no error item. */
  lemma EventStreamCarriesAnswer(up: Stream)
    requires up.outcome == Completed
    ensures ItemsText(EventItems(up)) == Concat(up.chunks)
    ensures forall i :: 0 <= i < |EventItems(up)| ==> EventItems(up)[i].Chunk?
  {
    assert EventItems(up) == ChunkItems(NonEmpty(up.chunks));
    ItemsTextOfChunks(NonEmpty(up.chunks));
    SkippingEmptyChunksIsInvisible(up.chunks);
  }

  /** A failed event stream keeps the chunks already yielded and ends with exactly one error item. */
  lemma EventStreamReportsFailure(up: Stream)
    requires up.outcome.Failed?
    ensures var items := EventItems(up);
      && |items| == |NonEmpty(up.chunks)| + 1
      && items[..|items| - 1] == ChunkItems(NonEmpty(up.chunks))
      && items[|items| - 1] == ErrorItem(up.outcome.error)
  {
  }

  // ---- Direct answer ----

  /** `_direct_query`: the raw non-empty chunks concatenated, `contexts == []`; a failure propagates. */
  method DirectQuery(body: map<string, Value>, upstream: map<string, Value> -> Stream)
    returns (r: Result<QueryResponse, string>)
    ensures upstream(body).outcome.Completed? ==>
      r == Success(QueryResponse(Concat(upstream(body).chunks), Some([])))
    ensures upstream(body).outcome.Failed? ==> r == Failure(upstream(body).outcome.error)
  {
    var up := upstream(body);
    var responseText := AccumulateRaw(up.chunks);
    if up.outcome.Failed? {
      return Failure(up.outcome.error);
    }
    return Success(QueryResponse(responseText, Some([])));
  }

  /** What `query` returns in direct mode: the answer, or HTTP 500 in place of any partial answer. */
  function DirectReply(up: Stream): QueryReply
  {
    match up.outcome
    case Completed => Answer(QueryResponse(Concat(up.chunks), Some([])))
    case Failed(e) => HttpError(500, QueryErrorPrefix + e)
  }

  /**
   * `DeepWikiClient.query`: build the body, then, by the mode chosen once,
   * return the event stream or the direct answer.  The stream mode never
   * reaches the HTTP 500 handler: its failures are reported inside the stream.
   */
  method Query(req: QueryRequest, upstream: map<string, Value> -> Stream)
    returns (posted: map<string, Value>, reply: QueryReply)
    ensures posted == ApiRequest(req)
    ensures ModeOf(req) == Streaming ==> reply == EventStream(EventItems(upstream(posted)))
    ensures ModeOf(req) == Direct ==> reply == DirectReply(upstream(posted))
  {
    posted := ApiRequest(req);
    if req.stream == Some(true) {
      var items := ResponseStream(posted, upstream);
      reply := EventStream(items);
    } else {
      var r := DirectQuery(posted, upstream);
      match r
      case Success(response) => reply := Answer(response);
      case Failure(e) => reply := HttpError(500, QueryErrorPrefix + e);
    }
  }

  /** Both modes deliver the same text for a completed stream. */
  lemma ModesAgree(up: Stream)
    requires up.outcome == Completed
    ensures DirectReply(up).Answer? && ItemsText(EventItems(up)) == DirectReply(up).response.answer
  {
    EventStreamCarriesAnswer(up);
  }

  // ---- WebSocket relay ----

  /** `{"text": chunk, "done": False}` */
  function DataEnvelope(text: string): map<string, Value>
  {
    map["text" := JStr(text), "done" := JBool(false)]
  }

  /** `{"text": "", "done": True}`, the end of a successful relay. */
  const DoneEnvelope: map<string, Value> := map["text" := JStr(""), "done" := JBool(true)]

  /** `{"error": str(e), "done": True}`, the end of a failed relay. */
  function ErrorEnvelope(error: string): map<string, Value>
  {
    map["error" := JStr(error), "done" := JBool(true)]
  }

  function DataEnvelopes(chunks: seq<string>): (envs: seq<map<string, Value>>)
    ensures |envs| == |chunks|
    ensures forall i :: 0 <= i < |chunks| ==> envs[i] == DataEnvelope(chunks[i])
  {
    seq(|chunks|, i requires 0 <= i < |chunks| => DataEnvelope(chunks[i]))
  }

  /** One more kept chunk adds its data envelope at the end. */
  lemma DataEnvelopesSnoc(kept: seq<string>, c: string)
    ensures DataEnvelopes(kept + [c]) == DataEnvelopes(kept) + [DataEnvelope(c)]
  {
    var after, before := DataEnvelopes(kept + [c]), DataEnvelopes(kept) + [DataEnvelope(c)];
    forall i | 0 <= i < |after|
      ensures after[i] == before[i]
    {
      if i < |kept| {
        assert (kept + [c])[i] == kept[i];
      }
    }
  }

  /** One more chunk adds one data envelope when it is non-empty, and none otherwise. */
  lemma RelayStep(chunks: seq<string>, c: string)
    ensures DataEnvelopes(NonEmpty(chunks + [c]))
            == DataEnvelopes(NonEmpty(chunks)) + (if c == "" then [] else [DataEnvelope(c)])
  {
    NonEmptySnoc(chunks, c);
    if c != "" {
      DataEnvelopesSnoc(NonEmpty(chunks), c);
    } else {
      assert NonEmpty(chunks) + [] == NonEmpty(chunks);
    }
  }

  /** The envelopes the relay sends for a stream: one per non-empty chunk, then one terminal. */
  function RelayTranscript(up: Stream): seq<map<string, Value>>
  {
    DataEnvelopes(NonEmpty(up.chunks)) +
      [if up.outcome.Completed? then DoneEnvelope else ErrorEnvelope(up.outcome.error)]
  }

  /**
   * `websocket_query` once the request is decoded: force streaming, build the
   * same body as `query`, relay each non-empty chunk as soon as it arrives,
   * then send the terminal envelope.  `sent` is what the socket received.
   */
  method WebSocketQuery(request: QueryRequest, upstream: map<string, Value> -> Stream)
    returns (posted: map<string, Value>, sent: seq<map<string, Value>>)
    ensures posted == ApiRequest(request)
    ensures sent == RelayTranscript(upstream(posted))
  {
    var req := request.(stream := Some(true));
    posted := ApiRequest(req);
    var up := upstream(posted);
    sent := [];
    for i := 0 to |up.chunks|
      invariant sent == DataEnvelopes(NonEmpty(up.chunks[..i]))
    {
      assert up.chunks[..i + 1] == up.chunks[..i] + [up.chunks[i]];
      RelayStep(up.chunks[..i], up.chunks[i]);
      if up.chunks[i] != "" {
        sent := sent + [DataEnvelope(up.chunks[i])];
      }
    }
    assert up.chunks[..|up.chunks|] == up.chunks;
    if up.outcome.Completed? {
      sent := sent + [DoneEnvelope];
    } else {
      sent := sent + [ErrorEnvelope(up.outcome.error)];
    }
  }

  /**
   * Exactly one envelope has `done` true, and it is the last; before it come
   * the non-empty chunks in arrival order, each with `done` false.
   */
  lemma RelayEndsWithOneTerminal(up: Stream)
    ensures var t := RelayTranscript(up);
      && |t| == |NonEmpty(up.chunks)| + 1
      && (forall i :: 0 <= i < |t| - 1 ==> t[i] == DataEnvelope(NonEmpty(up.chunks)[i]))
      && (forall i :: 0 <= i < |t| - 1 ==> t[i]["done"] == JBool(false))
      && t[|t| - 1]["done"] == JBool(true)
  {
  }

  /** Success ends with the empty `done` envelope; failure ends with the error and sends no success terminal. */
  lemma RelayTerminalMatchesOutcome(up: Stream)
    ensures up.outcome.Completed? ==> RelayTranscript(up)[|RelayTranscript(up)| - 1] == DoneEnvelope
    ensures up.outcome.Failed? ==>
      RelayTranscript(up)[|RelayTranscript(up)| - 1] == ErrorEnvelope(up.outcome.error) &&
      DoneEnvelope !in RelayTranscript(up)
  {
    var t := RelayTranscript(up);
    if up.outcome.Failed? {
      forall i | 0 <= i < |t| ensures t[i] != DoneEnvelope {
        if i < |t| - 1 {
          assert t[i]["done"] == JBool(false);
        } else {
          assert "text" !in t[i];
        }
      }
    }
  }

  /** The text a client reassembles from the `done: false` envelopes, in order. */
  function RelayedText(envs: seq<map<string, Value>>): string
  {
    if envs == [] then ""
    else
      var e := envs[|envs| - 1];
      RelayedText(envs[..|envs| - 1]) +
        (if "done" in e && e["done"] == JBool(false) && "text" in e && e["text"].JStr? then e["text"].s else "")
  }

  lemma {:induction false} RelayedTextOfData(chunks: seq<string>)
    ensures RelayedText(DataEnvelopes(chunks)) == Concat(chunks)
    decreases |chunks|
  {
    if chunks != [] {
      var init := chunks[..|chunks| - 1];
      assert DataEnvelopes(chunks)[..|chunks| - 1] == DataEnvelopes(init);
      RelayedTextOfData(init);
    }
  }

  /** A client of a successful relay reassembles exactly the direct-mode answer. */
  lemma RelayReassemblesAnswer(up: Stream)
    requires up.outcome == Completed
    ensures RelayedText(RelayTranscript(up)) == DirectReply(up).response.answer
  {
    var t := RelayTranscript(up);
    assert t[..|t| - 1] == DataEnvelopes(NonEmpty(up.chunks));
    RelayedTextOfData(NonEmpty(up.chunks));
    SkippingEmptyChunksIsInvisible(up.chunks);
  }

  // ---- Health ----

  /** `/health`: 200 `healthy`/`connected` when the probe succeeds, else 503 `unhealthy`/`disconnected`. */
  function HealthEndpoint(probe: Probe): (r: HttpReply)
    ensures r.status == 200 <==> probe == Responded(200)
    ensures r.status == 200 ==> r.body == map["status" := "healthy", "deepwiki_api" := "connected"]
    ensures r.status != 200 ==>
      r.status == 503 && r.body == map["status" := "unhealthy", "deepwiki_api" := "disconnected"]
  {
    if HealthCheck(probe) then
      HttpReply(200, map["status" := "healthy", "deepwiki_api" := "connected"])
    else
      HttpReply(503, map["status" := "unhealthy", "deepwiki_api" := "disconnected"])
  }
}
