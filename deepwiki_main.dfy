/**
 * The DeepWiki MCP entry point: the `AskDeepWiki` tool, its client's single
 * synthesised message with the optional deep-research tag, the four-key
 * request body, and the interpreting aggregation of the streamed answer.
 */
module DeepWikiMain {
  import opened Wrappers
  import opened Json
  import opened Upstream
  import opened Payload
  import opened Fragment

  datatype ChatMessage = ChatMessage(role: string, content: string)

  /** The client's request record, with the defaults its fields declare. */
  datatype QueryRequest = QueryRequest(
    repository: string,
    query: string,
    deepResearch: bool,
    messages: Option<seq<ChatMessage>>,
    language: Option<string>,
    repoType: Option<string>,
    provider: Option<string>,
    model: Option<string>)

  datatype QueryResponse = QueryResponse(answer: string)

  /** The tag that asks the upstream for a deeper analysis; one space separates it from the query. */
  const DeepResearchTag: string := "[DEEP RESEARCH]"
  const DefaultModel: string := "gemini-2.5-pro-preview-05-06"
  const StreamErrorPrefix: string := "Error streaming response from DeepWiki API: "

  /** The only keys of the body this client sends. */
  const BodyKeys: set<string> := {"repo_url", "type", "language", "messages"}

  /** A request with every field the caller did not give at its declared default. */
  function NewQueryRequest(repository: string, query: string): QueryRequest
  {
    QueryRequest(repository, query, false, None, Some("en"), Some("github"), Some("google"), Some(DefaultModel))
  }

  /** The content of the one message sent: the query, tagged when deep research is asked for. */
  function UserContent(req: QueryRequest): (content: string)
    ensures |content| > |req.query| <==> req.deepResearch
    ensures !req.deepResearch ==> content == req.query
  {
    if req.deepResearch then DeepResearchTag + " " + req.query else req.query
  }

  /** `messages_for_api`: always exactly one user message; the caller's `messages` are never used. */
  function ApiMessages(req: QueryRequest): (ms: seq<map<string, string>>)
    ensures |ms| == 1 && ms[0] == MessageDict("user", UserContent(req))
  {
    [MessageDict("user", UserContent(req))]
  }

  /** `api_request`: the four-key body. */
  function ApiRequest(req: QueryRequest): (body: map<string, Value>)
    ensures body.Keys == BodyKeys
  {
    map[
      "repo_url" := JStr(req.repository),
      "type" := FromOptional(req.repoType),
      "language" := FromOptional(req.language),
      "messages" := EncodeMessages(ApiMessages(req))]
  }

  /** What the upstream reads from the body: one message, and no file path, token, provider, model or exclusions. */
  lemma ApiRequestReadsBack(req: QueryRequest)
    ensures Decode(ApiRequest(req)) ==
      Some(UpstreamRequest(req.repository, [MessageDict("user", UserContent(req))],
                           None, None, req.repoType, None, None, req.language, None, None))
  {
    MessagesRoundTrip(ApiMessages(req));
  }

  /** A request with only the required fields: the body the upstream reads, and the unused provider and model. */
  lemma DefaultRequestBody(repository: string, query: string)
    ensures Decode(ApiRequest(NewQueryRequest(repository, query))) ==
      Some(UpstreamRequest(repository, [MessageDict("user", query)], None, None, Some("github"),
                           None, None, Some("en"), None, None))
    ensures NewQueryRequest(repository, query).provider == Some("google")
    ensures NewQueryRequest(repository, query).model == Some(DefaultModel)
  {
    ApiRequestReadsBack(NewQueryRequest(repository, query));
  }

  /** With deep research the content is the tag, one space, then the query verbatim. */
  lemma DeepResearchContent(req: QueryRequest)
    requires req.deepResearch
    ensures UserContent(req) == "[DEEP RESEARCH] " + req.query
    ensures |UserContent(req)| == |DeepResearchTag| + 1 + |req.query|
    ensures UserContent(req)[..|DeepResearchTag|] == DeepResearchTag
    ensures UserContent(req)[|DeepResearchTag|] == ' '
    ensures UserContent(req)[|DeepResearchTag| + 1..] == req.query
  {
    assert DeepResearchTag + " " == "[DEEP RESEARCH] ";
    var c := UserContent(req);
    assert c == DeepResearchTag + " " + req.query;
    assert c[..|DeepResearchTag|] == DeepResearchTag;
    assert c[|DeepResearchTag| + 1..] == req.query;
  }

  /** Without deep research the content is the query verbatim. */
  lemma PlainContent(req: QueryRequest)
    requires !req.deepResearch
    ensures ApiMessages(req) == [map["role" := "user", "content" := req.query]]
  {
  }

  /** The caller's `messages`, `provider` and `model` never reach the body. */
  lemma ApiRequestIgnores(req: QueryRequest, messages: Option<seq<ChatMessage>>, provider: Option<string>, model: Option<string>)
    ensures ApiRequest(req.(messages := messages, provider := provider, model := model)) == ApiRequest(req)
  {
  }

  /**
   * What `_stream_query` returns for stream `up` when each non-empty chunk
   * is interpreted by `interpret`: the accumulated text, or, once anything
   * raised (a chunk's interpretation or the stream itself), the error message
   * in its place and none of the partial text.
   */
  function StreamReply(up: Stream, interpret: string -> Result<string, string>): string
  {
    match Collect(up.chunks, interpret)
    case Failure(e) => StreamErrorPrefix + e
    case Success(text) =>
      match up.outcome
      case Completed => text
      case Failed(e) => StreamErrorPrefix + e
  }

  /** `_stream_query`: post the body, interpret and accumulate each non-empty chunk. */
  method StreamQuery(body: map<string, Value>, upstream: map<string, Value> -> Stream,
                     interpret: string -> Result<string, string>) returns (reply: string)
    ensures reply == StreamReply(upstream(body), interpret)
  {
    var up := upstream(body);
    var fullResponse := "";
    var i := 0;
    while i < |up.chunks|
      invariant 0 <= i <= |up.chunks|
      invariant Collect(up.chunks[..i], interpret) == Success(fullResponse)
    {
      var chunk := up.chunks[i];
      assert up.chunks[..i + 1] == up.chunks[..i] + [chunk];
      CollectSnoc(up.chunks[..i], chunk, interpret);
      if chunk != "" {
        var piece := interpret(chunk);
        if piece.Failure? {
          FailureSticks(up.chunks, i + 1, interpret);
          return StreamErrorPrefix + piece.error;
        }
        fullResponse := fullResponse + piece.value;
      }
      i := i + 1;
    }
    assert up.chunks[..i] == up.chunks;
    if up.outcome.Failed? {
      return StreamErrorPrefix + up.outcome.error;
    }
    return fullResponse;
  }

  /** `_direct_query`: the raw non-empty chunks concatenated; a failure propagates as the exception. */
  method DirectQuery(body: map<string, Value>, upstream: map<string, Value> -> Stream)
    returns (r: Result<QueryResponse, string>)
    ensures upstream(body).outcome.Completed? ==> r == Success(QueryResponse(Concat(upstream(body).chunks)))
    ensures upstream(body).outcome.Failed? ==> r == Failure(upstream(body).outcome.error)
  {
    var up := upstream(body);
    var responseText := AccumulateRaw(up.chunks);
    if up.outcome.Failed? {
      return Failure(up.outcome.error);
    }
    return Success(QueryResponse(responseText));
  }

  /**
   * `DeepWikiClient.query`: build the body and stream it.  The handler around
   * the call never runs, because `_stream_query` catches every exception.
   */
  method Query(req: QueryRequest, upstream: map<string, Value> -> Stream,
               decode: string -> Decoded, show: Value -> string)
    returns (posted: map<string, Value>, reply: string)
    ensures posted.Keys == BodyKeys && posted == ApiRequest(req)
    ensures reply == StreamReply(upstream(posted), AsWritten(decode, show))
  {
    posted := ApiRequest(req);
    reply := StreamQuery(posted, upstream, AsWritten(decode, show));
  }

  /** The request the `AskDeepWiki` tool builds from its five arguments. */
  function ToolRequest(repository: string, query: string, repoType: string, language: string,
                       deepResearch: bool): (r: QueryRequest)
    ensures r == NewQueryRequest(repository, query).(repoType := Some(repoType), language := Some(language),
                                                     deepResearch := deepResearch)
  {
    QueryRequest(repository, query, deepResearch, None, Some(language), Some(repoType), Some("google"), Some(DefaultModel))
  }

  /** The `AskDeepWiki` tool: its answer is the client's reply, error text included. */
  method AskDeepWiki(repository: string, query: string, repoType: string, language: string,
                     deepResearch: bool, upstream: map<string, Value> -> Stream,
                     decode: string -> Decoded, show: Value -> string)
    returns (posted: map<string, Value>, answer: string)
    ensures posted == ApiRequest(ToolRequest(repository, query, repoType, language, deepResearch))
    ensures answer == StreamReply(upstream(posted), AsWritten(decode, show))
  {
    posted, answer := Query(ToolRequest(repository, query, repoType, language, deepResearch), upstream, decode, show);
  }

  // ---- What the reply means ----

  /** A completed stream whose chunks all interpret yields exactly the concatenation of their texts. */
  lemma CompletedStreamIsConcatenation(up: Stream, interpret: string -> Result<string, string>, pieces: seq<string>)
    requires up.outcome == Completed
    requires |pieces| == |NonEmpty(up.chunks)|
    requires forall i :: 0 <= i < |pieces| ==> interpret(NonEmpty(up.chunks)[i]) == Success(pieces[i])
    ensures StreamReply(up, interpret) == Concat(pieces)
  {
    CollectConcatenates(up.chunks, interpret, pieces);
  }

  /** A stream that failed after its chunks reports the failure, never the partial text. */
  lemma FailedStreamDiscardsPartialText(up: Stream, interpret: string -> Result<string, string>)
    requires up.outcome.Failed?
    requires forall j :: 0 <= j < |up.chunks| && up.chunks[j] != "" ==> interpret(up.chunks[j]).Success?
    ensures StreamReply(up, interpret) == StreamErrorPrefix + up.outcome.error
  {
    CollectSucceedsIff(up.chunks, interpret);
  }

  /** A chunk whose interpretation raises replaces the whole reply by its error. */
  lemma FaultingChunkDiscardsPartialText(up: Stream, interpret: string -> Result<string, string>, k: nat)
    requires k < |up.chunks| && up.chunks[k] != "" && interpret(up.chunks[k]).Failure?
    requires forall j :: 0 <= j < k && up.chunks[j] != "" ==> interpret(up.chunks[j]).Success?
    ensures StreamReply(up, interpret) == StreamErrorPrefix + interpret(up.chunks[k]).error
  {
    CollectFailsAtFirstFault(up.chunks, interpret, k);
  }
}
