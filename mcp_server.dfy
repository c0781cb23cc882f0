/**
 * The MCP server built on the protocol SDK: the `query_repository` tool and
 * its client, which forwards every argument under the upstream's key names
 * and returns the raw concatenated answer, and the `health_check` tool.
 */
module McpServer {
  import opened Wrappers
  import opened Json
  import opened Upstream
  import opened Payload

  /** The arguments of `query_repository`; `messages` are forwarded as the dicts the caller gave. */
  datatype QueryArgs = QueryArgs(
    repoUrl: string,
    query: string,
    messages: Option<seq<map<string, string>>>,
    filePath: Option<string>,
    repoType: string,
    provider: string,
    model: Option<string>,
    language: string,
    accessToken: Option<string>,
    excludedDirs: Option<string>,
    excludedFiles: Option<string>)

  const QueryErrorPrefix: string := "Error querying DeepWiki API: "
  const ToolErrorPrefix: string := "Error: "

  /** The arguments of a call that gives only the two required ones. */
  function DefaultArgs(repoUrl: string, query: string): QueryArgs
  {
    QueryArgs(repoUrl, query, None, None, "github", "google", None, "en", None, None, None)
  }

  /** `if messages is None`: only a missing conversation is replaced; an empty list is kept. */
  function ApiMessages(a: QueryArgs): (ms: seq<map<string, string>>)
    ensures a.messages.Some? ==> ms == a.messages.value
    ensures ms == [] ==> a.messages == Some([])
    ensures a.messages == None ==> ms == [MessageDict("user", a.query)]
  {
    match a.messages
    case None => [MessageDict("user", a.query)]
    case Some(ms) => ms
  }

  function ToUpstream(a: QueryArgs): UpstreamRequest
  {
    UpstreamRequest(
      repoUrl := a.repoUrl,
      messages := ApiMessages(a),
      filePath := a.filePath,
      token := a.accessToken,
      repoType := Some(a.repoType),
      provider := Some(a.provider),
      model := a.model,
      language := Some(a.language),
      excludedDirs := a.excludedDirs,
      excludedFiles := a.excludedFiles)
  }

  /** `api_request`: all ten keys. */
  function ApiRequest(a: QueryArgs): (body: map<string, Value>)
    ensures body.Keys == FullKeys
  {
    Encode(ToUpstream(a))
  }

  /** The renames `file_path` to `filePath`, `access_token` to `token`, `repo_type` to `type`; unset is `null`. */
  lemma ApiRequestFields(a: QueryArgs)
    ensures var body := ApiRequest(a);
      && body["repo_url"] == JStr(a.repoUrl)
      && body["filePath"] == FromOptional(a.filePath)
      && body["token"] == FromOptional(a.accessToken)
      && body["type"] == JStr(a.repoType)
      && body["provider"] == JStr(a.provider)
      && body["model"] == FromOptional(a.model)
      && body["language"] == JStr(a.language)
      && body["excluded_dirs"] == FromOptional(a.excludedDirs)
      && body["excluded_files"] == FromOptional(a.excludedFiles)
  {
  }

  /** The upstream reads back exactly the projected arguments. */
  lemma ApiRequestReadsBack(a: QueryArgs)
    ensures Decode(ApiRequest(a)) == Some(ToUpstream(a))
  {
    RoundTrip(ToUpstream(a));
  }

  /** Any given conversation, the empty one included, is forwarded unchanged. */
  lemma GivenMessagesForwarded(a: QueryArgs)
    requires a.messages.Some?
    ensures Decode(ApiRequest(a)).Some? && Decode(ApiRequest(a)).value.messages == a.messages.value
  {
    ApiRequestReadsBack(a);
  }

  /** A missing conversation becomes one user message carrying the query, whatever the other arguments. */
  lemma MissingMessagesSynthesised(a: QueryArgs)
    requires a.messages == None
    ensures Decode(ApiRequest(a)).Some? && Decode(ApiRequest(a)).value.messages == [MessageDict("user", a.query)]
  {
    ApiRequestReadsBack(a);
  }

  /** The body of a call with only the required arguments. */
  lemma DefaultBody(repoUrl: string, query: string)
    ensures Decode(ApiRequest(DefaultArgs(repoUrl, query))) ==
      Some(UpstreamRequest(repoUrl, [MessageDict("user", query)], None, None, Some("github"),
                           Some("google"), None, Some("en"), None, None))
  {
    ApiRequestReadsBack(DefaultArgs(repoUrl, query));
  }

  /** What `DeepWikiClient.query_repository` returns or raises for a stream. */
  function ClientReply(up: Stream): Result<string, string>
  {
    match up.outcome
    case Completed => Success(Concat(up.chunks))
    case Failed(e) => Failure(QueryErrorPrefix + e)
  }

  /** `DeepWikiClient.query_repository`: the raw non-empty chunks concatenated, or the wrapped exception. */
  method ClientQueryRepository(a: QueryArgs, upstream: map<string, Value> -> Stream)
    returns (posted: map<string, Value>, r: Result<string, string>)
    ensures posted == ApiRequest(a)
    ensures upstream(posted).outcome.Completed? ==> r == Success(Concat(NonEmpty(upstream(posted).chunks)))
    ensures upstream(posted).outcome.Failed? ==> r == Failure(QueryErrorPrefix + upstream(posted).outcome.error)
    ensures r == ClientReply(upstream(posted))
  {
    posted := ApiRequest(a);
    var up := upstream(posted);
    var responseText := AccumulateRaw(up.chunks);
    if up.outcome.Failed? {
      return posted, Failure(QueryErrorPrefix + up.outcome.error);
    }
    return posted, Success(responseText);
  }

  /** The `query_repository` tool's answer: the reply, or `"Error: " + str(e)`. */
  function ToolAnswer(r: Result<string, string>): string
  {
    match r
    case Success(text) => text
    case Failure(e) => ToolErrorPrefix + e
  }

  /** The `query_repository` tool: call the client and turn any exception into an error text. */
  method QueryRepositoryTool(a: QueryArgs, upstream: map<string, Value> -> Stream)
    returns (posted: map<string, Value>, answer: string)
    ensures posted == ApiRequest(a)
    ensures answer == ToolAnswer(ClientReply(upstream(posted)))
  {
    var r;
    posted, r := ClientQueryRepository(a, upstream);
    answer := ToolAnswer(r);
  }

  /** A failed stream yields the doubly prefixed error text and none of the partial answer. */
  lemma ToolFailureText(up: Stream)
    requires up.outcome.Failed?
    ensures ToolAnswer(ClientReply(up)) == "Error: Error querying DeepWiki API: " + up.outcome.error
  {
    assert ToolErrorPrefix + QueryErrorPrefix == "Error: Error querying DeepWiki API: ";
  }

  /** The `health_check` tool: what the client's check returned, or the exception it raised. */
  function HealthTool(check: Result<bool, string>): (status: map<string, string>)
    ensures check == Success(true) ==> status == map["status" := "healthy", "deepwiki_api" := "connected"]
    ensures check == Success(false) ==> status == map["status" := "unhealthy", "deepwiki_api" := "disconnected"]
    ensures check.Failure? ==> status == map["status" := "error", "message" := check.error]
  {
    match check
    case Success(true) => map["status" := "healthy", "deepwiki_api" := "connected"]
    case Success(false) => map["status" := "unhealthy", "deepwiki_api" := "disconnected"]
    case Failure(e) => map["status" := "error", "message" := e]
  }

  /** The tool over a probe: the client's check catches every exception, so `error` never comes back. */
  lemma HealthToolOverProbe(probe: Probe)
    ensures var status := HealthTool(Success(HealthCheck(probe)));
      && status["status"] != "error"
      && (status["status"] == "healthy" <==> probe == Responded(200))
  {
  }
}
