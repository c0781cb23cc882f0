/**
 * The three gateway variants side by side: where their request mappings and
 * their aggregated answers agree, and the one input on which their
 * conversation rules differ.
 */
module Variants {
  import opened Wrappers
  import opened Upstream
  import opened Payload
  import Fragment
  import DeepWikiMain
  import Server
  import McpServer

  /** A server conversation as the dicts the SDK-based server's caller would pass. */
  function AsDicts(messages: Option<seq<Server.ChatMessage>>): Option<seq<map<string, string>>>
  {
    match messages
    case None => None
    case Some(ms) => Some(Server.MessageDicts(ms))
  }

  /** With only the required fields given, both full-body variants send the same body. */
  lemma DefaultBodiesAgree(repository: string, query: string)
    ensures Server.ApiRequest(Server.NewQueryRequest(repository, query)) ==
            McpServer.ApiRequest(McpServer.DefaultArgs(repository, query))
  {
    var s := Server.NewQueryRequest(repository, query);
    var m := McpServer.DefaultArgs(repository, query);
    Server.MessagesForwardedOrSynthesised(s);
    assert Server.ToUpstream(s) == McpServer.ToUpstream(m);
  }

  /**
   * The conversation rules agree on every conversation but the empty one:
   * the server replaces `[]` by the query, the SDK-based server forwards `[]`.
   */
  lemma ConversationRulesDifferOnlyOnEmpty(repository: string, query: string,
                                            messages: Option<seq<Server.ChatMessage>>)
    ensures var s := Server.NewQueryRequest(repository, query).(messages := messages);
      var m := McpServer.DefaultArgs(repository, query).(messages := AsDicts(messages));
      && (messages != Some([]) ==> Server.ToUpstream(s).messages == McpServer.ToUpstream(m).messages)
      && (messages == Some([]) ==>
            Server.ToUpstream(s).messages == [MessageDict("user", query)] &&
            McpServer.ToUpstream(m).messages == [])
  {
    var s := Server.NewQueryRequest(repository, query).(messages := messages);
    Server.MessagesForwardedOrSynthesised(s);
    if messages.Some? && messages.value != [] {
      assert Server.ToUpstream(s).messages == Server.MessageDicts(messages.value);
    } else if messages == Some([]) {
      assert Server.MessageDicts([]) == [];
    }
  }

  /**
   * Without deep research the entry point sends the one message the server
   * synthesises, but neither a provider nor a model.
   */
  lemma EntryPointAgreesWithServer(repository: string, query: string)
    ensures var e := Decode(DeepWikiMain.ApiRequest(DeepWikiMain.NewQueryRequest(repository, query)));
      var s := Decode(Server.ApiRequest(Server.NewQueryRequest(repository, query)));
      && e.Some? && s.Some?
      && e.value.messages == s.value.messages
      && e.value.repoUrl == s.value.repoUrl && e.value.repoType == s.value.repoType
      && e.value.language == s.value.language
      && e.value.provider == None && s.value.provider == Some("google")
      && e.value.model == None
  {
    DeepWikiMain.ApiRequestReadsBack(DeepWikiMain.NewQueryRequest(repository, query));
    Server.DefaultRequest(repository, query);
  }

  /**
   * For a completed stream the gateway's direct reply and the SDK client's reply are the raw
   * concatenation; the entry point's streaming reply differs from it only by interpretation.
   */
  lemma RawAnswersAgree(up: Stream)
    requires up.outcome == Completed
    ensures Server.DirectReply(up) == Server.Answer(Server.QueryResponse(Concat(up.chunks), Some([])))
    ensures McpServer.ClientReply(up) == Success(Concat(up.chunks))
    ensures DeepWikiMain.StreamReply(up, Fragment.Verbatim()) == Concat(up.chunks)
  {
    Fragment.CollectVerbatim(up.chunks);
  }

  /** For a failed stream, the two raising paths report the same error text. */
  lemma RaisedErrorsAgree(up: Stream)
    requires up.outcome.Failed?
    ensures Server.DirectReply(up) == Server.HttpError(500, McpServer.ClientReply(up).error)
  {
  }
}
