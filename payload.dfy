/**
 * The body POSTed to the upstream streaming chat endpoint, as a typed record
 * and as the JSON object the gateway sends.
 */
module Payload {
  import opened Wrappers
  import opened Json

  /**
   * The upstream request schema.  Every optional field is `None` when the
   * caller left it unset; it is then sent as `null` (or, by a variant that
   * omits the key, not sent at all), never as an empty string.
   */
  datatype UpstreamRequest = UpstreamRequest(
    repoUrl: string,
    messages: seq<map<string, string>>,
    filePath: Option<string>,
    token: Option<string>,
    repoType: Option<string>,
    provider: Option<string>,
    model: Option<string>,
    language: Option<string>,
    excludedDirs: Option<string>,
    excludedFiles: Option<string>)

  /** The ten keys of the full request body. */
  const FullKeys: set<string> :=
    {"repo_url", "messages", "filePath", "token", "type", "provider", "model",
     "language", "excluded_dirs", "excluded_files"}

  /** A message as the `{"role": ..., "content": ...}` dict the upstream expects. */
  function MessageDict(role: string, content: string): (d: map<string, string>)
    ensures d.Keys == {"role", "content"} && d["role"] == role && d["content"] == content
  {
    map["role" := role, "content" := content]
  }

  function EncodeMessages(messages: seq<map<string, string>>): (j: Value)
    ensures j.JArray? && |j.items| == |messages|
    ensures forall i :: 0 <= i < |messages| ==> j.items[i] == FromDict(messages[i])
  {
    JArray(seq(|messages|, i requires 0 <= i < |messages| => FromDict(messages[i])))
  }

  /** The inverse of EncodeMessages on a list of objects of strings. */
  function DecodeMessages(items: seq<Value>): Option<seq<map<string, string>>>
  {
    if items == [] then Some([])
    else
      match (DecodeMessages(items[..|items| - 1]), ToDict(items[|items| - 1]))
      case (Some(init), Some(last)) => Some(init + [last])
      case _ => None
  }

  /** The full ten-key body, with the upstream's own spellings of the keys. */
  function Encode(u: UpstreamRequest): (body: map<string, Value>)
    ensures body.Keys == FullKeys
  {
    map[
      "repo_url" := JStr(u.repoUrl),
      "messages" := EncodeMessages(u.messages),
      "filePath" := FromOptional(u.filePath),
      "token" := FromOptional(u.token),
      "type" := FromOptional(u.repoType),
      "provider" := FromOptional(u.provider),
      "model" := FromOptional(u.model),
      "language" := FromOptional(u.language),
      "excluded_dirs" := FromOptional(u.excludedDirs),
      "excluded_files" := FromOptional(u.excludedFiles)]
  }

  /** An optional field read back; a key that is absent reads as unset. */
  function OptionalField(body: map<string, Value>, key: string): Option<Option<string>>
  {
    if key in body then ToOptional(body[key]) else Some(None)
  }

  /**
   * What the upstream reads from a body: `repo_url` must be a string and
   * `messages` a list of objects of strings; every other field is optional.
   */
  function Decode(body: map<string, Value>): Option<UpstreamRequest>
  {
    if "repo_url" !in body || !body["repo_url"].JStr? then None
    else if "messages" !in body || !body["messages"].JArray? then None
    else
      match (DecodeMessages(body["messages"].items),
             OptionalField(body, "filePath"), OptionalField(body, "token"),
             OptionalField(body, "type"), OptionalField(body, "provider"),
             OptionalField(body, "model"), OptionalField(body, "language"),
             OptionalField(body, "excluded_dirs"), OptionalField(body, "excluded_files"))
      case (Some(ms), Some(fp), Some(tk), Some(ty), Some(pv), Some(md), Some(lg), Some(ed), Some(ef)) =>
        Some(UpstreamRequest(body["repo_url"].s, ms, fp, tk, ty, pv, md, lg, ed, ef))
      case _ => None
  }

  lemma {:induction false} MessagesRoundTrip(messages: seq<map<string, string>>)
    ensures DecodeMessages(EncodeMessages(messages).items) == Some(messages)
    decreases |messages|
  {
    var items := EncodeMessages(messages).items;
    if messages != [] {
      var init := messages[..|messages| - 1];
      assert items[..|items| - 1] == EncodeMessages(init).items;
      MessagesRoundTrip(init);
      DictRoundTrip(messages[|messages| - 1]);
      assert messages == init + [messages[|messages| - 1]];
    }
  }

  /** Each field of the body reads back as the field it was built from. */
  lemma EncodeReadsBack(u: UpstreamRequest)
    ensures var body := Encode(u);
      && body["repo_url"] == JStr(u.repoUrl)
      && body["messages"].JArray?
      && DecodeMessages(body["messages"].items) == Some(u.messages)
      && OptionalField(body, "filePath") == Some(u.filePath)
      && OptionalField(body, "token") == Some(u.token)
      && OptionalField(body, "type") == Some(u.repoType)
      && OptionalField(body, "provider") == Some(u.provider)
      && OptionalField(body, "model") == Some(u.model)
      && OptionalField(body, "language") == Some(u.language)
      && OptionalField(body, "excluded_dirs") == Some(u.excludedDirs)
      && OptionalField(body, "excluded_files") == Some(u.excludedFiles)
  {
    MessagesRoundTrip(u.messages);
  }

  /** Everything the gateway puts in the body reaches the upstream unchanged. */
  lemma RoundTrip(u: UpstreamRequest)
    ensures Decode(Encode(u)) == Some(u)
  {
    EncodeReadsBack(u);
  }

  /** Two requests that differ in any field produce different bodies; in particular unset and `""` differ. */
  lemma EncodeInjective(u: UpstreamRequest, v: UpstreamRequest)
    requires u != v
    ensures Encode(u) != Encode(v)
  {
    RoundTrip(u);
    RoundTrip(v);
  }
}
