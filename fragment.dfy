/**
 * Fragment interpretation and aggregation of the interpreting client
 * (`_stream_query` of the DeepWiki MCP entry point).  Each non-empty chunk is
 * run through `json.loads`; a decoded value contributes its `text`, else its
 * `content`, else its `delta.content`, else `str(value)`; a chunk that fails
 * to decode contributes itself.  Python's `in`, subscript and `+=` are
 * modelled on every shape a decoded value can have, so that the shapes on
 * which the code raises `TypeError` are visible.
 */
module Fragment {
  import opened Wrappers
  import opened Json
  import opened Upstream

  /**
   * The outcome of `json.loads(chunk)`: `JSONDecodeError`, a decoded value, or
   * some other exception (the `ValueError` of an integer past the digit limit,
   * a `RecursionError` on deep nesting), which the per-chunk handler does not catch.
   */
  datatype Decoded = NotJson | Parsed(value: Value) | DecodeRaised(error: string)

  /** `t in s` for two Python strings: `t` occurs in `s` as a contiguous substring. */
  function IsSubstring(t: string, s: string): (r: bool)
    ensures |t| <= |s| && s[..|t|] == t ==> r
    ensures r ==> |t| <= |s|
    decreases |s|
  {
    (|t| <= |s| && s[..|t|] == t) || (|t| < |s| && IsSubstring(t, s[1..]))
  }

  /** `key in v` as Python evaluates it: dict keys, substrings, list elements, else `TypeError`. */
  function Contains(v: Value, key: string): (r: Result<bool, string>)
    ensures r.Success? <==> v.JObject? || v.JStr? || v.JArray?
    ensures v.JObject? ==> r == Success(key in v.fields)
    ensures v.JArray? ==> r == Success(JStr(key) in v.items)
  {
    match v
    case JObject(fields) => Success(key in fields)
    case JStr(s) => Success(IsSubstring(key, s))
    case JArray(items) => Success(JStr(key) in items)
    case _ => Failure("argument of type '" + TypeName(v) + "' is not iterable")
  }

  /** `v[key]` as Python evaluates it with a string key. */
  function Subscript(v: Value, key: string): (r: Result<Value, string>)
    ensures r.Success? <==> v.JObject? && key in v.fields
    ensures r.Success? ==> r.value == v.fields[key]
  {
    match v
    case JObject(fields) => if key in fields then Success(fields[key]) else Failure("'" + key + "'")
    case JStr(_) => Failure("string indices must be integers, not 'str'")
    case JArray(_) => Failure("list indices must be integers or slices, not str")
    case _ => Failure("'" + TypeName(v) + "' object is not subscriptable")
  }

  /** What `full_response += v` appends: `v` itself when it is a string, else `TypeError`. */
  function Appended(v: Value): (r: Result<string, string>)
    ensures r.Success? <==> v.JStr?
    ensures v.JStr? ==> r.value == v.s
  {
    if v.JStr? then Success(v.s)
    else Failure("can only concatenate str (not \"" + TypeName(v) + "\") to str")
  }

  /** `str(v)`: a string is itself; `show` renders every other value as Python prints it. */
  function PyStr(v: Value, show: Value -> string): string
  {
    if v.JStr? then v.s else show(v)
  }

  /** The text a decoded value contributes, or the `TypeError` the probing raises. */
  function Extract(parsed: Value, show: Value -> string): (r: Result<string, string>)
    ensures parsed.JNull? || parsed.JBool? || parsed.JInt? || parsed.JFloat? ==>
      r == Failure("argument of type '" + TypeName(parsed) + "' is not iterable")
    ensures parsed.JStr? ==>
      (r.Success? <==> !IsSubstring("text", parsed.s) && !IsSubstring("content", parsed.s)
                       && !IsSubstring("delta", parsed.s))
    ensures parsed.JStr? && r.Success? ==> r.value == parsed.s
    ensures parsed.JArray? ==>
      (r.Success? <==> JStr("text") !in parsed.items && JStr("content") !in parsed.items
                       && JStr("delta") !in parsed.items)
  {
    var hasText :- Contains(parsed, "text");
    if hasText then
      var v :- Subscript(parsed, "text");
      Appended(v)
    else
      var hasContent :- Contains(parsed, "content");
      if hasContent then
        var v :- Subscript(parsed, "content");
        Appended(v)
      else
        var hasDelta :- Contains(parsed, "delta");
        if !hasDelta then Success(PyStr(parsed, show))
        else
          var delta :- Subscript(parsed, "delta");
          var deltaHasContent :- Contains(delta, "content");
          if deltaHasContent then
            var v :- Subscript(delta, "content");
            Appended(v)
          else
            Success(PyStr(parsed, show))
  }

  /** One non-empty chunk as the code handles it: decoded and probed, or taken verbatim. */
  function Interpret(chunk: string, decode: string -> Decoded, show: Value -> string): (r: Result<string, string>)
    ensures r.Failure? ==> decode(chunk) != NotJson
    ensures decode(chunk) == NotJson ==> r == Success(chunk)
    ensures decode(chunk).DecodeRaised? ==> r == Failure(decode(chunk).error)
  {
    match decode(chunk)
    case NotJson => Success(chunk)
    case Parsed(v) => Extract(v, show)
    case DecodeRaised(e) => Failure(e)
  }

  /** The interpreter `_stream_query` applies to each non-empty chunk. */
  function AsWritten(decode: string -> Decoded, show: Value -> string): string -> Result<string, string>
  {
    c => Interpret(c, decode, show)
  }

  // ---- Precedence of the recognised keys, for decoded objects ----

  /** `text` wins over every other key. */
  lemma TextWins(fields: map<string, Value>, show: Value -> string)
    requires "text" in fields
    ensures Extract(JObject(fields), show) == Appended(fields["text"])
    ensures fields["text"].JStr? ==> Extract(JObject(fields), show) == Success(fields["text"].s)
  {
  }

  /** Without `text`, `content` wins over `delta`. */
  lemma ContentBeforeDelta(fields: map<string, Value>, show: Value -> string)
    requires "text" !in fields && "content" in fields
    ensures Extract(JObject(fields), show) == Appended(fields["content"])
  {
  }

  /** Without `text` and `content`, an object `delta` with `content` gives `delta.content`. */
  lemma DeltaContent(fields: map<string, Value>, show: Value -> string)
    requires "text" !in fields && "content" !in fields && "delta" in fields
    requires fields["delta"].JObject? && "content" in fields["delta"].fields
    ensures Extract(JObject(fields), show) == Appended(fields["delta"].fields["content"])
  {
  }

  /** An object with no recognised key, or an object `delta` without `content`, contributes `str(parsed)`. */
  lemma NoRecognisedKey(fields: map<string, Value>, show: Value -> string)
    requires "text" !in fields && "content" !in fields
    requires "delta" in fields ==> fields["delta"].JObject? && "content" !in fields["delta"].fields
    ensures Extract(JObject(fields), show) == Success(show(JObject(fields)))
  {
  }

  /** A chunk that does not decode contributes itself, verbatim. */
  lemma UndecodableIsVerbatim(chunk: string, decode: string -> Decoded, show: Value -> string)
    requires decode(chunk) == NotJson
    ensures Interpret(chunk, decode, show) == Success(chunk)
  {
  }

  // ---- Aggregation ----

  /**
   * The response the loop of `_stream_query` accumulates from `chunks`: the
   * in-order concatenation of the interpreted non-empty chunks, or the error
   * of the first chunk whose interpretation raised.
   */
  function Collect(chunks: seq<string>, interpret: string -> Result<string, string>): (r: Result<string, string>)
    ensures r.Failure? ==>
      exists j :: 0 <= j < |chunks| && chunks[j] != "" && interpret(chunks[j]) == Failure(r.error)
  {
    if chunks == [] then Success("")
    else
      var acc :- Collect(chunks[..|chunks| - 1], interpret);
      var chunk := chunks[|chunks| - 1];
      if chunk == "" then Success(acc)
      else
        var piece :- interpret(chunk);
        Success(acc + piece)
  }

  lemma CollectSnoc(chunks: seq<string>, c: string, interpret: string -> Result<string, string>)
    ensures Collect(chunks + [c], interpret) ==
      match Collect(chunks, interpret)
      case Failure(e) => Failure(e)
      case Success(acc) =>
        if c == "" then Success(acc)
        else if interpret(c).Failure? then Failure(interpret(c).error)
        else Success(acc + interpret(c).value)
  {
    assert (chunks + [c])[..|chunks|] == chunks;
  }

  /** Once a chunk has raised, nothing after it changes the result. */
  lemma {:induction false} FailureSticks(chunks: seq<string>, k: nat, interpret: string -> Result<string, string>)
    requires k <= |chunks|
    requires Collect(chunks[..k], interpret).Failure?
    ensures Collect(chunks, interpret) == Collect(chunks[..k], interpret)
    decreases |chunks| - k
  {
    if k < |chunks| {
      assert chunks[..k + 1] == chunks[..k] + [chunks[k]];
      CollectSnoc(chunks[..k], chunks[k], interpret);
      FailureSticks(chunks, k + 1, interpret);
    } else {
      assert chunks[..k] == chunks;
    }
  }

  /**
   * When every non-empty chunk interprets to a piece, the result is the
   * concatenation of those pieces in arrival order: no chunk dropped,
   * reordered or repeated.
   */
  lemma {:induction false} CollectConcatenates(
    chunks: seq<string>, interpret: string -> Result<string, string>, pieces: seq<string>)
    requires |pieces| == |NonEmpty(chunks)|
    requires forall i :: 0 <= i < |pieces| ==> interpret(NonEmpty(chunks)[i]) == Success(pieces[i])
    ensures Collect(chunks, interpret) == Success(Concat(pieces))
    decreases |chunks|
  {
    if chunks != [] {
      var init, c := chunks[..|chunks| - 1], chunks[|chunks| - 1];
      assert chunks == init + [c];
      NonEmptySnoc(init, c);
      CollectSnoc(init, c, interpret);
      var n := |NonEmpty(init)|;
      CollectConcatenates(init, interpret, pieces[..n]);
      if c != "" {
        assert pieces == pieces[..n] + [pieces[n]];
        ConcatSnoc(pieces[..n], pieces[n]);
      } else {
        assert pieces == pieces[..n];
      }
    }
  }

  /** The first non-empty chunk whose interpretation raises decides the result: its error. */
  lemma {:induction false} CollectFailsAtFirstFault(
    chunks: seq<string>, interpret: string -> Result<string, string>, k: nat)
    requires k < |chunks| && chunks[k] != "" && interpret(chunks[k]).Failure?
    requires forall j :: 0 <= j < k && chunks[j] != "" ==> interpret(chunks[j]).Success?
    ensures Collect(chunks, interpret) == Failure(interpret(chunks[k]).error)
  {
    var pieces := seq(|NonEmpty(chunks[..k])|, i requires 0 <= i < |NonEmpty(chunks[..k])| =>
      interpret(NonEmpty(chunks[..k])[i]).value);
    forall i | 0 <= i < |pieces|
      ensures interpret(NonEmpty(chunks[..k])[i]) == Success(pieces[i])
    {
      var c := NonEmpty(chunks[..k])[i];
      assert c in chunks[..k];
      var j :| 0 <= j < k && chunks[..k][j] == c;
      assert chunks[j] == c && c != "";
    }
    CollectConcatenates(chunks[..k], interpret, pieces);
    assert chunks[..k + 1] == chunks[..k] + [chunks[k]];
    CollectSnoc(chunks[..k], chunks[k], interpret);
    FailureSticks(chunks, k + 1, interpret);
  }

  /** The result is a success exactly when no non-empty chunk raises. */
  lemma {:induction false} CollectSucceedsIff(chunks: seq<string>, interpret: string -> Result<string, string>)
    ensures Collect(chunks, interpret).Success? <==>
      forall j :: 0 <= j < |chunks| && chunks[j] != "" ==> interpret(chunks[j]).Success?
    decreases |chunks|
  {
    if chunks != [] {
      var init, c := chunks[..|chunks| - 1], chunks[|chunks| - 1];
      assert chunks == init + [c];
      CollectSnoc(init, c, interpret);
      CollectSucceedsIff(init, interpret);
      assert forall j :: 0 <= j < |init| ==> init[j] == chunks[j];
    }
  }

  /** The identity interpreter: every chunk taken as it arrived. */
  function Verbatim(): string -> Result<string, string>
  {
    c => Success(c)
  }

  /** Without interpretation, the result is the raw concatenation of the chunks. */
  lemma CollectVerbatim(chunks: seq<string>)
    ensures Collect(chunks, Verbatim()) == Success(Concat(chunks))
  {
    CollectConcatenates(chunks, Verbatim(), NonEmpty(chunks));
    SkippingEmptyChunksIsInvisible(chunks);
  }

  // ---- Finding: a chunk that decodes to a scalar aborts the whole answer ----

  /** As written: a chunk "42" raises `TypeError` at the `'text' in parsed` test. */
  lemma NumberChunkRaises(decode: string -> Decoded, show: Value -> string)
    requires decode("42") == Parsed(JInt(42))
    ensures Interpret("42", decode, show) == Failure("argument of type 'int' is not iterable")
  {
    assert "argument of type '" + "int" + "' is not iterable" == "argument of type 'int' is not iterable";
  }

  /** As written: so an answer containing the chunk "42" is lost; the aggregate is that error. */
  lemma NumberChunkLosesAnswer(decode: string -> Decoded, show: Value -> string)
    requires decode("The answer is ") == NotJson
    requires decode("42") == Parsed(JInt(42))
    ensures Collect(["The answer is ", "42"], AsWritten(decode, show)) ==
      Failure("argument of type 'int' is not iterable")
  {
    var interpret := AsWritten(decode, show);
    NumberChunkRaises(decode, show);
    CollectSnoc([], "The answer is ", interpret);
    assert [] + ["The answer is "] == ["The answer is "];
    CollectSnoc(["The answer is "], "42", interpret);
    assert ["The answer is "] + ["42"] == ["The answer is ", "42"];
  }

  /**
   * Corrected: a chunk whose decoding or probing would raise degrades to verbatim text,
   * as the fallback of the code intends; otherwise it is interpreted as written.
   */
  function InterpretTotal(chunk: string, decode: string -> Decoded, show: Value -> string): (r: string)
    ensures Interpret(chunk, decode, show).Success? ==> r == Interpret(chunk, decode, show).value
    ensures Interpret(chunk, decode, show).Failure? ==> r == chunk
  {
    match Interpret(chunk, decode, show)
    case Success(text) => text
    case Failure(_) => chunk
  }

  /** The corrected interpreter, which never raises. */
  function Lenient(decode: string -> Decoded, show: Value -> string): string -> Result<string, string>
  {
    c => Success(InterpretTotal(c, decode, show))
  }

  /** Each chunk of `chunks` through the corrected interpreter. */
  function TotalTexts(chunks: seq<string>, decode: string -> Decoded, show: Value -> string): (texts: seq<string>)
    ensures |texts| == |chunks|
    ensures forall i :: 0 <= i < |chunks| ==> texts[i] == InterpretTotal(chunks[i], decode, show)
  {
    seq(|chunks|, i requires 0 <= i < |chunks| => InterpretTotal(chunks[i], decode, show))
  }

  /** Corrected: aggregation with InterpretTotal never fails, and keeps every chunk's text in order. */
  lemma InterpretTotalNeverFails(chunks: seq<string>, decode: string -> Decoded, show: Value -> string)
    ensures Collect(chunks, Lenient(decode, show)) == Success(Concat(TotalTexts(NonEmpty(chunks), decode, show)))
  {
    var interpret := Lenient(decode, show);
    var ne := NonEmpty(chunks);
    var pieces := TotalTexts(ne, decode, show);
    forall i | 0 <= i < |pieces|
      ensures interpret(ne[i]) == Success(pieces[i])
    {
    }
    CollectConcatenates(chunks, interpret, pieces);
  }
}
