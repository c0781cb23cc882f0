/**
 * The upstream knowledge service as the gateway sees it: one POST to the
 * streaming chat endpoint answers with a finite sequence of text chunks that
 * either ends normally or is cut off by an exception, and one GET to the root
 * path answers the health probe.
 */
module Upstream {

  /** How the chunk stream ended: normally, or with an exception whose `str()` is `error`. */
  datatype Outcome = Completed | Failed(error: string)

  /** The chunks `aiter_text()` delivered, in arrival order, before the stream ended with `outcome`. */
  datatype Stream = Stream(chunks: seq<string>, outcome: Outcome)

  /** The answer of the GET probe: a status code, or the `str()` of the exception it raised. */
  datatype Probe = Responded(status: int) | Raised(error: string)

  /** The concatenation of `parts` in order, built from the left as `+=` builds it. */
  function Concat(parts: seq<string>): string
  {
    if parts == [] then "" else Concat(parts[..|parts| - 1]) + parts[|parts| - 1]
  }

  /** The chunks that pass the `if chunk:` guard, in their original order. */
  function NonEmpty(chunks: seq<string>): (kept: seq<string>)
    ensures |kept| <= |chunks|
    ensures forall i :: 0 <= i < |kept| ==> kept[i] != ""
    ensures forall i :: 0 <= i < |kept| ==> kept[i] in chunks
  {
    if chunks == [] then []
    else
      var last := chunks[|chunks| - 1];
      NonEmpty(chunks[..|chunks| - 1]) + (if last == "" then [] else [last])
  }

  lemma ConcatSnoc(parts: seq<string>, p: string)
    ensures Concat(parts + [p]) == Concat(parts) + p
  {
    assert (parts + [p])[..|parts|] == parts;
  }

  lemma {:induction false} ConcatAppend(a: seq<string>, b: seq<string>)
    ensures Concat(a + b) == Concat(a) + Concat(b)
    decreases |b|
  {
    if b == [] {
      assert a + b == a;
    } else {
      var b' := b[..|b| - 1];
      assert a + b == (a + b') + [b[|b| - 1]];
      assert b == b' + [b[|b| - 1]];
      ConcatAppend(a, b');
      ConcatSnoc(a + b', b[|b| - 1]);
      ConcatSnoc(b', b[|b| - 1]);
    }
  }

  lemma NonEmptySnoc(chunks: seq<string>, c: string)
    ensures NonEmpty(chunks + [c]) == NonEmpty(chunks) + (if c == "" then [] else [c])
  {
    assert (chunks + [c])[..|chunks|] == chunks;
  }

  lemma {:induction false} NonEmptyAppend(a: seq<string>, b: seq<string>)
    ensures NonEmpty(a + b) == NonEmpty(a) + NonEmpty(b)
    decreases |b|
  {
    if b == [] {
      assert a + b == a;
    } else {
      var b', c := b[..|b| - 1], b[|b| - 1];
      assert a + b == (a + b') + [c];
      assert b == b' + [c];
      NonEmptyAppend(a, b');
      NonEmptySnoc(a + b', c);
      NonEmptySnoc(b', c);
    }
  }

  /** A sequence with no empty chunk passes the guard unchanged. */
  lemma {:induction false} NonEmptyKeepsAll(chunks: seq<string>)
    requires forall i :: 0 <= i < |chunks| ==> chunks[i] != ""
    ensures NonEmpty(chunks) == chunks
    decreases |chunks|
  {
    if chunks != [] {
      var init := chunks[..|chunks| - 1];
      NonEmptyKeepsAll(init);
      assert chunks == init + [chunks[|chunks| - 1]];
    }
  }

  /** Every non-empty chunk delivered passes the guard. */
  lemma {:induction false} NonEmptyKeepsEveryNonEmpty(chunks: seq<string>)
    ensures forall i :: 0 <= i < |chunks| && chunks[i] != "" ==> chunks[i] in NonEmpty(chunks)
    decreases |chunks|
  {
    if chunks != [] {
      var init, last := chunks[..|chunks| - 1], chunks[|chunks| - 1];
      NonEmptyKeepsEveryNonEmpty(init);
      assert chunks == init + [last];
      NonEmptySnoc(init, last);
      forall i | 0 <= i < |chunks| && chunks[i] != ""
        ensures chunks[i] in NonEmpty(chunks)
      {
        if i < |init| {
          assert chunks[i] == init[i];
        }
      }
    }
  }

  /** Applying the guard twice keeps what applying it once keeps. */
  lemma NonEmptyIdempotent(chunks: seq<string>)
    ensures NonEmpty(NonEmpty(chunks)) == NonEmpty(chunks)
  {
    NonEmptyKeepsAll(NonEmpty(chunks));
  }

  /** Skipping empty chunks never changes the concatenated text. */
  lemma {:induction false} SkippingEmptyChunksIsInvisible(chunks: seq<string>)
    ensures Concat(NonEmpty(chunks)) == Concat(chunks)
    decreases |chunks|
  {
    if chunks != [] {
      var init, last := chunks[..|chunks| - 1], chunks[|chunks| - 1];
      SkippingEmptyChunksIsInvisible(init);
      ConcatAppend(NonEmpty(init), if last == "" then [] else [last]);
      assert Concat([last]) == last by { ConcatSnoc([], last); }
    }
  }

  /**
   * The accumulation loop shared by every non-interpreting path: append each
   * chunk that passes `if chunk:` to the response text.
   */
  method AccumulateRaw(chunks: seq<string>) returns (text: string)
    ensures text == Concat(NonEmpty(chunks))
    ensures text == Concat(chunks)
  {
    text := "";
    for i := 0 to |chunks|
      invariant text == Concat(NonEmpty(chunks[..i]))
    {
      assert chunks[..i + 1] == chunks[..i] + [chunks[i]];
      NonEmptySnoc(chunks[..i], chunks[i]);
      if chunks[i] != "" {
        ConcatSnoc(NonEmpty(chunks[..i]), chunks[i]);
        text := text + chunks[i];
      } else {
        assert NonEmpty(chunks[..i]) + [] == NonEmpty(chunks[..i]);
      }
    }
    assert chunks[..|chunks|] == chunks;
    SkippingEmptyChunksIsInvisible(chunks);
  }

  /**
   * `DeepWikiClient.health_check`: true exactly when the GET answered status
   * 200; any other status, and any exception, is false.
   */
  function HealthCheck(probe: Probe): (available: bool)
    ensures available <==> probe.Responded? && probe.status == 200
    ensures probe.Raised? ==> !available
  {
    match probe
    case Responded(status) => status == 200
    case Raised(_) => false
  }
}
