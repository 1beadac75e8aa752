/** Assembling the assistant's reply from the model's streamed completion. */
module ReplyStream {
  import opened Types

  /** One item of the streamed completion: either a delta whose content may be
      missing, or an item whose reading raised (the network dropped, or the
      chunk had no choices). */
  datatype Chunk = Delta(content: Option<string>) | Interrupted

  /** What the model call yields: a stream of chunks, or an exception raised by
      the call itself. */
  datatype Completion = Stream(chunks: seq<Chunk>) | Refused

  /** The text one chunk contributes: its content, or "" when it has none. */
  function Text(c: Chunk): string
  {
    match c
    case Delta(Some(s)) => s
    case Delta(None) => ""
    case Interrupted => ""
  }

  /** True when no chunk of the stream raised. */
  predicate Intact(chunks: seq<Chunk>)
  {
    forall i :: 0 <= i < |chunks| ==> chunks[i].Delta?
  }

  /** The texts of the chunks, concatenated in stream order. */
  function Joined(chunks: seq<Chunk>): string
  {
    if chunks == [] then "" else Joined(chunks[..|chunks| - 1]) + Text(chunks[|chunks| - 1])
  }

  /** The model's answer to a log, as `query_groq_api` returns or raises it. */
  function Query(messages: seq<Message>, model: seq<Message> -> Completion): Outcome<string>
  {
    match model(messages)
    case Refused => Failure(InternalError)
    case Stream(chunks) => if Intact(chunks) then Success(Joined(chunks)) else Failure(InternalError)
  }

  /** Sends the log to the model and accumulates the streamed reply chunk by chunk. */
  method QueryModel(messages: seq<Message>, model: seq<Message> -> Completion) returns (r: Outcome<string>)
    ensures r.Success? <==> model(messages).Stream? && Intact(model(messages).chunks)
    ensures r.Success? ==> r.value == Joined(model(messages).chunks)
    ensures r.Failure? ==> r.status == InternalError
    ensures r == Query(messages, model)
  {
    var completion := model(messages);
    if completion.Refused? {
      return Failure(InternalError);
    }
    var chunks := completion.chunks;
    var response := "";
    for i := 0 to |chunks|
      invariant response == Joined(chunks[..i])
      invariant Intact(chunks[..i])
    {
      if chunks[i].Interrupted? {
        assert !Intact(chunks);
        return Failure(InternalError);
      }
      assert chunks[..i + 1][..i] == chunks[..i];
      response := response + Text(chunks[i]);
    }
    assert chunks[..|chunks|] == chunks;
    r := Success(response);
  }

  /** Joining distributes over concatenation of streams. */
  lemma {:induction false} JoinedAppend(a: seq<Chunk>, b: seq<Chunk>)
    ensures Joined(a + b) == Joined(a) + Joined(b)
    decreases |b|
  {
    if b == [] {
      assert a + b == a;
    } else {
      var n := |b| - 1;
      assert (a + b)[..|a + b| - 1] == a + b[..n];
      JoinedAppend(a, b[..n]);
    }
  }

  /** Reading front to back: the first chunk's text comes first. */
  lemma JoinedCons(c: Chunk, rest: seq<Chunk>)
    ensures Joined([c] + rest) == Text(c) + Joined(rest)
  {
    JoinedAppend([c], rest);
    assert [c][..0] == [];
  }

  /** Every chunk's text appears in the reply, in stream order, right after the
      texts of the chunks before it. */
  lemma ChunkInPlace(chunks: seq<Chunk>, i: nat)
    requires i < |chunks|
    ensures |Joined(chunks[..i])| + |Text(chunks[i])| <= |Joined(chunks)|
    ensures Joined(chunks)[|Joined(chunks[..i])|..|Joined(chunks[..i])| + |Text(chunks[i])|] == Text(chunks[i])
  {
    assert chunks == chunks[..i + 1] + chunks[i + 1..];
    JoinedAppend(chunks[..i + 1], chunks[i + 1..]);
    assert chunks[..i + 1][..i] == chunks[..i];
  }

  /** A stream whose deltas all lack content yields the empty reply. */
  lemma {:induction false} EmptyDeltasEmptyReply(chunks: seq<Chunk>)
    requires forall i :: 0 <= i < |chunks| ==> chunks[i] == Delta(None)
    ensures Joined(chunks) == ""
    decreases |chunks|
  {
    if chunks != [] {
      EmptyDeltasEmptyReply(chunks[..|chunks| - 1]);
    }
  }

  /** The length of the reply is the sum of the lengths of the chunk texts. */
  function TotalLength(chunks: seq<Chunk>): nat
  {
    if chunks == [] then 0 else |Text(chunks[0])| + TotalLength(chunks[1..])
  }

  lemma {:induction false} JoinedLength(chunks: seq<Chunk>)
    ensures |Joined(chunks)| == TotalLength(chunks)
    decreases |chunks|
  {
    if chunks != [] {
      assert chunks == [chunks[0]] + chunks[1..];
      JoinedCons(chunks[0], chunks[1..]);
      JoinedLength(chunks[1..]);
    }
  }
}
