/** The streaming speech-to-text server's per-socket handler: audio bytes are
    batched into chunks of at least 2 s, each transcribed and answered. When
    the connection closes normally a leftover is transcribed too, but its
    reply goes to a closed socket and raises; an abnormal close raises out of
    the receive loop before the leftover is transcribed. The model is a
    function from a batch to the texts of its segments. */
module FasterSttServer {
  import opened Wrappers
  import opened Json
  import opened Text
  import opened SttWire

  /** FRAME_BYTES × FRAMES_PER_CHUNK: 100 frames of 160 bytes, 2 s of audio. */
  const ChunkBytes: nat := 16000

  /** `" ".join(seg.text.strip() for seg in segments).strip()`. */
  function Transcript(segments: seq<string>): string
  {
    PyStrip(Join(seq(|segments|, i requires 0 <= i < |segments| => PyStrip(segments[i])), ' '))
  }

  /** Handles one connection's messages in order; `cleanClose` says whether
      the connection ended with a normal close. The transcribed batches are
      those of `Batching`, each cut at the first message that completes a
      chunk, followed on a clean close by the leftover if any; every batch
      but that leftover holds at least a chunk and none is empty. Replies
      reach the caller only for the sealed batches. The handler ends in an
      exception on an abnormal close, or when the leftover's reply is sent
      on the closed socket. */
  method Handler(messages: seq<WsMessage>, model: Bytes -> seq<string>, cleanClose: bool)
    returns (batches: seq<Bytes>, sent: seq<Value>, raised: bool)
    ensures var b := Batching(Payloads(messages), ChunkBytes);
            && batches == b.batches + (if cleanClose && b.buf != [] then [b.buf] else [])
            && sent == Replies(b.batches, model, Transcript)
            && (raised <==> !cleanClose || (b.buf != [] && Transcript(model(b.buf)) != ""))
    ensures cleanClose ==> Concat(batches) == Concat(Payloads(messages))
    ensures batches != [] ==> batches[|batches| - 1] != []
    ensures batches == [] || AllAtLeast(batches[..|batches| - 1], ChunkBytes)
  {
    var buf: Bytes := [];
    batches := [];
    sent := [];
    var i := 0;
    while i < |messages|
      invariant 0 <= i <= |messages|
      invariant Consumed(messages[..i], batches, buf, sent, model)
    {
      batches, buf, sent := Step(messages, i, batches, buf, sent, model);
      i := i + 1;
    }
    assert messages[..|messages|] == messages;
    batches, raised := Disconnect(batches, buf, model, cleanClose);
  }

  /** After the receive loop: on a clean close a non-empty leftover is
      transcribed once more, and sending a non-empty transcript then raises
      (the socket is closed); an abnormal close raises before that. */
  method Disconnect(batches: seq<Bytes>, buf: Bytes, model: Bytes -> seq<string>, cleanClose: bool)
    returns (batches': seq<Bytes>, raised: bool)
    requires AllAtLeast(batches, ChunkBytes)
    ensures batches' == batches + (if cleanClose && buf != [] then [buf] else [])
    ensures cleanClose ==> Concat(batches') == Concat(batches) + buf
    ensures raised <==> !cleanClose || (buf != [] && SendFor(Transcript(model(buf))) != [])
    ensures batches' != [] ==> batches'[|batches'| - 1] != []
    ensures batches' == [] || AllAtLeast(batches'[..|batches'| - 1], ChunkBytes)
  {
    batches' := batches;
    raised := !cleanClose;
    if cleanClose && buf != [] {
      ConcatAppend(batches, buf);
      assert (batches + [buf])[..|batches|] == batches;
      batches' := batches + [buf];
      raised := SendFor(Transcript(model(buf))) != [];
    } else if batches != [] {
      assert |batches[|batches| - 1]| >= ChunkBytes;
    }
  }

  /** The state after a prefix of the messages: sealed batches, then the
      buffer, are the audio received so far; the buffer is short of a batch;
      every batch is long enough; the replies are those of the batches. */
  predicate Consumed(prefix: seq<WsMessage>, batches: seq<Bytes>, buf: Bytes, sent: seq<Value>, model: Bytes -> seq<string>)
  {
    && Concat(batches) + buf == Concat(Payloads(prefix))
    && |buf| < ChunkBytes
    && AllAtLeast(batches, ChunkBytes)
    && sent == Replies(batches, model, Transcript)
    && Batching(Payloads(prefix), ChunkBytes) == Batched(batches, buf)
  }

  /** Handling message `i`: a binary one goes through `Receive`, a text
      frame is ignored. */
  method Step(messages: seq<WsMessage>, i: nat, batches: seq<Bytes>, buf: Bytes, sent: seq<Value>,
              model: Bytes -> seq<string>)
    returns (batches': seq<Bytes>, buf': Bytes, sent': seq<Value>)
    requires i < |messages| && Consumed(messages[..i], batches, buf, sent, model)
    ensures Consumed(messages[..i + 1], batches', buf', sent', model)
  {
    batches', buf', sent' := batches, buf, sent;
    if messages[i].Binary? {
      batches', buf', sent' := Receive(batches, buf, sent, messages[i].data, model);
    }
    Advance(messages, i, batches, buf, batches', buf');
    BatchingNext(messages, i, ChunkBytes, batches, buf, batches', buf');
  }

  /** One binary message: appended to the buffer, which is transcribed,
      answered and cleared once it holds at least a chunk. */
  method Receive(batches: seq<Bytes>, buf: Bytes, sent: seq<Value>, data: Bytes, model: Bytes -> seq<string>)
    returns (batches': seq<Bytes>, buf': Bytes, sent': seq<Value>)
    requires |buf| < ChunkBytes
    ensures Concat(batches') + buf' == Concat(batches) + (buf + data)
    ensures |buf'| < ChunkBytes
    ensures |buf + data| < ChunkBytes ==> batches' == batches && buf' == buf + data && sent' == sent
    ensures |buf + data| >= ChunkBytes ==>
              batches' == batches + [buf + data] && buf' == [] && sent' == sent + SendFor(Transcript(model(buf + data)))
    ensures AllAtLeast(batches, ChunkBytes) ==> AllAtLeast(batches', ChunkBytes)
    ensures sent == Replies(batches, model, Transcript) ==> sent' == Replies(batches', model, Transcript)
  {
    buf' := buf + data;
    batches' := batches;
    sent' := sent;
    if |buf'| >= ChunkBytes {
      Seal(batches, buf', model, Transcript);
      sent' := sent + SendFor(Transcript(model(buf')));
      batches' := batches + [buf'];
      buf' := [];
    }
  }
}
