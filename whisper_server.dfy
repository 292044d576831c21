/** The minimal speech-to-text server's per-socket handler: audio is batched
    into at least 8000 bytes, each batch transcribed and answered; whatever is
    left when the connection closes is dropped. */
module WhisperServer {
  import opened Wrappers
  import opened Json
  import opened Text
  import opened SttWire

  const FlushBytes: nat := 8000

  /** `"".join(seg.text for seg in segments).strip()`. */
  function Transcript(segments: seq<string>): string
  {
    PyStrip(JoinAll(segments))
  }

  function JoinAll(parts: seq<string>): string
  {
    if parts == [] then "" else JoinAll(parts[..|parts| - 1]) + parts[|parts| - 1]
  }

  /** Handles the messages received before the connection closed. Every
      batch holds at least 8000 bytes, the batches followed by the discarded
      leftover are exactly the bytes received, and the leftover is short.
      The batches are those of `Batching`: each is cut at the first message
      that brings the buffer to 8000 bytes. */
  method Handler(messages: seq<WsMessage>, model: Bytes -> seq<string>)
    returns (batches: seq<Bytes>, sent: seq<Value>, leftover: Bytes)
    ensures Concat(batches) + leftover == Concat(Payloads(messages))
    ensures |leftover| < FlushBytes
    ensures AllAtLeast(batches, FlushBytes)
    ensures sent == Replies(batches, model, Transcript)
    ensures Batching(Payloads(messages), FlushBytes) == Batched(batches, leftover)
  {
    var buf: Bytes := [];
    batches := [];
    sent := [];
    var i := 0;
    while i < |messages|
      invariant 0 <= i <= |messages|
      invariant Consumed(messages[..i], batches, buf, sent, model)
    {
      batches, buf, sent := Step(messages, i, batches, buf, sent, model);
      i := i + 1;
    }
    assert messages[..|messages|] == messages;
    leftover := buf;
  }

  /** The state after a prefix of the messages: sealed batches, then the
      buffer, are the audio received so far; the buffer is short of a batch;
      every batch is long enough; the replies are those of the batches. */
  predicate Consumed(prefix: seq<WsMessage>, batches: seq<Bytes>, buf: Bytes, sent: seq<Value>, model: Bytes -> seq<string>)
  {
    && Concat(batches) + buf == Concat(Payloads(prefix))
    && |buf| < FlushBytes
    && AllAtLeast(batches, FlushBytes)
    && sent == Replies(batches, model, Transcript)
    && Batching(Payloads(prefix), FlushBytes) == Batched(batches, buf)
  }

  /** Handling message `i`: a binary one goes through `Receive`, a text
      frame is ignored. */
  method Step(messages: seq<WsMessage>, i: nat, batches: seq<Bytes>, buf: Bytes, sent: seq<Value>,
              model: Bytes -> seq<string>)
    returns (batches': seq<Bytes>, buf': Bytes, sent': seq<Value>)
    requires i < |messages| && Consumed(messages[..i], batches, buf, sent, model)
    ensures Consumed(messages[..i + 1], batches', buf', sent', model)
  {
    batches', buf', sent' := batches, buf, sent;
    if messages[i].Binary? {
      batches', buf', sent' := Receive(batches, buf, sent, messages[i].data, model);
    }
    Advance(messages, i, batches, buf, batches', buf');
    BatchingNext(messages, i, FlushBytes, batches, buf, batches', buf');
  }

  /** One binary message: appended to the buffer, which is transcribed,
      answered and cleared once it holds at least 8000 bytes. */
  method Receive(batches: seq<Bytes>, buf: Bytes, sent: seq<Value>, data: Bytes, model: Bytes -> seq<string>)
    returns (batches': seq<Bytes>, buf': Bytes, sent': seq<Value>)
    requires |buf| < FlushBytes
    ensures Concat(batches') + buf' == Concat(batches) + (buf + data)
    ensures |buf'| < FlushBytes
    ensures |buf + data| < FlushBytes ==> batches' == batches && buf' == buf + data && sent' == sent
    ensures |buf + data| >= FlushBytes ==>
              batches' == batches + [buf + data] && buf' == [] && sent' == sent + SendFor(Transcript(model(buf + data)))
    ensures AllAtLeast(batches, FlushBytes) ==> AllAtLeast(batches', FlushBytes)
    ensures sent == Replies(batches, model, Transcript) ==> sent' == Replies(batches', model, Transcript)
  {
    buf' := buf + data;
    batches' := batches;
    sent' := sent;
    if |buf'| >= FlushBytes {
      Seal(batches, buf', model, Transcript);
      sent' := sent + SendFor(Transcript(model(buf')));
      batches' := batches + [buf'];
      buf' := [];
    }
  }
}
