/** What the two speech-to-text servers receive and send on their sockets. */
module SttWire {
  import opened Wrappers
  import opened Json
  import opened Text

  /** A received WebSocket message: binary audio or a text frame. */
  datatype WsMessage = Binary(data: Bytes) | TextFrame(s: string)

  /** The audio carried by a message stream, in arrival order; text frames
      carry none. */
  function Payloads(ms: seq<WsMessage>): (r: seq<Bytes>)
    ensures |r| <= |ms|
  {
    if ms == [] then []
    else
      var last := ms[|ms| - 1];
      Payloads(ms[..|ms| - 1]) + (if last.Binary? then [last.data] else [])
  }

  /** `json.dumps({"is_final": True, "text": text})`. */
  function FinalMessage(text: string): Value
  {
    Obj(map["is_final" := Bool(true), "text" := Str(text)])
  }

  /** Nothing is sent for an empty transcript. */
  function SendFor(text: string): (r: seq<Value>)
    ensures |r| <= 1
    ensures r != [] <==> text != ""
  {
    if text != "" then [FinalMessage(text)] else []
  }

  /** The messages sent for a sequence of batches, each run through the
      model (batch to segment texts) and joined into one transcript. */
  function Replies(batches: seq<Bytes>, model: Bytes -> seq<string>, transcript: seq<string> -> string): seq<Value>
  {
    if batches == [] then []
    else Replies(batches[..|batches| - 1], model, transcript) + SendFor(transcript(model(batches[|batches| - 1])))
  }

  /** Every message a server sends is a final result with non-empty text. */
  lemma {:induction false} RepliesAreFinal(batches: seq<Bytes>, model: Bytes -> seq<string>, transcript: seq<string> -> string)
    ensures |Replies(batches, model, transcript)| <= |batches|
    ensures forall v :: v in Replies(batches, model, transcript) ==>
              exists t :: t != "" && v == FinalMessage(t)
  {
    if batches != [] {
      RepliesAreFinal(batches[..|batches| - 1], model, transcript);
      var t := transcript(model(batches[|batches| - 1]));
      if t != "" {
        assert SendFor(t) == [FinalMessage(t)];
      }
    }
  }

  /** The batching invariant "sealed batches, then the buffer, are exactly
      the audio received so far" survives handling one more message, given
      that a binary message's data was appended and nothing else changed. */
  lemma {:induction false} Advance(ms: seq<WsMessage>, i: nat, batches: seq<Bytes>, buf: Bytes,
                                   batches': seq<Bytes>, buf': Bytes)
    requires i < |ms|
    requires Concat(batches) + buf == Concat(Payloads(ms[..i]))
    requires ms[i].Binary? ==> Concat(batches') + buf' == Concat(batches) + (buf + ms[i].data)
    requires !ms[i].Binary? ==> batches' == batches && buf' == buf
    ensures Concat(batches') + buf' == Concat(Payloads(ms[..i + 1]))
  {
    assert ms[..i + 1][..i] == ms[..i];
    var pays := Payloads(ms[..i]);
    if ms[i].Binary? {
      assert Payloads(ms[..i + 1]) == pays + [ms[i].data];
      ConcatAppend(pays, ms[i].data);
    } else {
      assert Payloads(ms[..i + 1]) == pays + [];
      assert pays + [] == pays;
    }
  }

  /** Every batch holds at least `n` bytes. */
  predicate AllAtLeast(batches: seq<Bytes>, n: nat)
    decreases |batches|
  {
    batches == [] || (AllAtLeast(batches[..|batches| - 1], n) && |batches[|batches| - 1]| >= n)
  }

  lemma {:induction false} AllAtLeastIndexed(batches: seq<Bytes>, n: nat)
    requires AllAtLeast(batches, n)
    ensures forall j :: 0 <= j < |batches| ==> |batches[j]| >= n
    decreases |batches|
  {
    if batches != [] {
      var init := batches[..|batches| - 1];
      AllAtLeastIndexed(init, n);
      assert forall j :: 0 <= j < |init| ==> batches[j] == init[j];
    }
  }

  /** The batching both servers do, as a fold over the payloads: each
      payload is appended to the buffer, and the buffer becomes a batch (and
      is cleared) as soon as it holds at least `n` bytes. */
  datatype Batched = Batched(batches: seq<Bytes>, buf: Bytes)

  function Batching(pays: seq<Bytes>, n: nat): Batched
    decreases |pays|
  {
    if pays == [] then Batched([], [])
    else
      var prev := Batching(pays[..|pays| - 1], n);
      var buf := prev.buf + pays[|pays| - 1];
      if |buf| >= n then Batched(prev.batches + [buf], []) else Batched(prev.batches, buf)
  }

  /** One more payload, as `Batching` takes it. */
  lemma BatchingAppend(pays: seq<Bytes>, d: Bytes, n: nat)
    ensures var prev := Batching(pays, n);
            Batching(pays + [d], n) ==
              if |prev.buf + d| >= n then Batched(prev.batches + [prev.buf + d], []) else Batched(prev.batches, prev.buf + d)
  {
    assert (pays + [d])[..|pays|] == pays;
  }

  /** `Batching` follows a message stream one message at a time: a binary
      message is taken as `BatchingAppend` says, a text frame changes nothing. */
  lemma BatchingNext(ms: seq<WsMessage>, i: nat, n: nat, batches: seq<Bytes>, buf: Bytes,
                     batches': seq<Bytes>, buf': Bytes)
    requires i < |ms|
    requires Batching(Payloads(ms[..i]), n) == Batched(batches, buf)
    requires ms[i].Binary? ==>
               if |buf + ms[i].data| >= n then batches' == batches + [buf + ms[i].data] && buf' == []
               else batches' == batches && buf' == buf + ms[i].data
    requires !ms[i].Binary? ==> batches' == batches && buf' == buf
    ensures Batching(Payloads(ms[..i + 1]), n) == Batched(batches', buf')
  {
    assert ms[..i + 1][..i] == ms[..i];
    var pays := Payloads(ms[..i]);
    if ms[i].Binary? {
      assert Payloads(ms[..i + 1]) == pays + [ms[i].data];
      BatchingAppend(pays, ms[i].data, n);
    } else {
      assert Payloads(ms[..i + 1]) == pays + [];
      assert pays + [] == pays;
    }
  }

  /** The fold loses and reorders nothing, every batch reaches the threshold,
      and what is left over is short of it. */
  lemma {:induction false} BatchingShape(pays: seq<Bytes>, n: nat)
    ensures Concat(Batching(pays, n).batches) + Batching(pays, n).buf == Concat(pays)
    ensures AllAtLeast(Batching(pays, n).batches, n)
    ensures n > 0 ==> |Batching(pays, n).buf| < n
    decreases |pays|
  {
    if pays != [] {
      var init := pays[..|pays| - 1];
      var d := pays[|pays| - 1];
      assert pays == init + [d];
      BatchingShape(init, n);
      BatchingStep(init, d, n);
    }
  }

  /** The inductive step of `BatchingShape`. */
  lemma BatchingStep(init: seq<Bytes>, d: Bytes, n: nat)
    requires Concat(Batching(init, n).batches) + Batching(init, n).buf == Concat(init)
    requires AllAtLeast(Batching(init, n).batches, n)
    ensures Concat(Batching(init + [d], n).batches) + Batching(init + [d], n).buf == Concat(init + [d])
    ensures AllAtLeast(Batching(init + [d], n).batches, n)
    ensures n > 0 ==> |Batching(init + [d], n).buf| < n
  {
    var prev := Batching(init, n);
    BatchingAppend(init, d, n);
    ConcatAppend(init, d);
    var buf := prev.buf + d;
    if |buf| >= n {
      ConcatAppend(prev.batches, buf);
      assert (prev.batches + [buf])[..|prev.batches|] == prev.batches;
    }
  }

  /** A batch is cut at the first payload that brings the buffer to the
      threshold: two payloads of a full batch each make two batches. */
  lemma TwoFullPayloadsTwoBatches(x: Bytes, y: Bytes, n: nat)
    requires |x| >= n && |y| >= n
    ensures Batching([x, y], n) == Batched([x, y], [])
  {
    BatchingAppend([], x, n);
    assert [] + [x] == [x];
    assert Batching([x], n) == Batched([x], []) by { assert [] + x == x; }
    BatchingAppend([x], y, n);
    assert [x] + [y] == [x, y];
    assert [] + y == y;
  }

  /** Sealing the buffer as a batch sends that batch's reply. */
  lemma Seal(batches: seq<Bytes>, buf: Bytes, model: Bytes -> seq<string>, transcript: seq<string> -> string)
    ensures Concat(batches + [buf]) == Concat(batches) + buf
    ensures Replies(batches + [buf], model, transcript) == Replies(batches, model, transcript) + SendFor(transcript(model(buf)))
  {
    ConcatAppend(batches, buf);
    assert (batches + [buf])[..|batches|] == batches;
  }
}
