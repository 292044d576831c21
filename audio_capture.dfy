/** Inbound media handling: drops what is not a media frame, marks the first
    frame of each caller turn, forwards every frame to the transcription
    stream and keeps a rolling buffer of the last 200 ms. */
module AudioCaptures {
  import opened Wrappers
  import opened Json
  import opened AudioStates
  import opened SessionManagers
  import opened WhisperStreams

  const FrameBytes: nat := 160
  const ChunkFrames: nat := 10
  const ChunkBytes: nat := FrameBytes * ChunkFrames

  /** A Twilio message: JSON text, or text that does not parse. */
  datatype InboundMessage = NotJson | Json(v: Value)

  /** What the media listener reads from a message before it changes anything. */
  datatype MediaRead = NoMedia | ReadThrows(message: string) | Payload(payload: Value)

  /** A message that does not parse is skipped, and so is anything but a
      `media` event whose `media?.payload` is truthy. `data.event` on a JSON
      `null` throws; the listener is synchronous, so the exception escapes it. */
  function MediaPayload(msg: InboundMessage): (m: MediaRead)
    ensures m.ReadThrows? <==> msg == Json(Null)
    ensures m.Payload? <==>
              && msg.Json? && msg.v != Null && Get(msg.v, "event") == Some(Str("media"))
              && Get(msg.v, "media").Some? && TruthyOpt(Get(Get(msg.v, "media").value, "payload"))
    ensures m.Payload? ==> Truthy(m.payload) && Some(m.payload) == Get(Get(msg.v, "media").value, "payload")
  {
    if msg.NotJson? then NoMedia
    else if msg.v == Null then ReadThrows("TypeError: Cannot read properties of null (reading 'event')")
    else if Get(msg.v, "event") != Some(Str("media")) then NoMedia
    else
      var media := Get(msg.v, "media");
      if media.None? then NoMedia
      else
        var payload := Get(media.value, "payload");
        if TruthyOpt(payload) then Payload(payload.value) else NoMedia
  }

  /** `Buffer.from(payload, 'base64')` on a truthy payload: a string is
      base64-decoded (`decode`), a number or a boolean throws, and an array
      or object goes through Node's own conversion (`fromObject`, `None`
      where it throws). */
  function FrameOf(payload: Value, decode: string -> Bytes, fromObject: Value -> Option<Bytes>): (r: Result<Bytes>)
    ensures payload.Str? ==> r == Ok(decode(payload.s))
    ensures payload.Num? || payload.Bool? ==> r.Err?
    ensures payload.Arr? || payload.Obj? ==> (r.Ok? <==> fromObject(payload).Some?)
    ensures (payload.Arr? || payload.Obj?) && r.Ok? ==> r.value == fromObject(payload).value
  {
    match payload
    case Str(s) => Ok(decode(s))
    case Num(_) => Err("TypeError [ERR_INVALID_ARG_TYPE]: received type number")
    case Bool(_) => Err("TypeError [ERR_INVALID_ARG_TYPE]: received type boolean")
    case Null => Err("TypeError [ERR_INVALID_ARG_TYPE]: received null")
    case _ =>
      var b := fromObject(payload);
      if b.Some? then Ok(b.value) else Err("TypeError [ERR_INVALID_ARG_TYPE]: received an object")
  }

  /** What one message comes to: skipped, a frame to forward, or a throw
      before any state is touched. */
  datatype Captured = Dropped | Forwarded(frame: Bytes) | Threw(message: string)

  function Ingress(msg: InboundMessage, decode: string -> Bytes, fromObject: Value -> Option<Bytes>): (c: Captured)
    ensures c.Dropped? <==> MediaPayload(msg).NoMedia?
    ensures c.Forwarded? <==> MediaPayload(msg).Payload? && FrameOf(MediaPayload(msg).payload, decode, fromObject).Ok?
    ensures c.Forwarded? ==> c.frame == FrameOf(MediaPayload(msg).payload, decode, fromObject).value
  {
    match MediaPayload(msg)
    case NoMedia => Dropped
    case ReadThrows(m) => Threw(m)
    case Payload(p) =>
      match FrameOf(p, decode, fromObject)
      case Ok(f) => Forwarded(f)
      case Err(m) => Threw(m)
  }

  /** A non-empty string payload of a `media` event is forwarded decoded; a
      number or boolean payload, and a JSON `null` message, throw. */
  lemma IngressCases(msg: InboundMessage, decode: string -> Bytes, fromObject: Value -> Option<Bytes>)
    ensures msg == Json(Null) ==> Ingress(msg, decode, fromObject).Threw?
    ensures MediaPayload(msg).Payload? && MediaPayload(msg).payload.Str? ==>
              Ingress(msg, decode, fromObject) == Forwarded(decode(MediaPayload(msg).payload.s))
              && MediaPayload(msg).payload.s != ""
    ensures MediaPayload(msg).Payload? && (MediaPayload(msg).payload.Num? || MediaPayload(msg).payload.Bool?) ==>
              Ingress(msg, decode, fromObject).Threw?
  {
  }

  /** The last `n` bytes (all of them if there are fewer). */
  function Tail(s: Bytes, n: nat): (r: Bytes)
    ensures |r| <= n && |r| <= |s|
  {
    if |s| <= n then s else s[|s| - n..]
  }

  /** Trimming before appending loses nothing that trimming afterwards keeps. */
  lemma TailAppend(a: Bytes, f: Bytes, n: nat)
    ensures Tail(Tail(a, n) + f, n) == Tail(a + f, n)
  {
    var t := Tail(a, n);
    if |a| > n {
      assert a == a[..|a| - n] + t;
      assert a + f == a[..|a| - n] + (t + f);
    }
  }

  /** Whether the stream's session exists and is LISTENING. */
  predicate SessionListening(whisper: WhisperStream?)
    reads Stream(whisper), SessionOf(whisper)
  {
    whisper != null && whisper.session != null && whisper.session.state == AudioStates.Listening
  }

  class AudioCapture {
    var buf: Bytes
    var inTurn: bool
    /** Every byte accepted since construction or the last `Reset`. */
    ghost var received: Bytes

    ghost predicate Valid()
      reads this
    {
      buf == Tail(received, ChunkBytes)
    }

    constructor ()
      ensures Valid() && buf == [] && !inTurn && received == []
    {
      buf := [];
      inTurn := false;
      received := [];
    }

    /** Turn marking: the first frame seen in LISTENING marks `ws_start`; a
        frame seen without a session, or in any other state, ends the turn. */
    method MarkTurn(whisper: WhisperStream?, now: int)
      modifies this`inTurn, SessionOf(whisper)`marks
      ensures inTurn == SessionListening(whisper)
      ensures whisper != null && whisper.session != null ==>
                whisper.session.marks ==
                  if SessionListening(whisper) && !old(inTurn) then old(whisper.session.marks)[WsStart := now]
                  else old(whisper.session.marks)
    {
      var session := if whisper == null then null else whisper.session;
      if session != null && session.state == Listening {
        if !inTurn {
          session.Mark(WsStart, now);
          inTurn := true;
        }
      } else {
        inTurn := false;
      }
    }

    /** Appends to the rolling buffer and keeps its last 1600 bytes. */
    method Remember(frame: Bytes)
      requires Valid()
      modifies this`buf, this`received
      ensures Valid()
      ensures received == old(received) + frame
      ensures buf == Tail(old(buf) + frame, ChunkBytes)
    {
      TailAppend(received, frame, ChunkBytes);
      buf := buf + frame;
      if |buf| > ChunkBytes {
        buf := buf[|buf| - ChunkBytes..];
      }
      received := received + frame;
    }

    /** Handles one inbound message. `decode` is base64 decoding and
        `fromObject` Node's conversion of an array or object payload. A
        message that throws changes nothing. */
    method OnMessage(msg: InboundMessage, whisper: WhisperStream?, decode: string -> Bytes,
                     fromObject: Value -> Option<Bytes>, now: int)
      returns (outcome: Captured)
      requires Valid()
      modifies this, Stream(whisper)`sent, SessionOf(whisper)`marks
      ensures Valid()
      ensures outcome == Ingress(msg, decode, fromObject)
      ensures !outcome.Forwarded? ==>
                buf == old(buf) && inTurn == old(inTurn) && received == old(received)
                && (whisper != null ==> whisper.sent == old(whisper.sent))
                && (whisper != null && whisper.session != null ==> whisper.session.marks == old(whisper.session.marks))
      ensures outcome.Forwarded? ==> received == old(received) + outcome.frame
      ensures outcome.Forwarded? ==> buf == Tail(old(buf) + outcome.frame, ChunkBytes)
      ensures outcome.Forwarded? ==> inTurn == SessionListening(whisper)
      ensures outcome.Forwarded? && whisper != null ==>
                whisper.sent == if whisper.ws == Some(Open) then old(whisper.sent) + [outcome.frame]
                                else old(whisper.sent)
      ensures outcome.Forwarded? && whisper != null && whisper.session != null ==>
                whisper.session.marks ==
                  if SessionListening(whisper) && !old(inTurn) then old(whisper.session.marks)[WsStart := now]
                  else old(whisper.session.marks)
    {
      outcome := Ingress(msg, decode, fromObject);
      if !outcome.Forwarded? {
        return;
      }
      var frame := outcome.frame;
      MarkTurn(whisper, now);
      if whisper != null {
        whisper.SendFrame(frame);
      }
      Remember(frame);
    }

    method Reset()
      modifies this
      ensures Valid() && buf == [] && !inTurn
    {
      buf := [];
      inTurn := false;
      received := [];
    }
  }

  /** The rolling buffer is never longer than 1600 bytes, and holds all bytes
      received when there were no more than that. */
  lemma BufferBound(c: AudioCapture)
    requires c.Valid()
    ensures |c.buf| <= ChunkBytes
    ensures |c.received| <= ChunkBytes ==> c.buf == c.received
  {
  }
}
