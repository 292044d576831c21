/** The client side of the streaming transcription connection: frames go out
    while the socket is open, and every final result is handed on at once
    (no aggregation, no debounce). */
module WhisperStreams {
  import opened Wrappers
  import opened Json
  import opened Text
  import opened SessionManagers

  /** WebSocket `readyState`. */
  datatype ReadyState = Connecting | Open | Closing | Closed

  /** How the connection attempt ends: the `open` event or the `error` event. */
  datatype ConnectOutcome = Opened | Errored(message: string)

  /** A server message: JSON text, or text that does not parse. */
  datatype ServerMessage = Unparsable | Parsed(v: Value)

  /** What the handler does with one message: whether it marks `stt_done`, and
      the text it passes to `onFinal`, if any. */
  datatype Handling = Handling(marksSttDone: bool, onFinal: Option<string>)

  const SttDone: string := "stt_done"

  /** The `message` handler. Reading `is_final` of a JSON `null`, or calling
      `trim` on a truthy `text` that is not a string, throws inside the handler:
      the first before anything is done, the second after the mark. */
  function HandleMessage(msg: ServerMessage): (h: Handling)
    ensures h.onFinal.Some? ==> h.marksSttDone && h.onFinal.value != ""
    ensures h.marksSttDone <==> msg.Parsed? && msg.v != Null && TruthyOpt(Get(msg.v, "is_final"))
    ensures h.onFinal.Some? <==>
              h.marksSttDone && Get(msg.v, "text").Some? && Get(msg.v, "text").value.Str?
              && JsTrim(Get(msg.v, "text").value.s) != ""
    ensures h.onFinal.Some? ==> h.onFinal.value == JsTrim(Get(msg.v, "text").value.s)
  {
    match msg
    case Unparsable => Handling(false, None)
    case Parsed(v) =>
      if v == Null || !TruthyOpt(Get(v, "is_final")) then Handling(false, None)
      else
        var text := Get(v, "text");
        if !TruthyOpt(text) then Handling(true, None)
        else if !text.value.Str? then Handling(true, None)
        else
          var txt := JsTrim(text.value.s);
          Handling(true, if txt != "" then Some(txt) else None)
  }

  /** The text handed to `onFinal` is already trimmed. */
  lemma DeliveredTextIsTrimmed(msg: ServerMessage)
    requires HandleMessage(msg).onFinal.Some?
    ensures JsTrim(HandleMessage(msg).onFinal.value) == HandleMessage(msg).onFinal.value
  {
    TrimIdempotent(Get(msg.v, "text").value.s, IsJsSpace);
  }

  /** The stream, if there is one, as a frame set. */
  function Stream(w: WhisperStream?): set<WhisperStream>
  {
    if w == null then {} else {w}
  }

  /** The session a stream reports to, if there is one, as a frame set. */
  function SessionOf(w: WhisperStream?): set<SessionManager>
    reads Stream(w)
  {
    if w == null then {} else Present(w.session)
  }

  class WhisperStream {
    /** The session that receives latency marks, if any. */
    var session: SessionManager?
    /** `null` until `Connect`. */
    var ws: Option<ReadyState>
    /** Frames written on the socket, in order. */
    var sent: seq<Bytes>

    constructor (session: SessionManager?)
      ensures this.session == session && ws == None && sent == []
    {
      this.session := session;
      ws := None;
      sent := [];
    }

    /** Opens the socket: resolves on `open`, rejects on `error`. */
    method Connect(outcome: ConnectOutcome) returns (r: Result<()>)
      modifies this`ws
      ensures r.Ok? <==> outcome.Opened?
      ensures ws == Some(if outcome.Opened? then Open else Closed)
    {
      match outcome
      case Opened =>
        ws := Some(Open);
        r := Ok(());
      case Errored(m) =>
        ws := Some(Closed);
        r := Err(m);
    }

    /** Runs the message handler: marks `stt_done` on every final result and
        returns the text for `onFinal`. */
    method OnMessage(msg: ServerMessage, now: int) returns (onFinal: Option<string>)
      modifies Present(session)`marks
      ensures onFinal == HandleMessage(msg).onFinal
      ensures session != null ==>
                session.marks == if HandleMessage(msg).marksSttDone then old(session.marks)[SttDone := now] else old(session.marks)
    {
      var h := HandleMessage(msg);
      if h.marksSttDone && session != null {
        session.Mark(SttDone, now);
      }
      onFinal := h.onFinal;
    }

    /** Sends while the socket is open, drops silently otherwise. */
    method SendFrame(frame: Bytes)
      modifies this`sent
      ensures sent == if ws == Some(Open) then old(sent) + [frame] else old(sent)
    {
      if ws == Some(Open) {
        sent := sent + [frame];
      }
    }

    method Close()
      modifies this`ws
      ensures ws == match old(ws)
                   case None => None
                   case Some(s) => Some(if s == Connecting || s == Open then Closing else s)
    {
      match ws
      case None =>
      case Some(s) =>
        if s == Connecting || s == Open {
          ws := Some(Closing);
        }
    }
  }
}
