/** One Twilio media-stream connection: the `start` event that binds the call
    to its session and transcriber, and the turn run for each final
    transcript (dialogue model, context update, spoken reply, settle timer). */
module TwilioWebSockets {
  import opened Wrappers
  import opened Json
  import opened Text
  import opened AudioStates
  import opened SessionManagers
  import opened Sessions
  import opened WhisperStreams
  import opened AudioCaptures
  import opened TtsHandlers
  import opened AiContext

  /** Delay before the session returns to listening after a reply. */
  const SettleDelayMs: nat := 400

  /** `session.context.streamSid`. */
  function StreamSidOf(ctx: Object): Option<Value>
  {
    if "streamSid" in ctx then Some(ctx["streamSid"]) else None
  }

  /** The context update a turn applies: `ctxOut.updatedContext` spread into the context. */
  function TurnUpdate(ctxOut: Value): Object
  {
    Spread(Get(ctxOut, "updatedContext"))
  }

  /** The registry after binding call `sid` at `now`: the id maps to its
      session (the one already there, or a new one), which is marked
      `ws_start`, started and given the stream id; its other fields are as
      they were (or as a new session has them), and every other session is
      untouched. */
  twostate predicate Bound(registry: SessionRegistry, sid: CallKey, streamSid: Option<Value>, now: nat)
    reads registry, registry.sessions.Values
  {
    && registry.Valid()
    && sid in registry.sessions
    && registry.sessions.Keys == old(registry.sessions.Keys) + {sid}
    && (forall k :: k in old(registry.sessions) ==> k in registry.sessions && registry.sessions[k] == old(registry.sessions[k]))
    && (forall k :: k in old(registry.sessions) && k != sid ==> unchanged(registry.sessions[k]))
    && var s := registry.sessions[sid];
       && s.callSid == sid && s.callStartTime == Some(now) && s.state == Listening
       && if sid in old(registry.sessions) then
            && s.marks == old(s.marks)[WsStart := now]
            && s.context == SetProp(old(s.context), "streamSid", streamSid)
            && s.sessionId == old(s.sessionId) && s.speechSegments == old(s.speechSegments)
            && s.transcription == old(s.transcription) && s.routedToAI == old(s.routedToAI)
            && s.finalPrompt == old(s.finalPrompt) && s.lastTranscription == old(s.lastTranscription)
            && s.lastTranscriptionTime == old(s.lastTranscriptionTime)
          else
            && fresh(s)
            && s.marks == map[WsStart := now]
            && s.context == SetProp(InitialContext(now), "streamSid", streamSid)
            && s.sessionId == "aichi-" + NatToString(now) && s.speechSegments == []
            && s.transcription == "" && !s.routedToAI && s.finalPrompt == Some(Str(""))
            && s.lastTranscription == None && s.lastTranscriptionTime == 0
  }

  /** The session side of a `start` event: the call's session is fetched or
      created, the turn baseline is marked, the call is started and the
      stream id stored. */
  method BindCall(registry: SessionRegistry, sid: CallKey, streamSid: Option<Value>, now: nat) returns (s: SessionManager)
    requires registry.Valid()
    modifies registry`sessions, registry.sessions.Values
    ensures Bound(registry, sid, streamSid, now) && s == registry.sessions[sid]
  {
    s := registry.GetSession(sid, now);
    s.Mark(WsStart, now);
    s.StartCall(sid, now);
    s.SetStreamSid(streamSid);
  }

  /** What a socket message did. */
  datatype StartOutcome = Ignored | Started | Failed(message: string)

  /** What the connection's message handler reads from a message before it
      changes anything. */
  datatype StartEvent = NotStart | StartThrows(message: string) | StartOf(callSid: CallKey, streamSid: Option<Value>)

  /** `data.event` on a JSON `null`, and `data.start.callSid` when `start` is
      missing or `null`, throw (the async listener's promise rejects);
      otherwise a `start` event yields its `callSid` and `streamSid` as they
      are, `undefined` or of any type. */
  function ReadStart(msg: InboundMessage): (e: StartEvent)
    ensures e.NotStart? <==> msg.NotJson? || (msg.v != Null && Get(msg.v, "event") != Some(Str("start")))
    ensures e.StartThrows? <==>
              msg.Json? && (msg.v == Null
                            || (Get(msg.v, "event") == Some(Str("start"))
                                && (Get(msg.v, "start").None? || Get(msg.v, "start") == Some(Null))))
    ensures e.StartOf? ==>
              && msg.Json? && Get(msg.v, "event") == Some(Str("start"))
              && Get(msg.v, "start").Some? && Get(msg.v, "start").value != Null
              && e.callSid == Get(Get(msg.v, "start").value, "callSid")
              && e.streamSid == Get(msg.v, "streamSid")
  {
    if msg.NotJson? then NotStart
    else if msg.v == Null then StartThrows("TypeError: Cannot read properties of null (reading 'event')")
    else if Get(msg.v, "event") != Some(Str("start")) then NotStart
    else
      var start := Get(msg.v, "start");
      if start.None? || start.value == Null
      then StartThrows("TypeError: Cannot read properties of " + (if start.None? then "undefined" else "null")
                       + " (reading 'callSid')")
      else StartOf(Get(start.value, "callSid"), Get(msg.v, "streamSid"))
  }

  /** What speaking a reply leaves behind besides the frames: the speaking
      flag set iff audio went out, and both temporary files removed. */
  ghost predicate SpokeReply(ws: MediaSocket, dir: AudioDir, wasSpeaking: bool, files: set<string>,
                             ttsTs: nat, synth: SynthOutcome, openAtSend: bool)
    reads ws, dir
  {
    && ws.isAiSpeaking == (if synth.Rendered? && openAtSend then true else wasSpeaking)
    && dir.files == files - {Mp3Path(ttsTs), UlawPath(ttsTs)}
  }

  class CallConnection {
    var callSid: CallKey
    var session: SessionManager?
    var whisper: WhisperStream?
    /** Whether inbound media is being forwarded to the transcriber. */
    var capturing: bool
    const audioCap: AudioCapture
    const tts: TtsHandler
    const ws: MediaSocket
    const dir: AudioDir
    /** The states the turn logic has set, in order. */
    ghost var states: seq<AudioState>

    constructor (ws: MediaSocket, dir: AudioDir)
      ensures callSid == Some(Str("")) && session == null && whisper == null && !capturing
      ensures this.ws == ws && this.dir == dir && fresh(audioCap) && fresh(tts)
      ensures audioCap.Valid() && tts.requests == [] && states == []
    {
      callSid := Some(Str(""));
      session := null;
      whisper := null;
      capturing := false;
      audioCap := new AudioCapture();
      tts := new TtsHandler();
      this.ws := ws;
      this.dir := dir;
      states := [];
    }

    /** A final transcript. Empty text and duplicates are dropped, and so is
        text arriving outside LISTENING (after the duplicate memory has
        recorded it); anything else runs a turn. */
    method HandleTranscript(text: string, now: int, gpt: GptOutcome,
                            ttsTs: nat, ticks: seq<bool>, synth: SynthOutcome, openAtSend: bool)
      returns (handled: bool)
      requires session != null
      modifies session`lastTranscription, session`lastTranscriptionTime
      modifies session`marks, session`state, session`context, session`transcription, session`finalPrompt
      modifies this`states, tts, ws, dir
      ensures handled <==> text != "" && old(session.state) == Listening
                           && !IsDuplicate(old(session.lastTranscription), old(session.lastTranscriptionTime), text, now)
      ensures text == "" ==> session.lastTranscription == old(session.lastTranscription)
                             && session.lastTranscriptionTime == old(session.lastTranscriptionTime)
      ensures text != "" && !IsDuplicate(old(session.lastTranscription), old(session.lastTranscriptionTime), text, now) ==>
                session.lastTranscription == Some(text) && session.lastTranscriptionTime == now
      ensures !handled ==>
                && session.state == old(session.state) && session.context == old(session.context)
                && session.marks == old(session.marks) && session.transcription == old(session.transcription)
                && session.finalPrompt == old(session.finalPrompt)
                && states == old(states) && tts.requests == old(tts.requests) && ws.sent == old(ws.sent)
                && ws.isAiSpeaking == old(ws.isAiSpeaking) && dir.files == old(dir.files)
      ensures handled ==> SpokeReply(ws, dir, old(ws.isAiSpeaking), old(dir.files), ttsTs, synth, openAtSend)
      ensures handled ==>
                var out := AnalyzeContext(old(session.context), gpt);
                && states == old(states) + [Processing, Responding]
                && session.state == Responding
                && session.marks == old(session.marks)[SttDone := now]
                && session.context == Merge(old(session.context), TurnUpdate(out))
                && session.transcription == text
                && tts.requests == old(tts.requests) + [Get(out, "response_text")]
                && ws.sent == old(ws.sent) + ReplyFrames(StreamSidOf(session.context), ticks, synth, openAtSend)
                && session.finalPrompt == Get(out, "response_text")
    {
      if text == "" {
        return false;
      }
      var dup := session.CheckDuplicateTranscription(text, now);
      if dup || session.state != Listening {
        return false;
      }
      RunTurn(text, now, gpt, ttsTs, ticks, synth, openAtSend);
      handled := true;
    }

    /** The turn itself: PROCESSING, the dialogue model's output (`gpt`)
        merged into the context, the transcript stored, RESPONDING, the reply
        spoken once and kept as the final prompt. The remaining parameters
        are the external outcomes of speaking (see `SpeakViaWebSocket`). */
    method RunTurn(text: string, now: int, gpt: GptOutcome,
                   ttsTs: nat, ticks: seq<bool>, synth: SynthOutcome, openAtSend: bool)
      requires session != null
      modifies session`marks, session`state, session`context, session`transcription, session`finalPrompt
      modifies this`states, tts, ws, dir
      ensures SpokeReply(ws, dir, old(ws.isAiSpeaking), old(dir.files), ttsTs, synth, openAtSend)
      ensures var out := AnalyzeContext(old(session.context), gpt);
              && states == old(states) + [Processing, Responding]
              && session.state == Responding
              && session.marks == old(session.marks)[SttDone := now]
              && session.context == Merge(old(session.context), TurnUpdate(out))
              && session.transcription == text
              && tts.requests == old(tts.requests) + [Get(out, "response_text")]
              && ws.sent == old(ws.sent) + ReplyFrames(StreamSidOf(session.context), ticks, synth, openAtSend)
              && session.finalPrompt == Get(out, "response_text")
    {
      var ctxOut := Think(text, now, gpt);
      Speak(ctxOut, ttsTs, ticks, synth, openAtSend);
    }

    /** The first half of a turn, up to RESPONDING; returns the dialogue
        model's (post-processed) output. */
    method Think(text: string, now: int, gpt: GptOutcome) returns (ctxOut: Value)
      requires session != null
      modifies session`marks, session`state, session`context, session`transcription, this`states
      ensures ctxOut == AnalyzeContext(old(session.context), gpt)
      ensures states == old(states) + [Processing, Responding]
      ensures session.state == Responding
      ensures session.marks == old(session.marks)[SttDone := now]
      ensures session.context == Merge(old(session.context), TurnUpdate(ctxOut))
      ensures session.transcription == text
    {
      var s := session;
      s.Mark(SttDone, now);
      var _ := s.SetState(Processing);
      ctxOut := AnalyzeContext(s.context, gpt);
      s.UpdateContext(TurnUpdate(ctxOut));
      s.SetTranscription(text);
      // `routeDecision(ctxOut)` comes here; its result is discarded, and it
      // cannot throw because the output is never null (`AnalyzeContext`).
      var _ := s.SetState(Responding);
      states := states + [Processing, Responding];
    }

    /** The second half: the reply spoken once on the stream, then kept as
        the final prompt. */
    method Speak(ctxOut: Value, ttsTs: nat, ticks: seq<bool>, synth: SynthOutcome, openAtSend: bool)
      requires session != null
      modifies session`finalPrompt, tts, ws, dir
      ensures SpokeReply(ws, dir, old(ws.isAiSpeaking), old(dir.files), ttsTs, synth, openAtSend)
      ensures tts.requests == old(tts.requests) + [Get(ctxOut, "response_text")]
      ensures ws.sent == old(ws.sent) + ReplyFrames(StreamSidOf(session.context), ticks, synth, openAtSend)
      ensures session.finalPrompt == Get(ctxOut, "response_text")
    {
      var _ := tts.SpeakViaWebSocket(ws, dir, StreamSidOf(session.context), Get(ctxOut, "response_text"),
                                     ttsTs, ticks, synth, openAtSend);
      session.SetFinalPrompt(Get(ctxOut, "response_text"));
    }

    /** The settle timer of a handled turn: back to LISTENING, the latency
        report taken and the marks cleared, and the next turn's baseline. */
    method SettleTimerFires(now: int) returns (report: map<string, int>)
      requires session != null
      modifies session`state, session`marks, this`states
      ensures session.state == Listening
      ensures states == old(states) + [Listening]
      ensures session.marks == map[WsStart := now]
    {
      var _ := session.SetState(Listening);
      states := states + [Listening];
      report := session.DumpTimingAndReset(now);
      session.Mark(WsStart, now);
    }

    /** A message on the media socket, as the connection's own handler sees
        it: only a `start` event does anything. It binds the call id,
        fetches (or creates) the session, marks the turn baseline, starts the
        call, stores the stream id and connects the transcriber; audio is
        forwarded once that connection is open. A message that makes the
        handler throw changes nothing. */
    method OnMessage(msg: InboundMessage, registry: SessionRegistry, now: nat, connect: ConnectOutcome)
      returns (outcome: StartOutcome)
      requires registry.Valid()
      modifies this`callSid, this`session, this`whisper, this`capturing, registry`sessions, registry.sessions.Values
      ensures outcome == Ignored <==> ReadStart(msg).NotStart?
      ensures outcome.Failed? <==> ReadStart(msg).StartThrows?
      ensures outcome.Failed? ==> outcome.message == ReadStart(msg).message
      ensures !outcome.Started? ==>
                unchanged(this) && registry.sessions == old(registry.sessions) && unchanged(registry.sessions.Values)
      ensures outcome.Started? ==>
                var e := ReadStart(msg);
                && callSid == e.callSid
                && Bound(registry, callSid, e.streamSid, now)
                && callSid in registry.sessions && session == registry.sessions[callSid]
                && whisper != null && whisper.session == session
                && (capturing <==> connect.Opened?)
    {
      var e := ReadStart(msg);
      match e {
        case NotStart =>
          return Ignored;
        case StartThrows(m) =>
          return Failed(m);
        case StartOf(sid, streamSid) =>
          callSid := sid;
          var s := BindCall(registry, sid, streamSid, now);
          session := s;
          var w := new WhisperStream(s);
          whisper := w;
          var r := w.Connect(connect);
          capturing := r.Ok?;
          outcome := Started;
      }
    }

    /** The socket closed: the transcriber's socket is closed too. */
    method OnClose()
      modifies Stream(whisper)`ws
      ensures whisper != null ==> whisper.ws == match old(whisper.ws)
                                                case None => None
                                                case Some(r) => Some(if r == Connecting || r == Open then Closing else r)
    {
      if whisper != null {
        whisper.Close();
      }
    }
  }
}
