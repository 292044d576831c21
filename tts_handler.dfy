/** Speaking a reply on the call's media socket: synthesis and μ-law encoding
    (external, an outcome parameter) run while keep-alive frames are sent;
    then one outbound media frame and one playback mark, and the temporary
    files are removed whatever happened. */
module TtsHandlers {
  import opened Wrappers
  import opened Json
  import opened Text

  const OutboundTrack := "outbound"
  const EndOfTts := "endOfTTS"
  /** Period of the keep-alive timer. */
  const KeepAliveMs: nat := 2000
  /** Extra time the speaking flag stays set after the audio's own length. */
  const SpeakingSlackMs: nat := 100

  /** A frame written to the media socket. `streamSid` is absent from the JSON
      when the context holds none; the media payload is the audio before its
      base64 encoding. */
  datatype OutFrame =
    | MediaFrame(streamSid: Option<Value>, track: string, payload: Bytes)
    | MarkFrame(streamSid: Option<Value>, name: string)

  /** How far synthesis got: the speech service failed (nothing usable
      written), ffmpeg or the file read failed (the mp3 exists), or μ-law
      audio was produced. */
  datatype SynthOutcome = SpeechFailed(message: string) | EncodeFailed(message: string) | Rendered(ulaw: Bytes)

  function Mp3Path(ts: nat): string { "resp-" + NatToString(ts) + ".mp3" }
  function UlawPath(ts: nat): string { "resp-" + NatToString(ts) + ".ulaw" }

  /** `Math.ceil(len / 8) + 100`: one millisecond per 8 bytes of 8 kHz μ-law. */
  function SpeakingMs(len: nat): (ms: nat)
    ensures 8 * (ms - SpeakingSlackMs) >= len
    ensures 8 * (ms - SpeakingSlackMs) < len + 8
  {
    (len + 7) / 8 + SpeakingSlackMs
  }

  function KeepAlive(streamSid: Option<Value>): OutFrame
  {
    MediaFrame(streamSid, OutboundTrack, [])
  }

  /** The keep-alive frames for a sequence of timer ticks, each tick saying
      whether the socket was open then. */
  function KeepAlives(streamSid: Option<Value>, ticks: seq<bool>): (r: seq<OutFrame>)
  {
    if ticks == [] then []
    else KeepAlives(streamSid, ticks[..|ticks| - 1]) + (if ticks[|ticks| - 1] then [KeepAlive(streamSid)] else [])
  }

  /** Keep-alives are empty outbound media frames, one per tick at which the
      socket was open. */
  lemma {:induction false} KeepAlivesShape(streamSid: Option<Value>, ticks: seq<bool>)
    ensures |KeepAlives(streamSid, ticks)| <= |ticks|
    ensures forall f :: f in KeepAlives(streamSid, ticks) ==> f == MediaFrame(streamSid, OutboundTrack, [])
    ensures (forall i :: 0 <= i < |ticks| ==> !ticks[i]) ==> KeepAlives(streamSid, ticks) == []
  {
    if ticks != [] {
      KeepAlivesShape(streamSid, ticks[..|ticks| - 1]);
    }
  }

  /** The frames of a reply: keep-alives, then (with audio and an open
      socket) the single media frame and the mark. */
  function ReplyFrames(streamSid: Option<Value>, ticks: seq<bool>, outcome: SynthOutcome, openAtSend: bool): seq<OutFrame>
  {
    KeepAlives(streamSid, ticks)
      + (if outcome.Rendered? && openAtSend
         then [MediaFrame(streamSid, OutboundTrack, outcome.ulaw), MarkFrame(streamSid, EndOfTts)]
         else [])
  }

  /** Exactly one frame carries the audio and exactly one is a mark, the mark
      comes last and every earlier frame is a keep-alive; with no audio or a
      closed socket there are only keep-alives. */
  lemma ReplyFramesShape(streamSid: Option<Value>, ticks: seq<bool>, outcome: SynthOutcome, openAtSend: bool)
    ensures var r := ReplyFrames(streamSid, ticks, outcome, openAtSend);
            var k := |KeepAlives(streamSid, ticks)|;
            && (forall i :: 0 <= i < k ==> r[i] == KeepAlive(streamSid))
            && (outcome.Rendered? && openAtSend ==>
                  |r| == k + 2 && r[k] == MediaFrame(streamSid, OutboundTrack, outcome.ulaw)
                  && r[k + 1] == MarkFrame(streamSid, EndOfTts))
            && (!(outcome.Rendered? && openAtSend) ==> |r| == k)
  {
    KeepAlivesShape(streamSid, ticks);
    var ka := KeepAlives(streamSid, ticks);
    forall i | 0 <= i < |ka| ensures ka[i] == KeepAlive(streamSid) {
      assert ka[i] in ka;
    }
  }

  /** The call's media socket as far as speaking is concerned. */
  class MediaSocket {
    var sent: seq<OutFrame>
    var isAiSpeaking: bool

    constructor ()
      ensures sent == [] && !isAiSpeaking
    {
      sent := [];
      isAiSpeaking := false;
    }

    method Send(f: OutFrame)
      modifies this`sent
      ensures sent == old(sent) + [f]
    {
      sent := sent + [f];
    }

    /** The timer started after a reply clears the speaking flag. */
    method SpeakingTimerFires()
      modifies this`isAiSpeaking
      ensures !isAiSpeaking
    {
      isAiSpeaking := false;
    }
  }

  /** The directory holding the temporary audio files. */
  class AudioDir {
    var files: set<string>

    constructor ()
      ensures files == {}
    {
      files := {};
    }

    /** `Promise.allSettled([unlink(a), unlink(b)])`: a missing file is no error. */
    method UnlinkBoth(a: string, b: string)
      modifies this
      ensures files == old(files) - {a, b}
    {
      files := files - {a, b};
    }
  }

  class TtsHandler {
    /** The texts handed to speech synthesis, in order. */
    ghost var requests: seq<Option<Value>>

    constructor ()
      ensures requests == []
    {
      requests := [];
    }

    /** Speaks `text` on `ws`. `ts` is the clock reading naming the temporary
        files; `ticks` are the keep-alive timer's firings while synthesis
        runs; `openAtSend` is the socket's state once audio is ready. Returns
        the delay after which the speaking flag is cleared, when it was set. */
    method SpeakViaWebSocket(ws: MediaSocket, dir: AudioDir, streamSid: Option<Value>, text: Option<Value>,
                             ts: nat, ticks: seq<bool>, outcome: SynthOutcome, openAtSend: bool)
      returns (clearAfter: Option<nat>)
      modifies this, ws, dir
      ensures requests == old(requests) + [text]
      ensures ws.sent == old(ws.sent) + ReplyFrames(streamSid, ticks, outcome, openAtSend)
      ensures outcome.Rendered? && openAtSend ==>
                ws.isAiSpeaking && clearAfter == Some(SpeakingMs(|outcome.ulaw|))
      ensures !(outcome.Rendered? && openAtSend) ==>
                ws.isAiSpeaking == old(ws.isAiSpeaking) && clearAfter == None
      ensures dir.files == old(dir.files) - {Mp3Path(ts), UlawPath(ts)}
    {
      requests := requests + [text];
      var mp3 := Mp3Path(ts);
      var ulaw := UlawPath(ts);
      // keep-alive pings while the external steps run
      var k := 0;
      while k < |ticks|
        invariant 0 <= k <= |ticks|
        invariant ws.sent == old(ws.sent) + KeepAlives(streamSid, ticks[..k])
        invariant ws.isAiSpeaking == old(ws.isAiSpeaking)
        invariant dir.files == old(dir.files)
        invariant requests == old(requests) + [text]
      {
        assert ticks[..k + 1][..k] == ticks[..k];
        if ticks[k] {
          ws.Send(KeepAlive(streamSid));
        }
        k := k + 1;
      }
      assert ticks[..|ticks|] == ticks;
      ghost var pinged := ws.sent;
      ghost var ka := KeepAlives(streamSid, ticks);
      if !(outcome.Rendered? && openAtSend) {
        assert ReplyFrames(streamSid, ticks, outcome, openAtSend) == ka + [];
        assert ka + [] == ka;
      }
      clearAfter := None;
      match outcome {
        case SpeechFailed(_) =>
        case EncodeFailed(_) =>
          dir.files := dir.files + {mp3};
        case Rendered(audio) =>
          dir.files := dir.files + {mp3, ulaw};
          if openAtSend {
            ws.isAiSpeaking := true;
            ws.Send(MediaFrame(streamSid, OutboundTrack, audio));
            ws.Send(MarkFrame(streamSid, EndOfTts));
            clearAfter := Some(SpeakingMs(|audio|));
            assert ws.sent == pinged + [MediaFrame(streamSid, OutboundTrack, audio), MarkFrame(streamSid, EndOfTts)];
          }
      }
      // finally: both temporary files go, whatever happened
      dir.UnlinkBoth(mp3, ulaw);
    }
  }
}
