/** Voice-activity segmentation: frames are grouped into blocks of 25, each
    block is classified (an external service, here a reply parameter), and the
    speech run is flushed to transcription after 500 ms of silence or once it
    has lasted 10 s. */
module VadProcessors {
  import opened Wrappers
  import opened SessionManagers
  import opened AudioProcessors

  const FramesNeeded: nat := 25
  const SilenceThresholdMs: int := 500
  const MaxSpeechMs: int := 10000
  /** At most one classifier error is logged per this many milliseconds. */
  const ErrorLogIntervalMs: int := 1000

  /** The classifier service's answer for one block, or its failure. */
  datatype SileroReply = SileroAnswered(isSpeech: bool) | SileroFailed(message: string)

  /** The speech-run part of the segmenter's state. */
  datatype Run = Run(isSpeaking: bool, speechStartTime: int, lastSpeechTime: int, segmentBuf: seq<Bytes>)

  /** A run is speaking exactly when it holds speech. */
  predicate RunInvariant(r: Run)
  {
    r.isSpeaking <==> r.segmentBuf != []
  }

  /** Bookkeeping for a classified block: a speech block starts the run on
      the not-speaking to speaking edge, refreshes `lastSpeechTime` and is
      appended; a silent block changes nothing. */
  function Classified(r: Run, block: Bytes, isSpeech: bool, now: int): Run
  {
    if !isSpeech then r
    else Run(true, if r.isSpeaking then r.speechStartTime else now, now, r.segmentBuf + [block])
  }

  /** `flush`'s effect on the run: nothing when there is no speech, otherwise
      an empty buffer and not speaking. */
  function Flushed(r: Run): (f: Run)
    ensures r.segmentBuf != [] ==> f.segmentBuf == [] && !f.isSpeaking
    ensures r.segmentBuf == [] ==> f == r
  {
    if r.segmentBuf == [] then r else r.(segmentBuf := [], isSpeaking := false)
  }

  /** The segments a flush hands to transcription (none for an empty buffer). */
  function FlushedSegments(r: Run): seq<Bytes>
  {
    if r.segmentBuf == [] then [] else [Concat(r.segmentBuf)]
  }

  predicate SilenceTrigger(a: Run, isSpeech: bool, now: int)
  {
    !isSpeech && a.isSpeaking && now - a.lastSpeechTime >= SilenceThresholdMs
  }

  predicate CapTrigger(b: Run, now: int)
  {
    b.isSpeaking && now - b.speechStartTime >= MaxSpeechMs
  }

  datatype StepResult = StepResult(run: Run, flushed: seq<Bytes>)

  /** One classified block: bookkeeping, then the silence trigger, then the
      duration cap, each flushing when it fires. */
  function Step(r: Run, block: Bytes, isSpeech: bool, now: int): StepResult
  {
    var a := Classified(r, block, isSpeech, now);
    var b := if SilenceTrigger(a, isSpeech, now) then Flushed(a) else a;
    var f1 := if SilenceTrigger(a, isSpeech, now) then FlushedSegments(a) else [];
    var c := if CapTrigger(b, now) then Flushed(b) else b;
    var f2 := if CapTrigger(b, now) then FlushedSegments(b) else [];
    StepResult(c, f1 + f2)
  }

  /** The flush rule in one statement: a block flushes iff the run was
      speaking and either this block is silent after 500 ms without speech or
      the run has reached 10 s; the flushed segment is the whole run including
      this block, and at most one flush happens. Otherwise the block is only
      booked. The invariant is preserved either way. */
  lemma {:induction false} StepFlushRule(r: Run, block: Bytes, isSpeech: bool, now: int)
    requires RunInvariant(r)
    ensures var s := Step(r, block, isSpeech, now);
            var a := Classified(r, block, isSpeech, now);
            var fires := r.isSpeaking && ((!isSpeech && now - r.lastSpeechTime >= SilenceThresholdMs)
                                          || now - r.speechStartTime >= MaxSpeechMs);
            && RunInvariant(s.run)
            && |s.flushed| <= 1
            && (fires ==> s.flushed == [Concat(a.segmentBuf)] && s.run == a.(segmentBuf := [], isSpeaking := false))
            && (!fires ==> s.flushed == [] && s.run == a)
  {
    var a := Classified(r, block, isSpeech, now);
    if isSpeech {
      assert a.segmentBuf != [];
      assert !SilenceTrigger(a, isSpeech, now);
      if r.isSpeaking {
        assert a.speechStartTime == r.speechStartTime;
      } else {
        assert a.speechStartTime == now;
        assert !CapTrigger(a, now);
      }
    } else {
      assert a == r;
      if SilenceTrigger(a, isSpeech, now) {
        assert !Flushed(a).isSpeaking;
      }
    }
  }

  /** `speechStartTime` moves only on the not-speaking to speaking edge, and
      `lastSpeechTime` is `now` exactly after a speech block. */
  lemma StepTimes(r: Run, block: Bytes, isSpeech: bool, now: int)
    requires RunInvariant(r)
    ensures Step(r, block, isSpeech, now).run.speechStartTime ==
              if isSpeech && !r.isSpeaking then now else r.speechStartTime
    ensures Step(r, block, isSpeech, now).run.lastSpeechTime ==
              if isSpeech then now else r.lastSpeechTime
  {
    StepFlushRule(r, block, isSpeech, now);
  }

  /** A classified block: its bytes, the classifier's verdict, the time. */
  datatype Block = Block(bytes: Bytes, isSpeech: bool, now: int)

  /** A sequence of blocks run through `Step`. */
  function Steps(r: Run, blocks: seq<Block>): StepResult
    decreases |blocks|
  {
    if blocks == [] then StepResult(r, [])
    else
      var s := Step(r, blocks[0].bytes, blocks[0].isSpeech, blocks[0].now);
      var rest := Steps(s.run, blocks[1..]);
      StepResult(rest.run, s.flushed + rest.flushed)
  }

  /** Silence alone never flushes: from a run that is not speaking, blocks
      that are all classified as non-speech flush nothing and change nothing. */
  lemma {:induction false} NoSpeechNoFlush(r: Run, blocks: seq<Block>)
    requires RunInvariant(r) && !r.isSpeaking
    requires forall i :: 0 <= i < |blocks| ==> !blocks[i].isSpeech
    ensures Steps(r, blocks) == StepResult(r, [])
    decreases |blocks|
  {
    if blocks != [] {
      StepFlushRule(r, blocks[0].bytes, false, blocks[0].now);
      NoSpeechNoFlush(r, blocks[1..]);
    }
  }

  /** The bytes of the speech blocks, in order. */
  function SpeechBytes(blocks: seq<Block>): Bytes
    decreases |blocks|
  {
    if blocks == [] then [] else (if blocks[0].isSpeech then blocks[0].bytes else []) + SpeechBytes(blocks[1..])
  }

  /** One block: what is flushed, followed by what stays buffered, is what
      was buffered followed by the block if it is speech. */
  lemma StepKeepsSpeech(r: Run, block: Bytes, isSpeech: bool, now: int)
    requires RunInvariant(r)
    ensures var s := Step(r, block, isSpeech, now);
            Concat(s.flushed) + Concat(s.run.segmentBuf) == Concat(r.segmentBuf) + (if isSpeech then block else [])
  {
    StepFlushRule(r, block, isSpeech, now);
    var a := Classified(r, block, isSpeech, now);
    var s := Step(r, block, isSpeech, now);
    if isSpeech {
      ConcatAppend(r.segmentBuf, block);
    }
    assert Concat(a.segmentBuf) == Concat(r.segmentBuf) + (if isSpeech then block else []);
    if s.flushed != [] {
      assert Concat(s.flushed) == Concat(a.segmentBuf) by {
        ConcatAppend([], Concat(a.segmentBuf));
        assert [] + [Concat(a.segmentBuf)] == s.flushed;
      }
    }
  }

  /** Flushes hand over exactly the speech blocks booked, in order and each
      once: the flushed segments followed by the run still buffered are the
      run buffered at the start followed by every speech block's bytes. The
      segmenter never holds more than one run. */
  lemma {:induction false} StepsKeepInvariant(r: Run, blocks: seq<Block>)
    requires RunInvariant(r)
    ensures RunInvariant(Steps(r, blocks).run)
    ensures |Steps(r, blocks).flushed| <= |blocks|
    ensures Concat(Steps(r, blocks).flushed) + Concat(Steps(r, blocks).run.segmentBuf)
            == Concat(r.segmentBuf) + SpeechBytes(blocks)
    decreases |blocks|
  {
    if blocks != [] {
      var b := blocks[0];
      var s := Step(r, b.bytes, b.isSpeech, b.now);
      var rest := Steps(s.run, blocks[1..]);
      StepFlushRule(r, b.bytes, b.isSpeech, b.now);
      StepKeepsSpeech(r, b.bytes, b.isSpeech, b.now);
      StepsKeepInvariant(s.run, blocks[1..]);
      ConcatSplit(s.flushed, rest.flushed);
      assert Steps(r, blocks) == StepResult(rest.run, s.flushed + rest.flushed);
      var sp: Bytes := if b.isSpeech then b.bytes else [];
      assert SpeechBytes(blocks) == sp + SpeechBytes(blocks[1..]);
      Regroup(Concat(s.flushed), Concat(rest.flushed), Concat(rest.run.segmentBuf), Concat(s.run.segmentBuf),
              SpeechBytes(blocks[1..]), Concat(r.segmentBuf), sp);
    }
  }

  /** The byte algebra of `StepsKeepInvariant`'s inductive step. */
  lemma Regroup(f: Bytes, g: Bytes, rest: Bytes, mid: Bytes, tail: Bytes, start: Bytes, sp: Bytes)
    requires g + rest == mid + tail
    requires f + mid == start + sp
    ensures (f + g) + rest == start + (sp + tail)
  {
    calc {
      (f + g) + rest;
      f + (g + rest);
      f + (mid + tail);
      (f + mid) + tail;
      (start + sp) + tail;
      start + (sp + tail);
    }
  }

  /** The module-level time of the last logged classifier error, shared by all
      segmenters. */
  class SileroErrorLog {
    var lastErrorAt: int
    /** Times at which an error was logged. */
    ghost var logged: seq<int>

    ghost predicate Valid()
      reads this
    {
      && (logged == [] ==> lastErrorAt == 0)
      && (logged != [] ==> logged[|logged| - 1] == lastErrorAt)
      && forall i :: 0 < i < |logged| ==> logged[i] - logged[i - 1] > ErrorLogIntervalMs
    }

    constructor ()
      ensures Valid() && logged == []
    {
      lastErrorAt := 0;
      logged := [];
    }

    /** Logs a classifier error unless one was logged in the last second. */
    method Report(now: int) returns (emitted: bool)
      requires Valid()
      modifies this
      ensures Valid()
      ensures emitted <==> now - old(lastErrorAt) > ErrorLogIntervalMs
      ensures logged == if emitted then old(logged) + [now] else old(logged)
      ensures lastErrorAt == if emitted then now else old(lastErrorAt)
    {
      emitted := now - lastErrorAt > ErrorLogIntervalMs;
      if emitted {
        lastErrorAt := now;
        logged := logged + [now];
      }
    }
  }

  /** The session's transcription, when there is a session. */
  function OldTranscription(sm: SessionManager?): string
    reads Present(sm)
  {
    if sm == null then "" else sm.transcription
  }

  /** The dedup memory and the session's transcription after a step that
      flushed once (`flushed`) or not at all: a flush takes the transcription
      service's reply as `Flush` does; no flush leaves both as they were. */
  ghost predicate AfterFlushes(v: VADProcessor, flushed: bool, stt: TranscribeReply, prevEnd: string, transcription: string)
    reads v, v.audioProcessor, Present(v.sessionManager)
  {
    var tx := TranscribeResult(prevEnd, stt);
    && v.audioProcessor.previousTranscriptionEnd == (if flushed then tx.1 else prevEnd)
    && (v.sessionManager != null ==>
          v.sessionManager.transcription == (if flushed && tx.0.Some? then tx.0.value else transcription))
  }

  class VADProcessor {
    var frameBuf: seq<Bytes>
    var segmentBuf: seq<Bytes>
    var isSpeaking: bool
    var speechStartTime: int
    var lastSpeechTime: int
    const sessionManager: SessionManager?
    const audioProcessor: AudioProcessor
    const errorLog: SileroErrorLog
    /** Segments handed to transcription, in order. */
    ghost var transcribed: seq<Bytes>

    function CurrentRun(): Run
      reads this
    {
      Run(isSpeaking, speechStartTime, lastSpeechTime, segmentBuf)
    }

    ghost predicate Valid()
      reads this, errorLog
    {
      |frameBuf| < FramesNeeded && RunInvariant(CurrentRun()) && errorLog.Valid()
    }

    constructor (sessionManager: SessionManager?, errorLog: SileroErrorLog)
      requires errorLog.Valid()
      ensures Valid() && fresh(audioProcessor)
      ensures this.sessionManager == sessionManager && this.errorLog == errorLog
      ensures frameBuf == [] && CurrentRun() == Run(false, 0, 0, []) && transcribed == []
      ensures audioProcessor.previousTranscriptionEnd == ""
    {
      this.sessionManager := sessionManager;
      this.errorLog := errorLog;
      audioProcessor := new AudioProcessor();
      frameBuf := [];
      segmentBuf := [];
      isSpeaking := false;
      speechStartTime := 0;
      lastSpeechTime := 0;
      transcribed := [];
    }

    /** A classifier failure counts as silence and is logged at most once a second. */
    method QuerySilero(reply: SileroReply, now: int) returns (isSpeech: bool)
      requires errorLog.Valid()
      modifies errorLog
      ensures errorLog.Valid()
      ensures isSpeech <==> reply.SileroAnswered? && reply.isSpeech
      ensures reply.SileroAnswered? ==> errorLog.lastErrorAt == old(errorLog.lastErrorAt) && errorLog.logged == old(errorLog.logged)
      ensures reply.SileroFailed? ==>
                var emitted := now - old(errorLog.lastErrorAt) > ErrorLogIntervalMs;
                && errorLog.lastErrorAt == (if emitted then now else old(errorLog.lastErrorAt))
                && errorLog.logged == (if emitted then old(errorLog.logged) + [now] else old(errorLog.logged))
    {
      match reply
      case SileroAnswered(b) =>
        isSpeech := b;
      case SileroFailed(_) =>
        var _ := errorLog.Report(now);
        isSpeech := false;
    }

    /** Hands the buffered run to transcription and resets it; a no-op when
        nothing is buffered. The callback's text is returned: only a non-empty
        transcript, and only when there is a session. */
    method Flush(stt: TranscribeReply) returns (delivered: Option<string>)
      modifies this`segmentBuf, this`isSpeaking, this`transcribed, audioProcessor, Present(sessionManager)`transcription
      ensures old(segmentBuf) == [] ==>
                segmentBuf == [] && isSpeaking == old(isSpeaking) && transcribed == old(transcribed) && delivered == None
                && audioProcessor.previousTranscriptionEnd == old(audioProcessor.previousTranscriptionEnd)
      ensures old(segmentBuf) != [] ==>
                var tx := TranscribeResult(old(audioProcessor.previousTranscriptionEnd), stt);
                && segmentBuf == [] && !isSpeaking
                && transcribed == old(transcribed) + [Concat(old(segmentBuf))]
                && audioProcessor.previousTranscriptionEnd == tx.1
                && delivered == (if sessionManager != null then tx.0 else None)
                && (sessionManager != null && tx.0.Some? ==> sessionManager.transcription == tx.0.value)
      ensures delivered.Some? ==> sessionManager != null && delivered.value != ""
      ensures sessionManager != null && delivered.None? ==> sessionManager.transcription == old(sessionManager.transcription)
    {
      delivered := None;
      if segmentBuf == [] {
        return;
      }
      var segment := Concat(segmentBuf);
      transcribed := transcribed + [segment];
      var tx := audioProcessor.Transcribe(stt);
      if tx.Some? && sessionManager != null {
        sessionManager.SetTranscription(tx.value);
        delivered := tx;
      }
      segmentBuf := [];
      isSpeaking := false;
    }

    /** The bookkeeping half of a classified block (`Classified`). */
    method Book(block: Bytes, isSpeech: bool, now: int)
      modifies this`isSpeaking, this`speechStartTime, this`lastSpeechTime, this`segmentBuf
      ensures CurrentRun() == Classified(old(CurrentRun()), block, isSpeech, now)
    {
      if isSpeech {
        if !isSpeaking {
          isSpeaking := true;
          speechStartTime := now;
        }
        lastSpeechTime := now;
        segmentBuf := segmentBuf + [block];
      }
    }

    /** A classified block: booked, then flushed on silence, then flushed on
        the duration cap, as `Step` says. */
    method Segment(block: Bytes, isSpeech: bool, now: int, stt: TranscribeReply) returns (delivered: Option<string>)
      requires RunInvariant(CurrentRun())
      modifies this`isSpeaking, this`speechStartTime, this`lastSpeechTime, this`segmentBuf, this`transcribed
      modifies audioProcessor, Present(sessionManager)`transcription
      ensures var s := Step(old(CurrentRun()), block, isSpeech, now);
              && CurrentRun() == s.run
              && transcribed == old(transcribed) + s.flushed
              && (s.flushed == [] ==> delivered == None)
              && (s.flushed != [] ==>
                    delivered == (if sessionManager != null
                                  then TranscribeResult(old(audioProcessor.previousTranscriptionEnd), stt).0
                                  else None))
      ensures AfterFlushes(this, Step(old(CurrentRun()), block, isSpeech, now).flushed != [], stt,
                           old(audioProcessor.previousTranscriptionEnd), OldTranscription(sessionManager))
      ensures delivered.Some? ==> sessionManager != null && delivered.value != ""
    {
      ghost var r0 := CurrentRun();
      StepFlushRule(r0, block, isSpeech, now);
      Book(block, isSpeech, now);
      delivered := None;
      if !isSpeech && isSpeaking && now - lastSpeechTime >= SilenceThresholdMs {
        delivered := Flush(stt);
      }
      if isSpeaking && now - speechStartTime >= MaxSpeechMs {
        delivered := Flush(stt);
      }
    }

    /** One inbound frame. Until 25 frames are buffered the frame is only
        appended; the 25th forms a block, which is converted (`converted`
        false: ffmpeg failed and the call rejects), classified and segmented.
        `now` stands for both clock readings of a block: the time of a
        classifier failure in the error log and the block's time, which the
        source reads just after; the two are taken as equal. */
    method HandleAudioFrame(frame: Bytes, now: int, converted: bool, silero: SileroReply, stt: TranscribeReply)
      returns (delivered: Option<string>)
      requires Valid()
      modifies this, audioProcessor, errorLog, Present(sessionManager)`transcription
      ensures Valid()
      ensures |old(frameBuf)| + 1 < FramesNeeded ==>
                frameBuf == old(frameBuf) + [frame] && CurrentRun() == old(CurrentRun())
                && transcribed == old(transcribed) && delivered == None
      ensures |old(frameBuf)| + 1 >= FramesNeeded ==> frameBuf == []
      ensures |old(frameBuf)| + 1 >= FramesNeeded && !converted ==>
                CurrentRun() == old(CurrentRun()) && transcribed == old(transcribed) && delivered == None
      ensures |old(frameBuf)| + 1 >= FramesNeeded && converted ==>
                var s := Step(old(CurrentRun()), Concat(old(frameBuf) + [frame]),
                              silero.SileroAnswered? && silero.isSpeech, now);
                && CurrentRun() == s.run
                && transcribed == old(transcribed) + s.flushed
                && (s.flushed == [] ==> delivered == None)
                && (s.flushed != [] ==>
                      delivered == (if sessionManager != null
                                    then TranscribeResult(old(audioProcessor.previousTranscriptionEnd), stt).0
                                    else None))
      ensures AfterFlushes(this, |old(frameBuf)| + 1 >= FramesNeeded && converted
                                 && Step(old(CurrentRun()), Concat(old(frameBuf) + [frame]),
                                         silero.SileroAnswered? && silero.isSpeech, now).flushed != [],
                           stt, old(audioProcessor.previousTranscriptionEnd), OldTranscription(sessionManager))
      ensures |old(frameBuf)| + 1 >= FramesNeeded && converted && silero.SileroFailed? ==>
                var emitted := now - old(errorLog.lastErrorAt) > ErrorLogIntervalMs;
                && errorLog.lastErrorAt == (if emitted then now else old(errorLog.lastErrorAt))
                && errorLog.logged == (if emitted then old(errorLog.logged) + [now] else old(errorLog.logged))
      ensures !(|old(frameBuf)| + 1 >= FramesNeeded && converted && silero.SileroFailed?) ==>
                errorLog.lastErrorAt == old(errorLog.lastErrorAt) && errorLog.logged == old(errorLog.logged)
      ensures delivered.Some? ==> sessionManager != null && delivered.value != ""
    {
      delivered := None;
      frameBuf := frameBuf + [frame];
      if |frameBuf| < FramesNeeded {
        return;
      }
      var block := Concat(frameBuf);
      frameBuf := [];
      if !converted {
        return;
      }
      var isSpeech := QuerySilero(silero, now);
      ghost var r0 := CurrentRun();
      StepFlushRule(r0, block, isSpeech, now);
      delivered := Segment(block, isSpeech, now, stt);
    }
  }
}
