/** Per-call state container: the turn state, the shallow-merged conversation
    context, latency marks and the duplicate-transcript memory. Timestamps are
    integer milliseconds supplied by the caller (`Date.now()`,
    `performance.now()`). */
module SessionManagers {
  import opened Wrappers
  import opened Json
  import opened Text
  import opened AudioStates

  /** The same final text within this many milliseconds is a duplicate. */
  const DuplicateWindowMs: int := 3000

  /** Label of the per-turn latency baseline. */
  const WsStart: string := "ws_start"

  /** Speech segment history entry; the source stores seconds, derived from these. */
  datatype SpeechSegment = SpeechSegment(startMs: int, endMs: int, text: string)

  /** The context a new session starts with. */
  function InitialContext(now: int): Object
  {
    map[
      "previousQuestions" := Arr([]),
      "userIntention" := Null,
      "userName" := Null,
      "lastInteractionTime" := Num(now),
      "streamSid" := Null,
      "currentState" := Str("Initial Greeting"),
      "collectedDetails" := Obj(map["date" := Null, "time" := Null, "duration" := Null, "staff" := Str("Any")]),
      "bookingConfirmed" := Bool(false)
    ]
  }

  /** Shallow merge `{ ...old, ...update }`: every key of the update wins, every
      other key keeps its value, and no key is lost. */
  function Merge(old_: Object, update: Object): (r: Object)
    ensures r.Keys == old_.Keys + update.Keys
    ensures forall k :: k in update ==> r[k] == update[k]
    ensures forall k :: k in old_ && k !in update ==> r[k] == old_[k]
  {
    old_ + update
  }

  /** The duplicate test of `checkDuplicateTranscription`. */
  predicate IsDuplicate(last: Option<string>, lastTime: int, txt: string, now: int)
  {
    last == Some(txt) && now - lastTime < DuplicateWindowMs
  }

  /** The timing report of `dumpTimingAndReset`: every mark relative to the baseline. */
  function Timings(marks: map<string, int>, base: int): (r: map<string, int>)
    ensures r.Keys == marks.Keys
    ensures forall k :: k in marks ==> r[k] == marks[k] - base
  {
    map k | k in marks :: marks[k] - base
  }

  /** The session, if there is one, as a frame set. */
  function Present(s: SessionManager?): set<SessionManager>
  {
    if s == null then {} else {s}
  }

  class SessionManager {
    var sessionId: string
    /** Whatever the `start` event carried; `None` is `undefined`. */
    var callSid: Option<Value>
    var callStartTime: Option<int>
    var speechSegments: seq<SpeechSegment>
    var transcription: string
    var routedToAI: bool
    /** `None` when the dialogue output carried no `response_text` (`undefined`). */
    var finalPrompt: Option<Value>
    var state: AudioState
    var context: Object
    var lastTranscription: Option<string>
    var lastTranscriptionTime: int
    var marks: map<string, int>

    /** A new session: the call id is empty until `StartCall`, whatever id the
        caller had in mind (the constructor takes none). */
    constructor (now: nat)
      ensures sessionId == "aichi-" + NatToString(now)
      ensures callSid == Some(Str("")) && callStartTime == None
      ensures speechSegments == [] && transcription == "" && !routedToAI
      ensures finalPrompt == Some(Str(""))
      ensures state == Listening
      ensures context == InitialContext(now)
      ensures context["collectedDetails"].fields["staff"] == Str("Any")
      ensures context["bookingConfirmed"] == Bool(false)
      ensures lastTranscription == None && lastTranscriptionTime == 0
      ensures marks == map[]
    {
      sessionId := "aichi-" + NatToString(now);
      callSid := Some(Str(""));
      callStartTime := None;
      speechSegments := [];
      transcription := "";
      routedToAI := false;
      finalPrompt := Some(Str(""));
      state := Listening;
      context := InitialContext(now);
      lastTranscription := None;
      lastTranscriptionTime := 0;
      marks := map[];
    }

    /** Records a latency mark; only that label changes. */
    method Mark(name: string, now: int)
      modifies this`marks
      ensures marks == old(marks)[name := now]
      ensures forall k :: k in old(marks) && k != name ==> k in marks && marks[k] == old(marks)[k]
    {
      marks := marks[name := now];
    }

    /** Reports every mark relative to `ws_start` (set to `now` when it is
        missing or zero) and clears the marks. */
    method DumpTimingAndReset(now: int) returns (report: map<string, int>)
      modifies this`marks
      ensures var base := if WsStart in old(marks) && old(marks)[WsStart] != 0 then old(marks)[WsStart] else now;
              report == Timings(old(marks)[WsStart := base], base)
      ensures report.Keys == old(marks).Keys + {WsStart} && report[WsStart] == 0
      ensures marks == map[]
    {
      if !(WsStart in marks && marks[WsStart] != 0) {
        marks := marks[WsStart := now];
      }
      var base := marks[WsStart];
      report := Timings(marks, base);
      marks := map[];
    }

    /** Any state may follow any state; setting the current state again is a
        no-op, and only a real change is logged. */
    method SetState(next: AudioState) returns (logged: bool)
      modifies this`state
      ensures state == next
      ensures logged <==> old(state) != next
    {
      var prev := state;
      if prev == next {
        return false;
      }
      state := next;
      logged := true;
    }

    /** The call id is stored as given, whatever its type. */
    method StartCall(sid: Option<Value>, now: int)
      modifies this`callSid, this`callStartTime, this`state
      ensures callSid == sid && callStartTime == Some(now)
      ensures state == Listening
    {
      callSid := sid;
      callStartTime := Some(now);
      var _ := SetState(Listening);
    }

    /** Appends exactly one segment; earlier ones are untouched. */
    method AddSpeechSegment(startMs: int, endMs: int, text: string)
      modifies this`speechSegments
      ensures speechSegments == old(speechSegments) + [SpeechSegment(startMs, endMs, text)]
    {
      speechSegments := speechSegments + [SpeechSegment(startMs, endMs, text)];
    }

    method SetTranscription(text: string)
      modifies this`transcription
      ensures transcription == text
    {
      transcription := text;
    }

    method SetRoutedToAI(status: bool)
      modifies this`routedToAI
      ensures routedToAI == status
    {
      routedToAI := status;
    }

    method SetFinalPrompt(prompt: Option<Value>)
      modifies this`finalPrompt
      ensures finalPrompt == prompt
    {
      finalPrompt := prompt;
    }

    /** Shallow merge into the context. */
    method UpdateContext(update: Object)
      modifies this`context
      ensures context == Merge(old(context), update)
    {
      context := context + update;
    }

    /** Stores the stream id as given; `None` is `undefined`. */
    method SetStreamSid(streamSid: Option<Value>)
      modifies this`context
      ensures context == SetProp(old(context), "streamSid", streamSid)
    {
      context := SetProp(context, "streamSid", streamSid);
    }

    /** True iff `txt` repeats the remembered text within the window; a
        duplicate leaves the memory alone, anything else replaces it. */
    method CheckDuplicateTranscription(txt: string, now: int) returns (dup: bool)
      modifies this`lastTranscription, this`lastTranscriptionTime
      ensures dup <==> IsDuplicate(old(lastTranscription), old(lastTranscriptionTime), txt, now)
      ensures dup ==> lastTranscription == old(lastTranscription) && lastTranscriptionTime == old(lastTranscriptionTime)
      ensures !dup ==> lastTranscription == Some(txt) && lastTranscriptionTime == now
    {
      if lastTranscription == Some(txt) && now - lastTranscriptionTime < DuplicateWindowMs {
        return true;
      }
      lastTranscription := Some(txt);
      lastTranscriptionTime := now;
      dup := false;
    }
  }

  /** Once a text has been accepted, the same text within the window is a
      duplicate. A duplicate does not refresh the remembered time, so a text
      that was itself a duplicate gives no such guarantee. */
  method SecondCheckIsDuplicate(s: SessionManager, txt: string, t1: int, t2: int) returns (first: bool, second: bool)
    requires 0 <= t2 - t1 < DuplicateWindowMs
    modifies s
    ensures !first ==> second
    ensures !first ==> s.lastTranscription == Some(txt) && s.lastTranscriptionTime == t1
  {
    first := s.CheckDuplicateTranscription(txt, t1);
    second := s.CheckDuplicateTranscription(txt, t2);
  }
}
