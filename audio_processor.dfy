/** Turns a flushed speech segment into text: the transcription reply is
    trimmed, the words that overlap the end of the previous transcript are
    stripped, and an empty result or any failure becomes `null` (`None`). The
    ffmpeg conversion and the HTTP call are one external step whose reply is a
    parameter. */
module AudioProcessors {
  import opened Wrappers
  import opened Json
  import opened Text

  /** How many trailing words are remembered for overlap removal. */
  const OverlapWords: nat := 5

  /** `s.split(' ').slice(-5).join(' ')`. */
  function LastWords(s: string): string
  {
    Join(LastN(Split(s, ' '), OverlapWords), ' ')
  }

  /** `deduplicate`'s returned text: when `t` starts with the remembered last
      words (compared character by character, not word by word), they are cut
      off and the rest is trimmed. */
  function Deduplicated(prev: string, t: string): (r: string)
    ensures |r| <= |t|
  {
    var ov := LastWords(prev);
    if ov != "" && StartsWith(t, ov) then JsTrim(t[|ov|..]) else t
  }

  /** The outcome of conversion plus the HTTP call: a failure, or the reply's
      `text` field (`None` when it is absent). */
  datatype TranscribeReply = TranscribeFailed(message: string) | TranscribeOk(text: Option<Value>)

  /** `transcribe`: the text it returns (`None` for `null`) and the new
      remembered ending. A truthy `text` that is not a string makes `trim`
      throw, which is caught like any other failure. */
  function TranscribeResult(prev: string, reply: TranscribeReply): (r: (Option<string>, string))
  {
    match reply
    case TranscribeFailed(_) => (None, prev)
    case TranscribeOk(text) =>
      if TruthyOpt(text) && !text.value.Str? then (None, prev)
      else
        var txt := JsTrim(if TruthyOpt(text) then text.value.s else "");
        var d := Deduplicated(prev, txt);
        (if d == "" then None else Some(d), LastWords(d))
  }

  /** The remembered ending is a suffix of the text it was taken from. */
  lemma LastWordsIsSuffix(s: string)
    ensures exists pre: string :: pre + LastWords(s) == s
  {
    var parts := Split(s, ' ');
    JoinSplit(s, ' ');
    if |parts| <= OverlapWords {
      assert "" + LastWords(s) == s;
    } else {
      JoinTailIsSuffix(parts, ' ', |parts| - OverlapWords);
      assert LastN(parts, OverlapWords) == parts[|parts| - OverlapWords..];
      var pre :| pre + Join(parts[|parts| - OverlapWords..], ' ') == Join(parts, ' ');
      assert pre + LastWords(s) == s;
    }
  }

  /** Taking the last words of the last words changes nothing. */
  lemma LastWordsIdempotent(s: string)
    ensures LastWords(LastWords(s)) == LastWords(s)
  {
    var parts := LastN(Split(s, ' '), OverlapWords);
    assert forall k :: 0 <= k < |parts| ==> ' ' !in parts[k];
    SplitJoin(parts, ' ');
    assert LastN(parts, OverlapWords) == parts;
  }

  /** With no remembered ending the text passes through unchanged. */
  lemma NoHistoryNoChange(t: string)
    ensures Deduplicated("", t) == t
  {
    assert Split("", ' ') == [""];
  }

  /** An utterance of at most five words, transcribed again right after
      itself, is dropped entirely. */
  lemma RepeatIsDropped(t: string)
    requires t != "" && JsTrim(t) == t
    requires |Split(t, ' ')| <= OverlapWords
    ensures Deduplicated(LastWords(t), t) == ""
  {
    JoinSplit(t, ' ');
    LastWordsIdempotent(t);
    assert LastWords(t) == t;
    assert t[|t|..] == "";
    TrimEmptyIff("", IsJsSpace);
  }

  /** What `transcribe` returns is never empty and is already trimmed, and the
      remembered ending is taken from exactly that text. */
  lemma TranscribedTextIsTrimmed(prev: string, reply: TranscribeReply)
    requires TranscribeResult(prev, reply).0.Some?
    ensures var d := TranscribeResult(prev, reply).0.value;
            d != "" && JsTrim(d) == d && TranscribeResult(prev, reply).1 == LastWords(d)
  {
    var text := reply.text;
    var txt := JsTrim(if TruthyOpt(text) then text.value.s else "");
    var ov := LastWords(prev);
    TrimIdempotent(if TruthyOpt(text) then text.value.s else "", IsJsSpace);
    if ov != "" && StartsWith(txt, ov) {
      TrimIdempotent(txt[|ov|..], IsJsSpace);
    }
  }

  class AudioProcessor {
    var previousTranscriptionEnd: string

    constructor ()
      ensures previousTranscriptionEnd == ""
    {
      previousTranscriptionEnd := "";
    }

    method Deduplicate(t: string) returns (r: string)
      modifies this
      ensures r == Deduplicated(old(previousTranscriptionEnd), t)
      ensures previousTranscriptionEnd == LastWords(r)
    {
      var ov := LastWords(previousTranscriptionEnd);
      r := t;
      if ov != "" && StartsWith(r, ov) {
        r := JsTrim(r[|ov|..]);
      }
      previousTranscriptionEnd := LastWords(r);
    }

    /** `transcribe` after conversion and the HTTP call answered `reply`. */
    method Transcribe(reply: TranscribeReply) returns (r: Option<string>)
      modifies this
      ensures (r, previousTranscriptionEnd) == TranscribeResult(old(previousTranscriptionEnd), reply)
    {
      match reply
      case TranscribeFailed(_) =>
        r := None;
      case TranscribeOk(text) =>
        if TruthyOpt(text) && !text.value.Str? {
          return None;
        }
        var txt := JsTrim(if TruthyOpt(text) then text.value.s else "");
        txt := Deduplicate(txt);
        r := if txt == "" then None else Some(txt);
    }
  }
}
