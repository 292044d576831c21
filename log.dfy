/** The level-filtered, tag-aware log line. The timestamp and `LOG_LEVEL`
    are parameters; the result is the line written, or `None` when filtered. */
module Logging {
  import opened Wrappers
  import opened Text

  /** `{ debug: 0, info: 1, warn: 2, error: 3 }`; any other name is undefined. */
  function Priority(level: string): (p: Option<nat>)
    ensures p.Some? ==> p.value <= 3
  {
    if level == "debug" then Some(0)
    else if level == "info" then Some(1)
    else if level == "warn" then Some(2)
    else if level == "error" then Some(3)
    else None
  }

  /** `process.env.LOG_LEVEL || 'info'`. */
  function CurrentLevel(env: Option<string>): string
  {
    if env.Some? && env.value != "" then env.value else "info"
  }

  /** A comparison with `undefined` is false, so an unknown name on either side
      suppresses the line. */
  predicate Emitted(level: string, env: Option<string>)
  {
    var p := Priority(level);
    var q := Priority(CurrentLevel(env));
    p.Some? && q.Some? && p.value >= q.value
  }

  /** The first `]` at or after `from`, or `|s|`. */
  function FirstClose(s: string, from: nat): (k: nat)
    requires from <= |s|
    ensures from <= k <= |s|
    ensures k < |s| ==> s[k] == ']'
    ensures forall i :: from <= i < k ==> s[i] != ']'
    decreases |s| - from
  {
    if from == |s| || s[from] == ']' then from else FirstClose(s, from + 1)
  }

  /** Where `^\[([^\]]+)\]` matches: the index of its closing bracket. */
  function TagClose(message: string): (r: Option<nat>)
    ensures r.Some? ==> 2 <= r.value < |message| && message[0] == '[' && message[r.value] == ']'
    ensures r.Some? ==> forall i :: 1 <= i < r.value ==> message[i] != ']'
  {
    if |message| > 0 && message[0] == '[' then
      var k := FirstClose(message, 1);
      if 2 <= k < |message| then Some(k) else None
    else None
  }

  /** The suffix naming the session and call, present iff either is non-empty. */
  function Suffix(sessionId: string, callSid: string): (r: string)
    ensures r == "" <==> sessionId == "" && callSid == ""
  {
    if sessionId != "" || callSid != "" then " (sessionId: " + sessionId + ", callSid: " + callSid + ")" else ""
  }

  /** The tag shown in the line and the message without its leading tag. */
  function TagAndBody(message: string, level: string): (string, string)
  {
    match TagClose(message)
    case Some(k) => (message[1..k], TrimStart(message[k + 1..], IsJsSpace))
    case None => (ToUpperAscii(level), message)
  }

  function Log(message: string, level: string, sessionId: string, callSid: string,
               env: Option<string>, timestamp: string): (line: Option<string>)
    ensures line.Some? <==> Emitted(level, env)
    ensures line.Some? ==>
              var (tag, body) := TagAndBody(message, level);
              line.value == timestamp + " [" + tag + "] " + body + Suffix(sessionId, callSid)
  {
    if Emitted(level, env) then
      var (tag, body) := TagAndBody(message, level);
      Some(timestamp + " [" + tag + "] " + body + Suffix(sessionId, callSid))
    else None
  }

  /** Filtering is monotone in the level: when a line at one level is written,
      a line at any known higher level is written too. With no `LOG_LEVEL`,
      debug lines are dropped and the other three are kept. */
  lemma FilterMonotone(low: string, high: string, env: Option<string>)
    requires Emitted(low, env)
    requires Priority(high).Some? && Priority(high).value >= Priority(low).value
    ensures Emitted(high, env)
  {
  }

  lemma DefaultLevel(level: string)
    ensures Emitted(level, None) <==> level in {"info", "warn", "error"}
  {
  }

  /** A leading `[tag]` is shown as the tag and removed, together with the
      whitespace after it, from the message. */
  lemma {:induction false} TaggedMessage(tag: string, ws: string, rest: string, level: string)
    requires tag != "" && forall i :: 0 <= i < |tag| ==> tag[i] != ']'
    requires forall i :: 0 <= i < |ws| ==> IsJsSpace(ws[i])
    requires rest == "" || !IsJsSpace(rest[0])
    ensures TagAndBody("[" + tag + "]" + ws + rest, level) == (tag, rest)
  {
    var m := "[" + tag + "]" + ws + rest;
    var k := |tag| + 1;
    assert m[k] == ']';
    forall i | 1 <= i < k ensures m[i] != ']' {
      assert m[i] == tag[i - 1];
    }
    ClosesAt(m, 1, k);
    assert TagClose(m) == Some(k);
    assert m[1..k] == tag;
    assert m[k + 1..] == ws + rest;
    TrimStartPrefix(ws, rest);
  }

  /** A message that does not start with a tag is shown unchanged, under the
      upper-cased level. */
  lemma UntaggedMessage(message: string, level: string)
    requires message == "" || message[0] != '['
    ensures TagAndBody(message, level) == (ToUpperAscii(level), message)
  {
  }

  lemma {:induction false} ClosesAt(s: string, from: nat, k: nat)
    requires from <= k < |s| && s[k] == ']'
    requires forall i :: from <= i < k ==> s[i] != ']'
    ensures FirstClose(s, from) == k
    decreases k - from
  {
    if from < k {
      ClosesAt(s, from + 1, k);
    }
  }

  lemma {:induction false} TrimStartPrefix(ws: string, rest: string)
    requires forall i :: 0 <= i < |ws| ==> IsJsSpace(ws[i])
    requires rest == "" || !IsJsSpace(rest[0])
    ensures TrimStart(ws + rest, IsJsSpace) == rest
  {
    var s := ws + rest;
    assert s[|ws|..] == rest;
  }
}
