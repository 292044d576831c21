/** The process-wide registry from call id to session: insert-if-absent, no
    removal. A JavaScript `Map` accepts any key, so the call id is whatever
    JSON value the `start` event carried, or `undefined` (`None`). */
module Sessions {
  import opened Wrappers
  import opened Json
  import opened Text
  import opened AudioStates
  import opened SessionManagers

  /** A `Map` key as the `start` event supplies it. */
  type CallKey = Option<Value>

  class SessionRegistry {
    var sessions: map<CallKey, SessionManager>

    /** One session per call id: no two ids share a session object. */
    ghost predicate Valid()
      reads this
    {
      forall a, b :: a in sessions && b in sessions && a != b ==> sessions[a] != sessions[b]
    }

    constructor ()
      ensures sessions == map[] && Valid()
    {
      sessions := map[];
    }

    /** Returns the call's session, creating it on first reference. Only the
        first lookup of an id adds an entry, and no entry is ever changed or
        removed. */
    method GetSession(callSid: CallKey, now: nat) returns (s: SessionManager)
      requires Valid()
      modifies this`sessions
      ensures Valid()
      ensures callSid in sessions && sessions[callSid] == s
      ensures callSid in old(sessions) ==> s == old(sessions)[callSid] && sessions == old(sessions)
      ensures callSid !in old(sessions) ==>
                fresh(s) && sessions == old(sessions)[callSid := s]
                && s.callSid == Some(Str("")) && s.state == Listening
                && s.context == InitialContext(now) && s.marks == map[] && s.speechSegments == []
                && s.sessionId == "aichi-" + NatToString(now)
                && s.callStartTime == None && s.transcription == "" && !s.routedToAI
                && s.finalPrompt == Some(Str("")) && s.lastTranscription == None && s.lastTranscriptionTime == 0
      ensures old(sessions).Keys <= sessions.Keys
      ensures forall k :: k in old(sessions) ==> sessions[k] == old(sessions)[k]
    {
      if callSid !in sessions {
        var fresh_ := new SessionManager(now);
        sessions := sessions[callSid := fresh_];
      }
      s := sessions[callSid];
    }
  }

  /** Two lookups of the same call id yield the identical session object, and
      the second lookup adds nothing. */
  method LookupTwice(r: SessionRegistry, callSid: CallKey, t1: nat, t2: nat) returns (a: SessionManager, b: SessionManager)
    requires r.Valid()
    modifies r
    ensures a == b
    ensures r.sessions.Keys == old(r.sessions).Keys + {callSid}
  {
    a := r.GetSession(callSid, t1);
    ghost var between := r.sessions;
    b := r.GetSession(callSid, t2);
    assert r.sessions == between;
  }
}
