/** The booking dialogue of a call (websocket/scheduler.js). `HandleScheduling`
    takes the pending request out of the call context, tries the preferred
    staff member, then the other one, then offers the preferred member's next
    free slot or the other member, and records the result in the context;
    `HandleConfirmation` reads the caller's answer to such an offer. The
    calendar is `ScheduleNode.Calendar`; the speech sink is a `Speaker` that
    records what was said; date parsing and the ISO date of a slot are
    parameters (`parseDate`, `isoDate`). */
module Schedulers {
  import opened Wrappers
  import opened Json
  import opened Text
  import opened SessionManagers
  import opened ScheduleNode

  const BookingFlag: string := "isBookingInProgress"
  const Pending: string := "pendingScheduling"
  const Alternative: string := "schedulingAlternative"
  const Awaiting: string := "awaitingConfirmation"

  const IssueText: string := "There was an issue scheduling your appointment. Could you try another time?"
  const FailedText: string := "Something went wrong while scheduling. Please try again."
  const DeclinedText: string := "Alright, please suggest another time or staff member."
  const UnclearText: string := "I didn’t understand. Please say yes or no."

  const Affirmative: seq<string> := ["yes", "sure", "okay", "please", "i would like", "schedule with", "book with"]
  const Negative: seq<string> := ["no", "not", "don’t", "decline"]

  datatype Utterance = Utterance(streamSid: Option<Value>, text: string)

  /** Whatever the caller passes as `ttsHandler`: it is asked to speak a text
      on the call's stream. */
  class Speaker {
    var spoken: seq<Utterance>

    constructor()
      ensures spoken == []
    {
      spoken := [];
    }

    method Say(streamSid: Option<Value>, text: string)
      modifies this`spoken
      ensures spoken == old(spoken) + [Utterance(streamSid, text)]
    {
      spoken := spoken + [Utterance(streamSid, text)];
    }
  }

  // ---- JavaScript text conversions ----

  /** `${v}` of a JSON value: arrays join their items with ',' (null items
      give ''), objects read "[object Object]". */
  function Render(v: Value): string
    decreases v
  {
    match v
    case Null => "null"
    case Bool(b) => if b then "true" else "false"
    case Num(n) => if n >= 0 then NatToString(n) else "-" + NatToString(-n)
    case Str(s) => s
    case Arr(items) => Join(seq(|items|, i requires 0 <= i < |items| => if items[i] == Null then "" else Render(items[i])), ',')
    case Obj(_) => "[object Object]"
  }

  /** `${v}` where `v` may be undefined; also the property key `v` names. */
  function Interpolate(v: Option<Value>): (r: string)
    ensures v.Some? && v.value.Str? ==> r == v.value.s
  {
    if v.None? then "undefined" else Render(v.value)
  }

  function Pad2(n: nat): string
  {
    if n < 10 then "0" + NatToString(n) else NatToString(n)
  }

  /** `toTimeString().slice(0, 5)`: "HH:MM" on the local clock. */
  function TimeText(t: int): string
  {
    Pad2(HourOf(t)) + ":" + Pad2(MinuteOf(t))
  }

  /** An object literal `{ a, b, ... }`: an undefined value leaves its key out,
      which reads back as undefined all the same. */
  function Literal(fields: map<string, Option<Value>>): (r: Object)
    ensures forall k :: k in fields ==> Get(Obj(r), k) == fields[k]
    ensures r.Keys <= fields.Keys
  {
    map k | k in fields && fields[k].Some? :: fields[k].value
  }

  // ---- The request and the choice of staff ----

  /** The destructured `context.pendingScheduling`. */
  datatype Request = Request(date: Option<Value>, time: Option<Value>, duration: string, staff: Option<Value>)

  predicate InProgress(ctx: Object)
  {
    TruthyOpt(Get(Obj(ctx), BookingFlag))
  }

  /** The destructuring and `duration.split` succeed: the pending request is
      an object whose duration is a string. */
  predicate Usable(ctx: Object)
  {
    Pending in ctx && ctx[Pending].Obj? && "duration" in ctx[Pending].fields && ctx[Pending].fields["duration"].Str?
  }

  function RequestOf(ctx: Object): (q: Request)
    requires Usable(ctx)
    ensures q.duration == ctx[Pending].fields["duration"].s
  {
    var p := ctx[Pending];
    Request(Get(p, "date"), Get(p, "time"), p.fields["duration"].s, Get(p, "staff"))
  }

  /** 'Any' means Angie. */
  function Preferred(q: Request): (r: Option<Value>)
    ensures q.staff == Some(Str("Any")) ==> r == Some(Str("Angie"))
    ensures q.staff != Some(Str("Any")) ==> r == q.staff
  {
    if q.staff == Some(Str("Any")) then Some(Str("Angie")) else q.staff
  }

  /** The preferred staff member's calendar key. */
  function Key(q: Request): string
  {
    Interpolate(Preferred(q))
  }

  /** Bell when the preferred member is Angie, Angie otherwise. */
  function Alt(q: Request): (r: string)
    ensures r in StaffCalendars
    ensures r == "Bell" <==> Preferred(q) == Some(Str("Angie"))
  {
    if Preferred(q) == Some(Str("Angie")) then "Bell" else "Angie"
  }

  function StartText(q: Request): string
  {
    Interpolate(q.date) + "T" + Interpolate(q.time) + ":00"
  }

  /** `parseInt(duration.split(' ')[0])`; `None` is NaN. */
  function Minutes(q: Request): Option<int>
  {
    ParseInt(Split(q.duration, ' ')[0])
  }

  /** For a named staff member the alternative is the other one of the two. */
  lemma StaffChoice(q: Request)
    requires q.staff == Some(Str("Any")) || q.staff == Some(Str("Angie")) || q.staff == Some(Str("Bell"))
    ensures Key(q) in StaffCalendars && Alt(q) != Key(q)
    ensures q.staff == Some(Str("Any")) ==> Key(q) == "Angie" && Alt(q) == "Bell"
  {
  }

  // ---- What one scheduling attempt comes to ----

  datatype Outcome =
    | Skipped                        // a booking is already in progress
    | Rejected                       // the request cannot be destructured: thrown before the try block
    | Confirmed(viaAlternative: bool, staff: string, slot: Slot)
    | Refused(viaAlternative: bool) // the calendar refused the insert or found a duplicate
    | Offered(slot: Slot)            // the preferred member's next free slot
    | OfferedOther                   // no slot within the week: offer the other member
    | Failed                         // an exception inside the try block

  /** The result of `scheduleAppointment` for a staff member already known
      to be free. */
  function BookingOutcome(viaAlternative: bool, staff: string, events: map<string, seq<Event>>, s: int, e: int,
                          insertError: Option<string>): (r: Outcome)
    ensures r == Refused(viaAlternative) || r == Confirmed(viaAlternative, staff, Slot(s, e))
  {
    if FindSame(Listed(StaffEvents(events, staff), s - 1, s + 1), s, e).Some? || insertError.Some?
    then Refused(viaAlternative)
    else Confirmed(viaAlternative, staff, Slot(s, e))
  }

  /** The try block, on the calendar state it starts from. */
  function Attempt(q: Request, tokenStored: bool, events: map<string, seq<Event>>, start: Option<int>,
                   insertError: Option<string>): (r: Outcome)
    ensures r != Skipped && r != Rejected
    ensures r == Failed <==> !tokenStored || Key(q) !in StaffCalendars || start.None? || Minutes(q).None?
  {
    if !tokenStored || Key(q) !in StaffCalendars || start.None? || Minutes(q).None? then Failed
    else
      var s := start.value;
      var d := Minutes(q).value;
      if Free(StaffEvents(events, Key(q)), s, s + d) then BookingOutcome(false, Key(q), events, s, s + d, insertError)
      else Fallback(q, events, s, d, insertError)
  }

  /** The preferred member is busy: the other member, else an offer. */
  function Fallback(q: Request, events: map<string, seq<Event>>, s: int, d: int, insertError: Option<string>): (r: Outcome)
    ensures r.Confirmed? || r.Refused? || r.Offered? || r.OfferedOther?
    ensures r.Confirmed? ==> r == Confirmed(true, Alt(q), Slot(s, s + d)) && Free(StaffEvents(events, Alt(q)), s, s + d)
    ensures r.Offered? || r.OfferedOther? ==> !Free(StaffEvents(events, Alt(q)), s, s + d)
  {
    if Free(StaffEvents(events, Alt(q)), s, s + d) then BookingOutcome(true, Alt(q), events, s, s + d, insertError)
    else NextOffer(q, events, s, d)
  }

  /** Both are busy: the preferred member's next free slot, if any within the week. */
  function NextOffer(q: Request, events: map<string, seq<Event>>, s: int, d: int): (r: Outcome)
    ensures r.Offered? || r.OfferedOther?
    ensures r.Offered? ==>
      r.slot.endTime == r.slot.startTime + d && Free(StaffEvents(events, Key(q)), r.slot.startTime, r.slot.endTime)
  {
    var next := FirstFree(StaffEvents(events, Key(q)), Scan(FirstCheck(s), d, MaxDaysAhead), d);
    if next.Some? then Offered(next.value) else OfferedOther
  }

  /** A booking is for the requested interval, with a member free for it:
      the preferred one, or the other one when the preferred one is busy. */
  lemma AttemptConfirmed(q: Request, tokenStored: bool, events: map<string, seq<Event>>, start: Option<int>,
                         insertError: Option<string>)
    requires Attempt(q, tokenStored, events, start, insertError).Confirmed?
    ensures var r := Attempt(q, tokenStored, events, start, insertError);
      && tokenStored && start.Some? && Minutes(q).Some?
      && r.slot == Slot(start.value, start.value + Minutes(q).value)
      && Free(StaffEvents(events, r.staff), r.slot.startTime, r.slot.endTime)
      && (r.viaAlternative ==> r.staff == Alt(q) && !Free(StaffEvents(events, Key(q)), r.slot.startTime, r.slot.endTime))
      && (!r.viaAlternative ==> r.staff == Key(q))
  {
    var r := Attempt(q, tokenStored, events, start, insertError);
    var s := start.value;
    var d := Minutes(q).value;
    if Free(StaffEvents(events, Key(q)), s, s + d) {
      assert r == BookingOutcome(false, Key(q), events, s, s + d, insertError);
    } else {
      assert r == Fallback(q, events, s, d, insertError);
    }
  }

  /** An offer comes only when both members are busy for the requested
      interval, and is a free slot of the requested length from the preferred
      member's search. */
  lemma AttemptOffered(q: Request, tokenStored: bool, events: map<string, seq<Event>>, start: Option<int>,
                       insertError: Option<string>)
    requires Attempt(q, tokenStored, events, start, insertError).Offered?
    ensures var r := Attempt(q, tokenStored, events, start, insertError);
      && tokenStored && start.Some? && Minutes(q).Some?
      && !Free(StaffEvents(events, Key(q)), start.value, start.value + Minutes(q).value)
      && !Free(StaffEvents(events, Alt(q)), start.value, start.value + Minutes(q).value)
      && r.slot.endTime == r.slot.startTime + Minutes(q).value
      && Free(StaffEvents(events, Key(q)), r.slot.startTime, r.slot.endTime)
      && r.slot.startTime in Scan(FirstCheck(start.value), Minutes(q).value, MaxDaysAhead)
  {
    var r := Attempt(q, tokenStored, events, start, insertError);
    var s := start.value;
    var d := Minutes(q).value;
    assert !Free(StaffEvents(events, Key(q)), s, s + d);
    assert r == Fallback(q, events, s, d, insertError);
    assert r == NextOffer(q, events, s, d);
    FirstFreeIsFirst(StaffEvents(events, Key(q)), Scan(FirstCheck(s), d, MaxDaysAhead), d);
  }

  /** The whole of `handleScheduling`, on the context and calendar it starts from. */
  function Expected(ctx: Object, tokenStored: bool, events: map<string, seq<Event>>,
                    parseDate: string -> Option<int>, insertError: Option<string>): Outcome
  {
    if InProgress(ctx) then Skipped
    else if !Usable(ctx) then Rejected
    else
      var q := RequestOf(ctx);
      Attempt(q, tokenStored, events, parseDate(StartText(q)), insertError)
  }

  /** The `updateContext` argument of each outcome inside try/catch. */
  function Update(q: Request, outcome: Outcome, isoDate: int -> string): Object
  {
    match outcome
    case Confirmed(_, _, _) =>
      map[Pending := Null, "bookingConfirmed" := Bool(true), "currentState" := Str("Booking Confirmed")]
    case Offered(slot) =>
      map[Alternative := Obj(Literal(map["staff" := Preferred(q), "date" := Some(Str(isoDate(slot.startTime))),
                                         "time" := Some(Str(TimeText(slot.startTime))), "duration" := Some(Str(q.duration))])),
          Awaiting := Bool(true), Pending := Null]
    case OfferedOther =>
      map[Alternative := Obj(Literal(map["staff" := Some(Str(Alt(q))), "date" := q.date, "time" := q.time,
                                         "duration" := Some(Str(q.duration))])),
          Awaiting := Bool(true), Pending := Null]
    case Failed => map[Pending := Null]
    case _ => map[]
  }

  /** What is said for each outcome. */
  function SpeechText(q: Request, outcome: Outcome, isoDate: int -> string): string
  {
    match outcome
    case Confirmed(false, _, _) =>
      "I’ve scheduled you with " + Key(q) + " at " + Interpolate(q.time) + " on " + Interpolate(q.date) + "."
    case Confirmed(true, staff, _) =>
      Key(q) + " isn’t available, but I’ve scheduled you with " + staff + " at " + Interpolate(q.time) + " on " + Interpolate(q.date) + "."
    case Refused(_) => IssueText
    case Offered(slot) =>
      Key(q) + " is booked at " + Interpolate(q.time) + ". The next available slot is " + TimeText(slot.startTime)
        + " on " + isoDate(slot.startTime) + ". Would that work?"
    case OfferedOther =>
      Key(q) + " isn’t available soon. Would you like to try a different time or schedule with " + Alt(q) + "?"
    case _ => FailedText
  }

  /** The context after `handleScheduling`: untouched when skipped or thrown
      before the try block; otherwise the flag set in place, the branch's
      update, and the flag cleared by `finally`. */
  function ContextAfter(ctx: Object, outcome: Outcome, isoDate: int -> string): (r: Object)
    requires outcome != Skipped && outcome != Rejected ==> Usable(ctx)
    ensures outcome == Skipped || outcome == Rejected ==> r == ctx
    ensures outcome != Skipped && outcome != Rejected ==> BookingFlag in r && r[BookingFlag] == Bool(false)
  {
    if outcome == Skipped || outcome == Rejected then ctx
    else ctx[BookingFlag := Bool(true)] + Update(RequestOf(ctx), outcome, isoDate) + map[BookingFlag := Bool(false)]
  }

  /** A booking clears the request and records the confirmation. */
  lemma ConfirmedContext(ctx: Object, outcome: Outcome, isoDate: int -> string)
    requires Usable(ctx) && outcome.Confirmed?
    ensures var r := ContextAfter(ctx, outcome, isoDate);
      {Pending, "bookingConfirmed", "currentState"} <= r.Keys && r[Pending] == Null
      && r["bookingConfirmed"] == Bool(true) && r["currentState"] == Str("Booking Confirmed")
  {
  }

  /** A refused insert changes nothing in the context but the flag. */
  lemma RefusedContext(ctx: Object, outcome: Outcome, isoDate: int -> string)
    requires Usable(ctx) && outcome.Refused?
    ensures ContextAfter(ctx, outcome, isoDate) == ctx[BookingFlag := Bool(false)]
  {
    assert Update(RequestOf(ctx), outcome, isoDate) == map[];
    assert ctx[BookingFlag := Bool(true)] + map[] == ctx[BookingFlag := Bool(true)];
  }

  /** An exception drops the pending request. */
  lemma FailedContext(ctx: Object, isoDate: int -> string)
    requires Usable(ctx)
    ensures ContextAfter(ctx, Failed, isoDate) == ctx[BookingFlag := Bool(false)][Pending := Null]
  {
    var r := ContextAfter(ctx, Failed, isoDate);
    var e := ctx[BookingFlag := Bool(false)][Pending := Null];
    assert r.Keys == e.Keys;
    assert forall k :: k in r ==> r[k] == e[k];
  }

  /** An offer drops the request, awaits an answer and records what was
      offered (`Update`'s alternative) for the requested duration. */
  lemma OfferContext(ctx: Object, outcome: Outcome, isoDate: int -> string)
    requires Usable(ctx) && (outcome.Offered? || outcome == OfferedOther)
    ensures var r := ContextAfter(ctx, outcome, isoDate);
      {Pending, Awaiting, Alternative} <= r.Keys && r[Pending] == Null && r[Awaiting] == Bool(true)
      && r[Alternative] == Update(RequestOf(ctx), outcome, isoDate)[Alternative]
      && r[Alternative].Obj? && Get(r[Alternative], "duration") == Some(Str(RequestOf(ctx).duration))
  {
  }

  /** The slot offered is the preferred member at the time and date found. */
  lemma OfferedSlotContext(ctx: Object, slot: Slot, isoDate: int -> string)
    requires Usable(ctx)
    ensures var r := ContextAfter(ctx, Offered(slot), isoDate);
      Alternative in r
      && Get(r[Alternative], "staff") == Preferred(RequestOf(ctx))
      && Get(r[Alternative], "time") == Some(Str(TimeText(slot.startTime)))
      && Get(r[Alternative], "date") == Some(Str(isoDate(slot.startTime)))
  {
    OfferContext(ctx, Offered(slot), isoDate);
  }

  /** Without a slot, the other member is offered at the requested date and time. */
  lemma OtherMemberContext(ctx: Object, isoDate: int -> string)
    requires Usable(ctx)
    ensures var r := ContextAfter(ctx, OfferedOther, isoDate);
      Alternative in r
      && Get(r[Alternative], "staff") == Some(Str(Alt(RequestOf(ctx))))
      && Get(r[Alternative], "time") == RequestOf(ctx).time && Get(r[Alternative], "date") == RequestOf(ctx).date
  {
    OfferContext(ctx, OfferedOther, isoDate);
  }

  /** Exactly one utterance per attempt that gets past the guard. */
  function Said(ctx: Object, outcome: Outcome, isoDate: int -> string): (r: seq<Utterance>)
    requires outcome != Skipped && outcome != Rejected ==> Usable(ctx)
    ensures outcome == Skipped || outcome == Rejected <==> r == []
    ensures |r| <= 1
    ensures r != [] ==> r[0].streamSid == Get(Obj(ctx), "streamSid")
  {
    if outcome == Skipped || outcome == Rejected then []
    else [Utterance(Get(Obj(ctx), "streamSid"), SpeechText(RequestOf(ctx), outcome, isoDate))]
  }

  /** The calendars after the attempt: one event more for a booking. */
  function EventsAfter(events: map<string, seq<Event>>, outcome: Outcome): (r: map<string, seq<Event>>)
    ensures outcome.Confirmed? && outcome.staff in StaffCalendars ==>
      StaffEvents(r, outcome.staff) == StaffEvents(events, outcome.staff)
        + [Event(outcome.slot.startTime, outcome.slot.endTime, "Massage with " + outcome.staff)]
    ensures !outcome.Confirmed? ==> r == events
  {
    if outcome.Confirmed? && outcome.staff in StaffCalendars then
      events[StaffCalendars[outcome.staff] := StaffEvents(events, outcome.staff)
                                              + [Event(outcome.slot.startTime, outcome.slot.endTime, "Massage with " + outcome.staff)]]
    else events
  }

  /** `scheduleAppointment` for a free staff member, the context update on
      success, and the follow-up speech. */
  method Book(sm: SessionManager, speaker: Speaker, cal: Calendar, viaAlternative: bool, staff: string, q: Request,
              streamSid: Option<Value>, s: int, e: int, insertError: Option<string>, isoDate: int -> string)
    returns (outcome: Outcome)
    requires cal.tokenStored && staff in StaffCalendars
    modifies sm`context, speaker`spoken, cal`events
    ensures outcome == BookingOutcome(viaAlternative, staff, old(cal.events), s, e, insertError)
    ensures sm.context == Merge(old(sm.context), Update(q, outcome, isoDate))
    ensures speaker.spoken == old(speaker.spoken) + [Utterance(streamSid, SpeechText(q, outcome, isoDate))]
    ensures cal.events == EventsAfter(old(cal.events), outcome)
  {
    var result := cal.ScheduleAppointment(EventDetails(staff, "Massage with " + staff, s, e), insertError);
    if result.Err? {
      assert false;
    }
    if result.value.Booked? {
      outcome := Confirmed(viaAlternative, staff, Slot(s, e));
      sm.UpdateContext(Update(q, outcome, isoDate));
    } else {
      outcome := Refused(viaAlternative);
      assert Update(q, outcome, isoDate) == map[];
      assert sm.context + map[] == sm.context;
    }
    speaker.Say(streamSid, SpeechText(q, outcome, isoDate));
  }

  /** The try block of `handleScheduling`. */
  method TryBooking(sm: SessionManager, speaker: Speaker, cal: Calendar, q: Request, streamSid: Option<Value>,
                    startTime: Option<int>, insertError: Option<string>, isoDate: int -> string)
    returns (outcome: Outcome)
    modifies sm`context, speaker`spoken, cal`events
    ensures outcome == Attempt(q, cal.tokenStored, old(cal.events), startTime, insertError)
    ensures outcome != Failed ==> sm.context == Merge(old(sm.context), Update(q, outcome, isoDate))
    ensures outcome != Failed ==> speaker.spoken == old(speaker.spoken) + [Utterance(streamSid, SpeechText(q, outcome, isoDate))]
    ensures outcome == Failed ==> sm.context == old(sm.context) && speaker.spoken == old(speaker.spoken)
    ensures cal.events == EventsAfter(old(cal.events), outcome)
  {
    var preferred := Key(q);
    var durationMinutes := Minutes(q);
    if startTime.None? || durationMinutes.None? {
      // `checkAvailability` throws: no token, an unknown staff member or
      // `toISOString` of an invalid date
      return Failed;
    }
    var s := startTime.value;
    var e := s + durationMinutes.value;
    ghost var token, evs := cal.tokenStored, cal.events;
    var preferredFree := cal.CheckAvailability(preferred, s, e);
    if preferredFree.Err? {
      return Failed;
    }
    if preferredFree.value {
      assert Attempt(q, token, evs, startTime, insertError) == BookingOutcome(false, preferred, evs, s, e, insertError);
      outcome := Book(sm, speaker, cal, false, preferred, q, streamSid, s, e, insertError, isoDate);
    } else {
      assert Attempt(q, token, evs, startTime, insertError) == Fallback(q, evs, s, durationMinutes.value, insertError);
      outcome := TryOthers(sm, speaker, cal, q, streamSid, s, durationMinutes.value, insertError, isoDate);
    }
  }

  /** The branches after the preferred member is found busy. */
  method TryOthers(sm: SessionManager, speaker: Speaker, cal: Calendar, q: Request, streamSid: Option<Value>,
                   s: int, d: int, insertError: Option<string>, isoDate: int -> string)
    returns (outcome: Outcome)
    requires cal.tokenStored && Key(q) in StaffCalendars
    modifies sm`context, speaker`spoken, cal`events
    ensures outcome == Fallback(q, old(cal.events), s, d, insertError)
    ensures sm.context == Merge(old(sm.context), Update(q, outcome, isoDate))
    ensures speaker.spoken == old(speaker.spoken) + [Utterance(streamSid, SpeechText(q, outcome, isoDate))]
    ensures cal.events == EventsAfter(old(cal.events), outcome)
  {
    var altFree := cal.CheckAvailability(Alt(q), s, s + d);
    if altFree.Err? {
      assert false;
    }
    if altFree.value {
      outcome := Book(sm, speaker, cal, true, Alt(q), q, streamSid, s, s + d, insertError, isoDate);
      return;
    }
    outcome := Offer(sm, speaker, cal, q, streamSid, s, d, isoDate);
  }

  /** Both members are busy: the preferred member's next free slot is
      offered, or else the other member. */
  method Offer(sm: SessionManager, speaker: Speaker, cal: Calendar, q: Request, streamSid: Option<Value>,
               s: int, d: int, isoDate: int -> string)
    returns (outcome: Outcome)
    requires cal.tokenStored && Key(q) in StaffCalendars
    modifies sm`context, speaker`spoken
    ensures outcome == NextOffer(q, cal.events, s, d)
    ensures sm.context == Merge(old(sm.context), Update(q, outcome, isoDate))
    ensures speaker.spoken == old(speaker.spoken) + [Utterance(streamSid, SpeechText(q, outcome, isoDate))]
  {
    var nextSlot := cal.FindNextAvailable(Key(q), d, s);
    if nextSlot.Err? {
      assert false;
    }
    if nextSlot.value.Some? {
      outcome := Offered(nextSlot.value.value);
    } else {
      outcome := OfferedOther;
    }
    sm.UpdateContext(Update(q, outcome, isoDate));
    speaker.Say(streamSid, SpeechText(q, outcome, isoDate));
  }

  /** `handleScheduling`: the in-progress guard, the destructuring (which
      throws before the try block on a missing request or a non-string
      duration), the try block, the catch (apology and pending request
      dropped) and the `finally` that clears the in-progress flag. */
  method HandleScheduling(sm: SessionManager, speaker: Speaker, cal: Calendar, parseDate: string -> Option<int>,
                          isoDate: int -> string, insertError: Option<string>)
    returns (outcome: Outcome)
    modifies sm`context, speaker`spoken, cal`events
    ensures outcome == Expected(old(sm.context), cal.tokenStored, old(cal.events), parseDate, insertError)
    ensures sm.context == ContextAfter(old(sm.context), outcome, isoDate)
    ensures speaker.spoken == old(speaker.spoken) + Said(old(sm.context), outcome, isoDate)
    ensures cal.events == EventsAfter(old(cal.events), outcome)
  {
    var context := sm.context;
    if InProgress(context) {
      return Skipped;
    }
    if !Usable(context) {
      return Rejected;
    }
    var q := RequestOf(context);
    var streamSid := Get(Obj(context), "streamSid");
    var startTime := parseDate(StartText(q));
    outcome := RunAttempt(sm, speaker, cal, q, streamSid, startTime, insertError, isoDate);
  }

  /** The in-progress flag set in the context, the try block, the catch
      (apology, pending request dropped) and the `finally` clearing the flag. */
  method RunAttempt(sm: SessionManager, speaker: Speaker, cal: Calendar, q: Request, streamSid: Option<Value>,
                    startTime: Option<int>, insertError: Option<string>, isoDate: int -> string)
    returns (outcome: Outcome)
    modifies sm`context, speaker`spoken, cal`events
    ensures outcome == Attempt(q, cal.tokenStored, old(cal.events), startTime, insertError)
    ensures sm.context == old(sm.context)[BookingFlag := Bool(true)] + Update(q, outcome, isoDate) + map[BookingFlag := Bool(false)]
    ensures speaker.spoken == old(speaker.spoken) + [Utterance(streamSid, SpeechText(q, outcome, isoDate))]
    ensures cal.events == EventsAfter(old(cal.events), outcome)
  {
    sm.context := sm.context[BookingFlag := Bool(true)];
    outcome := TryBooking(sm, speaker, cal, q, streamSid, startTime, insertError, isoDate);
    if outcome == Failed {
      speaker.Say(streamSid, FailedText);
      sm.UpdateContext(map[Pending := Null]);
    }
    sm.UpdateContext(map[BookingFlag := Bool(false)]);
  }

  // ---- The answer to an offer ----

  datatype Reply = Accepted | Declined | Unclear

  /** `words.some(w => text.includes(w))`. */
  function SomeContained(text: string, words: seq<string>): (r: bool)
    ensures r <==> exists i :: 0 <= i < |words| && Contains(text, words[i])
  {
    if words == [] then false
    else if Contains(text, words[0]) then true
    else
      var r := SomeContained(text, words[1..]);
      assert forall i :: 1 <= i < |words| ==> words[i] == words[1..][i - 1];
      r
  }

  /** An affirmative word or the offered staff member's name accepts, even
      next to a negative word; otherwise a negative word declines. */
  function Classify(lower: string, staffLower: string): Reply
  {
    if SomeContained(lower, Affirmative) || Contains(lower, staffLower) then Accepted
    else if SomeContained(lower, Negative) then Declined
    else Unclear
  }

  /** `context.schedulingAlternative.staff.toLowerCase()` succeeds. */
  predicate AlternativeReadable(ctx: Object)
  {
    Alternative in ctx && ctx[Alternative].Obj? && "staff" in ctx[Alternative].fields
      && ctx[Alternative].fields["staff"].Str?
  }

  function Answer(transcription: string, ctx: Object): Option<Reply>
  {
    if !AlternativeReadable(ctx) then None
    else Some(Classify(ToLowerAscii(transcription), ToLowerAscii(ctx[Alternative].fields["staff"].s)))
  }

  /** The context after the answer: an acceptance moves the offer into the
      pending request, a refusal drops offer and request, anything else
      leaves the context as it was. */
  function ContextAfterAnswer(ctx: Object, reply: Option<Reply>): (r: Object)
    requires reply.Some? ==> AlternativeReadable(ctx)
    ensures reply != Some(Accepted) && reply != Some(Declined) ==> r == ctx
    ensures reply == Some(Accepted) || reply == Some(Declined) ==>
      r.Keys == ctx.Keys + {Pending, Awaiting, Alternative} && r[Awaiting] == Bool(false) && r[Alternative] == Null
    ensures reply == Some(Accepted) ==>
      (r[Pending].Obj? && forall k :: k in {"staff", "date", "time", "duration"} ==> Get(r[Pending], k) == Get(ctx[Alternative], k))
    ensures reply == Some(Declined) ==> r[Pending] == Null
  {
    if reply == Some(Accepted) then
      var a := ctx[Alternative];
      Merge(ctx, map[Pending := Obj(Literal(map["date" := Get(a, "date"), "time" := Get(a, "time"),
                                                "duration" := Get(a, "duration"), "staff" := Get(a, "staff")])),
                     Awaiting := Bool(false), Alternative := Null])
    else if reply == Some(Declined) then
      Merge(ctx, map[Awaiting := Bool(false), Alternative := Null, Pending := Null])
    else ctx
  }

  function AnswerSpeech(reply: Option<Reply>): (r: seq<string>)
    ensures reply == Some(Declined) ==> r == [DeclinedText]
    ensures reply == Some(Unclear) ==> r == [UnclearText]
    ensures reply.None? || reply == Some(Accepted) ==> r == []
  {
    match reply
    case Some(Declined) => [DeclinedText]
    case Some(Unclear) => [UnclearText]
    case _ => []
  }

  /** `handleConfirmation`; `None` when reading the offered staff member
      throws (no offer, or a staff value that is not a string). */
  method HandleConfirmation(transcription: string, sm: SessionManager, speaker: Speaker) returns (reply: Option<Reply>)
    modifies sm`context, speaker`spoken
    ensures reply == Answer(transcription, old(sm.context))
    ensures sm.context == ContextAfterAnswer(old(sm.context), reply)
    ensures speaker.spoken == old(speaker.spoken)
      + (if |AnswerSpeech(reply)| == 1 then [Utterance(Get(Obj(old(sm.context)), "streamSid"), AnswerSpeech(reply)[0])] else [])
  {
    var context := sm.context;
    if !AlternativeReadable(context) {
      return None;
    }
    var lowerText := ToLowerAscii(transcription);
    var altStaffLower := ToLowerAscii(context[Alternative].fields["staff"].s);
    var streamSid := Get(Obj(context), "streamSid");
    var answer := Classify(lowerText, altStaffLower);
    reply := Some(answer);
    if answer == Accepted {
      var a := context[Alternative];
      sm.UpdateContext(map[Pending := Obj(Literal(map["date" := Get(a, "date"), "time" := Get(a, "time"),
                                                      "duration" := Get(a, "duration"), "staff" := Get(a, "staff")])),
                           Awaiting := Bool(false), Alternative := Null]);
    } else if answer == Declined {
      speaker.Say(streamSid, DeclinedText);
      sm.UpdateContext(map[Awaiting := Bool(false), Alternative := Null, Pending := Null]);
    } else {
      speaker.Say(streamSid, UnclearText);
    }
  }

  // ---- Properties across the two handlers ----

  /** An affirmative word wins over any negative word in the same answer. */
  lemma AffirmativeWins(lower: string, staffLower: string, i: nat)
    requires i < |Affirmative| && Contains(lower, Affirmative[i])
    ensures Classify(lower, staffLower) == Accepted
  {
  }

  /** An offered staff member whose name is empty accepts every answer. */
  lemma EmptyNameAcceptsAll(lower: string)
    ensures Classify(lower, "") == Accepted
  {
    assert StartsWith(lower, "");
  }

  /** Accepting an offer that names a duration string turns it into a
      usable request for the same member, date, time and duration, and
      leaves the in-progress flag as it was. */
  lemma AcceptedOfferIsRequest(ctx: Object)
    requires AlternativeReadable(ctx)
    requires Get(ctx[Alternative], "duration").Some? && Get(ctx[Alternative], "duration").value.Str?
    ensures var after := ContextAfterAnswer(ctx, Some(Accepted));
      Usable(after) && InProgress(after) == InProgress(ctx)
      && RequestOf(after) == Request(Get(ctx[Alternative], "date"), Get(ctx[Alternative], "time"),
                                     Get(ctx[Alternative], "duration").value.s, Get(ctx[Alternative], "staff"))
  {
    var after := ContextAfterAnswer(ctx, Some(Accepted));
    assert Get(after[Pending], "duration") == Get(ctx[Alternative], "duration");
    assert Get(Obj(after), BookingFlag) == Get(Obj(ctx), BookingFlag);
  }

  /** Accepting an offer makes the next `handleScheduling` proceed: the
      request is usable, no booking is marked in progress, and it carries
      the offered member and time and the original duration. */
  lemma AcceptedOfferIsNextRequest(ctx: Object, outcome: Outcome, isoDate: int -> string, transcription: string)
    requires Usable(ctx) && (outcome.Offered? || outcome == OfferedOther)
    requires Answer(transcription, ContextAfter(ctx, outcome, isoDate)) == Some(Accepted)
    ensures var after := ContextAfterAnswer(ContextAfter(ctx, outcome, isoDate), Some(Accepted));
      Usable(after) && !InProgress(after)
      && RequestOf(after).duration == RequestOf(ctx).duration
      && (outcome.Offered? ==> RequestOf(after).staff == Preferred(RequestOf(ctx))
                               && RequestOf(after).time == Some(Str(TimeText(outcome.slot.startTime))))
      && (outcome == OfferedOther ==> RequestOf(after).staff == Some(Str(Alt(RequestOf(ctx))))
                                      && RequestOf(after).time == RequestOf(ctx).time)
  {
    var offered := ContextAfter(ctx, outcome, isoDate);
    OfferContext(ctx, outcome, isoDate);
    if outcome.Offered? {
      OfferedSlotContext(ctx, outcome.slot, isoDate);
    } else {
      OtherMemberContext(ctx, isoDate);
    }
    AcceptedOfferIsRequest(offered);
  }
}
