/** The calendar side of booking (nodes/schedule.node.js): whether a staff
    member is free for an interval, the search for the next free slot inside
    business hours, and the insertion of an appointment with its duplicate
    check. The Google calendars are a `Calendar` object whose per-calendar
    event lists the insert operation extends. Times are whole minutes on the
    salon's local clock, a day is 1440 minutes, and the OAuth token file is
    the flag `tokenStored`. */
module ScheduleNode {
  import opened Wrappers

  const BusinessStartHour: int := 10
  const BusinessEndHour: int := 22
  const MaxDaysAhead: nat := 7
  const StepMinutes: int := 30
  const MinutesPerDay: int := 1440
  const DefaultSummary: string := "Massage Appointment"
  const NoTokenMessage: string := "No token found. Please authorize first by visiting /api/schedule/auth"

  const AngieCalendar: string := "d96e21c6ba72575ccf3b397f67ee90d075b1c517dfc86c7394f763eafa034661@group.calendar.google.com"
  const BellCalendar: string := "0ef80663e869c67108336d68bc96dbb22eba4711dc1d12fe5de1856b33ab6036@group.calendar.google.com"

  /** Staff name to Google calendar id. */
  const StaffCalendars: map<string, string> := map["Angie" := AngieCalendar, "Bell" := BellCalendar]

  function UnknownStaffMessage(staff: string): string
  {
    "Staff member '" + staff + "' not found in STAFF_CALENDARS."
  }

  datatype Event = Event(start: int, end: int, summary: string)

  datatype Slot = Slot(startTime: int, endTime: int)

  /** What `scheduleAppointment` reports: `{success: true, link}`,
      `{success: false, message: "Appointment already exists"}` or
      `{success: false, error}`. */
  datatype Booking = Booked | AlreadyExists | InsertFailed(message: string)
  {
    predicate Success() { Booked? }
  }

  /** The events of a staff member's calendar (none for an unknown name). */
  function StaffEvents(events: map<string, seq<Event>>, staff: string): seq<Event>
  {
    if staff in StaffCalendars && StaffCalendars[staff] in events then events[StaffCalendars[staff]] else []
  }

  datatype EventDetails = EventDetails(staff: string, summary: string, start: int, end: int)

  /** An event meets the interval [start, end). */
  predicate Overlaps(e: Event, start: int, end: int)
  {
    e.start < end && e.end > start
  }

  /** Nothing in the calendar meets [start, end). */
  predicate Free(events: seq<Event>, start: int, end: int)
  {
    forall e :: e in events ==> !Overlaps(e, start, end)
  }

  /** What `events.list` returns for `timeMin`/`timeMax`: the events that end
      after `timeMin` and start before `timeMax`, in calendar order. */
  function Listed(events: seq<Event>, timeMin: int, timeMax: int): (r: seq<Event>)
    ensures forall e :: e in r <==> e in events && Overlaps(e, timeMin, timeMax)
  {
    if events == [] then []
    else if Overlaps(events[0], timeMin, timeMax) then [events[0]] + Listed(events[1..], timeMin, timeMax)
    else Listed(events[1..], timeMin, timeMax)
  }

  /** `events.some(event => eventStart < endTime && eventEnd > startTime)`. */
  function SomeOverlapping(events: seq<Event>, start: int, end: int): (r: bool)
    ensures r <==> exists e :: e in events && Overlaps(e, start, end)
  {
    events != [] && (Overlaps(events[0], start, end) || SomeOverlapping(events[1..], start, end))
  }

  /** `events.find` of an event with the same start and end. */
  function FindSame(events: seq<Event>, start: int, end: int): (r: Option<Event>)
    ensures r.Some? ==> r.value in events && r.value.start == start && r.value.end == end
    ensures r.None? ==> forall e :: e in events ==> !(e.start == start && e.end == end)
  {
    if events == [] then None
    else if events[0].start == start && events[0].end == end then Some(events[0])
    else FindSame(events[1..], start, end)
  }

  /** `eventDetails.summary || 'Massage Appointment'`. */
  function SummaryOf(summary: string): (r: string)
    ensures r != []
    ensures summary != [] ==> r == summary
  {
    if summary != [] then summary else DefaultSummary
  }

  // ---- Clock arithmetic of the slot search ----

  /** Minutes since midnight, what `getHours`/`getMinutes` read. */
  function Clock(t: int): int { t % MinutesPerDay }

  function HourOf(t: int): int { Clock(t) / 60 }

  function MinuteOf(t: int): int { Clock(t) % 60 }

  /** Midnight of the day containing `t`. */
  function Midnight(t: int): int { t - Clock(t) }

  /** `setHours(10, 0, 0, 0)` on a copy of `startFrom`, moved to the next day
      when that is before `startFrom`. */
  function FirstCheck(startFrom: int): int
  {
    var c := Midnight(startFrom) + BusinessStartHour * 60;
    if c < startFrom then c + MinutesPerDay else c
  }

  lemma ClockShift(t: int, k: int)
    ensures Clock(t + k * MinutesPerDay) == Clock(t)
  {
  }

  lemma ClockStep(t: int, d: int)
    requires 0 <= Clock(t) + d < MinutesPerDay
    ensures Clock(t + d) == Clock(t) + d
  {
  }

  /** The end-of-slot test: an end in the 22 o'clock hour other than 22:00
      itself, or any later hour of the same clock day. It reads the hour of
      day only, so an end past midnight passes it again. */
  predicate EndsTooLate(end: int)
  {
    HourOf(end) > BusinessEndHour || (HourOf(end) == BusinessEndHour && MinuteOf(end) > 0)
  }

  /** The candidate starts one day of the search tries, from `cur` on in
      30-minute steps, while the start is before 22:00 and the end passes
      `EndsTooLate`. */
  function DaySlots(cur: int, duration: int): seq<int>
    decreases BusinessEndHour * 60 - Clock(cur)
  {
    if HourOf(cur) >= BusinessEndHour || EndsTooLate(cur + duration) then []
    else [cur] + DaySlots(cur + StepMinutes, duration)
  }

  /** All candidates of the first `days` days from `first`, in search order. */
  function Scan(first: int, duration: int, days: nat): seq<int>
  {
    if days == 0 then []
    else Scan(first, duration, days - 1) + DaySlots(first + (days - 1) * MinutesPerDay, duration)
  }

  /** One more day of the search appends that day's candidates. */
  lemma ScanStep(first: int, duration: int, day: nat, t: int)
    requires t == first + day * MinutesPerDay
    ensures Scan(first, duration, day + 1) == Scan(first, duration, day) + DaySlots(t, duration)
    ensures t + MinutesPerDay == first + (day + 1) * MinutesPerDay
  {
  }

  /** The first candidate whose interval is free. */
  function FirstFree(events: seq<Event>, starts: seq<int>, duration: int): (r: Option<Slot>)
    ensures r.Some? ==> r.value.endTime == r.value.startTime + duration && Free(events, r.value.startTime, r.value.endTime)
  {
    if starts == [] then None
    else if Free(events, starts[0], starts[0] + duration) then Some(Slot(starts[0], starts[0] + duration))
    else FirstFree(events, starts[1..], duration)
  }

  /** Nothing is found exactly when every candidate is busy. */
  lemma {:induction false} FirstFreeNone(events: seq<Event>, starts: seq<int>, duration: int)
    ensures FirstFree(events, starts, duration).None? <==> forall s :: s in starts ==> !Free(events, s, s + duration)
  {
    if starts != [] {
      FirstFreeNone(events, starts[1..], duration);
      assert starts[0] in starts;
      assert forall s :: s in starts ==> s == starts[0] || s in starts[1..];
      assert forall s :: s in starts[1..] ==> s in starts;
    }
  }

  /** The slot found is the first free candidate: every earlier one is busy. */
  lemma {:induction false} FirstFreeIsFirst(events: seq<Event>, starts: seq<int>, duration: int)
    requires FirstFree(events, starts, duration).Some?
    ensures var r := FirstFree(events, starts, duration);
      exists i :: 0 <= i < |starts| && starts[i] == r.value.startTime
                  && forall j :: 0 <= j < i ==> !Free(events, starts[j], starts[j] + duration)
  {
    var r := FirstFree(events, starts, duration);
    if Free(events, starts[0], starts[0] + duration) {
      assert starts[0] == r.value.startTime;
    } else {
      FirstFreeIsFirst(events, starts[1..], duration);
      var i :| 0 <= i < |starts[1..]| && starts[1..][i] == r.value.startTime
               && forall j :: 0 <= j < i ==> !Free(events, starts[1..][j], starts[1..][j] + duration);
      assert starts[i + 1] == r.value.startTime;
      forall j | 0 <= j < i + 1
        ensures !Free(events, starts[j], starts[j] + duration)
      {
        if j > 0 { assert starts[j] == starts[1..][j - 1]; }
      }
    }
  }

  // ---- Properties of the search order ----

  /** The hour tests of the scan in minutes since midnight: a start is
      before 22:00, and an end is rejected when it is after 22:00. */
  lemma ClockTests(t: int)
    ensures HourOf(t) < BusinessEndHour <==> Clock(t) < BusinessEndHour * 60
    ensures EndsTooLate(t) <==> Clock(t) > BusinessEndHour * 60
  {
  }

  /** The first candidate is 10:00 on the day of `startFrom`, or on the next
      day when that is already past, and so never before `startFrom` and
      less than a day after it. */
  lemma FirstCheckAtTen(startFrom: int)
    ensures var c := FirstCheck(startFrom);
      HourOf(c) == BusinessStartHour && MinuteOf(c) == 0 && Clock(c) == BusinessStartHour * 60
      && startFrom <= c < startFrom + MinutesPerDay
  {
    var k := startFrom / MinutesPerDay;
    assert Midnight(startFrom) == k * MinutesPerDay;
    ClockShift(600, k);
    ClockShift(600, k + 1);
  }

  /** Each day's candidates start at its first and step by 30 minutes, all
      before 22:00 and none with an end that `EndsTooLate` rejects. */
  lemma {:induction false} DaySlotsShape(cur: int, duration: int)
    ensures forall i :: 0 <= i < |DaySlots(cur, duration)| ==>
      DaySlots(cur, duration)[i] == cur + i * StepMinutes && HourOf(DaySlots(cur, duration)[i]) < BusinessEndHour
      && !EndsTooLate(DaySlots(cur, duration)[i] + duration)
    decreases BusinessEndHour * 60 - Clock(cur)
  {
    if !(HourOf(cur) >= BusinessEndHour || EndsTooLate(cur + duration)) {
      ClockTests(cur);
      ClockStep(cur, StepMinutes);
      DaySlotsShape(cur + StepMinutes, duration);
      var r := DaySlots(cur, duration);
      var t := DaySlots(cur + StepMinutes, duration);
      assert r == [cur] + t;
      forall i | 0 <= i < |r|
        ensures r[i] == cur + i * StepMinutes && HourOf(r[i]) < BusinessEndHour && !EndsTooLate(r[i] + duration)
      {
        if i > 0 {
          assert r[i] == t[i - 1];
          assert t[i - 1] == cur + StepMinutes + (i - 1) * StepMinutes;
        }
      }
    }
  }

  lemma {:induction false} DaySlotsRoom(cur: int, duration: int)
    ensures DaySlots(cur, duration) == [] || StepMinutes * |DaySlots(cur, duration)| < 1350 - Clock(cur)
    decreases BusinessEndHour * 60 - Clock(cur)
  {
    if !(HourOf(cur) >= BusinessEndHour || EndsTooLate(cur + duration)) {
      ClockTests(cur);
      ClockStep(cur, StepMinutes);
      DaySlotsRoom(cur + StepMinutes, duration);
    }
  }

  /** A day that starts at 10:00 tries at most 24 candidates (10:00 to 21:30). */
  lemma DaySlotsCount(cur: int, duration: int)
    requires Clock(cur) == BusinessStartHour * 60
    ensures |DaySlots(cur, duration)| <= 24
  {
    DaySlotsRoom(cur, duration);
  }

  /** The whole search tries at most 7 × 24 candidates. */
  lemma {:induction false} ScanCount(startFrom: int, duration: int, days: nat)
    ensures |Scan(FirstCheck(startFrom), duration, days)| <= days * 24
  {
    if days > 0 {
      ScanCount(startFrom, duration, days - 1);
      var c := FirstCheck(startFrom);
      FirstCheckAtTen(startFrom);
      ClockShift(c, days - 1);
      DaySlotsCount(c + (days - 1) * MinutesPerDay, duration);
    }
  }

  lemma {:induction false} DaySlotsInHours(cur: int, duration: int)
    requires 0 <= duration && BusinessStartHour * 60 <= Clock(cur) && Clock(cur) + duration < MinutesPerDay
    ensures forall s :: s in DaySlots(cur, duration) ==>
      Midnight(s) == Midnight(cur) && BusinessStartHour * 60 <= Clock(s) && Clock(s) + duration <= BusinessEndHour * 60
    decreases BusinessEndHour * 60 - Clock(cur)
  {
    if !(HourOf(cur) >= BusinessEndHour || EndsTooLate(cur + duration)) {
      ClockTests(cur);
      ClockTests(cur + duration);
      ClockStep(cur, duration);
      ClockStep(cur, StepMinutes);
      DaySlotsInHours(cur + StepMinutes, duration);
    }
  }

  /** For a duration under 14 hours every candidate of the search starts at
      or after 10:00 and ends by 22:00 of its own day. */
  lemma {:induction false} ScanInHours(startFrom: int, duration: int, days: nat)
    requires 0 <= duration < 840
    ensures forall s :: s in Scan(FirstCheck(startFrom), duration, days) ==>
      BusinessStartHour * 60 <= Clock(s) && Clock(s) + duration <= BusinessEndHour * 60
  {
    if days > 0 {
      ScanInHours(startFrom, duration, days - 1);
      var c := FirstCheck(startFrom);
      FirstCheckAtTen(startFrom);
      ClockShift(c, days - 1);
      DaySlotsInHours(c + (days - 1) * MinutesPerDay, duration);
    }
  }

  /** The end test reads the hour of day only: a 14-hour slot from 10:00 ends
      at midnight, which reads as hour 0, and is offered although it ends
      after 22:00. */
  lemma LongSlotWraps()
    ensures DaySlots(600, 840) != [] && DaySlots(600, 840)[0] == 600
    ensures 600 + 840 > BusinessEndHour * 60
  {
    assert Clock(600 + 840) == 0;
    assert !EndsTooLate(600 + 840);
  }

  /** A free first candidate is the one found. */
  lemma FirstFreeHead(events: seq<Event>, s: int, rest: seq<int>, duration: int)
    requires Free(events, s, s + duration)
    ensures FirstFree(events, [s] + rest, duration) == Some(Slot(s, s + duration))
  {
    assert ([s] + rest)[0] == s;
  }

  /** One step of the day's candidate list, with the search measure shrinking. */
  lemma DaySlotsStep(cur: int, duration: int)
    requires HourOf(cur) < BusinessEndHour && !EndsTooLate(cur + duration)
    ensures DaySlots(cur, duration) == [cur] + DaySlots(cur + StepMinutes, duration)
    ensures BusinessEndHour * 60 - Clock(cur + StepMinutes) < BusinessEndHour * 60 - Clock(cur)
  {
    ClockTests(cur);
    ClockStep(cur, StepMinutes);
  }

  lemma FirstFreeSkipsBusy(events: seq<Event>, a: seq<int>, b: seq<int>, duration: int)
    requires forall s :: s in a ==> !Free(events, s, s + duration)
    ensures FirstFree(events, a + b, duration) == FirstFree(events, b, duration)
  {
    if a != [] {
      assert (a + b)[1..] == a[1..] + b;
      assert (a + b)[0] == a[0] && a[0] in a;
      assert !Free(events, (a + b)[0], (a + b)[0] + duration);
      assert forall s :: s in a[1..] ==> s in a;
      FirstFreeSkipsBusy(events, a[1..], b, duration);
      assert FirstFree(events, a + b, duration) == FirstFree(events, (a + b)[1..], duration);
    } else {
      assert a + b == b;
    }
  }

  /** Candidates known to be all busy can be skipped. */
  lemma FirstFreeAfterNone(events: seq<Event>, a: seq<int>, b: seq<int>, duration: int)
    requires FirstFree(events, a, duration).None?
    ensures FirstFree(events, a + b, duration) == FirstFree(events, b, duration)
  {
    FirstFreeNone(events, a, duration);
    FirstFreeSkipsBusy(events, a, b, duration);
  }

  /** A busy candidate after busy ones leaves nothing found. */
  lemma FirstFreeExtend(events: seq<Event>, a: seq<int>, s: int, duration: int)
    requires FirstFree(events, a, duration).None? && !Free(events, s, s + duration)
    ensures FirstFree(events, a + [s], duration).None?
  {
    FirstFreeAfterNone(events, a, [s], duration);
    assert [s][1..] == [];
  }

  lemma FirstFreeKeepsFound(events: seq<Event>, a: seq<int>, b: seq<int>, duration: int)
    requires FirstFree(events, a, duration).Some?
    ensures FirstFree(events, a + b, duration) == FirstFree(events, a, duration)
  {
    if !Free(events, a[0], a[0] + duration) {
      assert (a + b)[1..] == a[1..] + b;
      FirstFreeKeepsFound(events, a[1..], b, duration);
    }
  }

  lemma ScanGrows(first: int, duration: int, m: nat, n: nat)
    requires m <= n
    ensures exists rest :: Scan(first, duration, n) == Scan(first, duration, m) + rest
  {
    if m < n {
      ScanGrows(first, duration, m, n - 1);
      var rest :| Scan(first, duration, n - 1) == Scan(first, duration, m) + rest;
      var more := DaySlots(first + (n - 1) * MinutesPerDay, duration);
      assert Scan(first, duration, n) == Scan(first, duration, m) + (rest + more);
    } else {
      assert Scan(first, duration, n) == Scan(first, duration, m) + [];
    }
  }

  /** A later search day neither changes a slot already found nor empties
      the candidates. */
  lemma ScanKeepsFound(events: seq<Event>, first: int, duration: int, m: nat, n: nat)
    requires m <= n
    ensures FirstFree(events, Scan(first, duration, m), duration).Some? ==>
      FirstFree(events, Scan(first, duration, n), duration) == FirstFree(events, Scan(first, duration, m), duration)
    ensures Scan(first, duration, m) != [] ==> Scan(first, duration, n) != []
  {
    ScanGrows(first, duration, m, n);
    var rest :| Scan(first, duration, n) == Scan(first, duration, m) + rest;
    if FirstFree(events, Scan(first, duration, m), duration).Some? {
      FirstFreeKeepsFound(events, Scan(first, duration, m), rest, duration);
    }
    assert |Scan(first, duration, n)| >= |Scan(first, duration, m)|;
  }

  /** A booked interval of positive length is no longer free, for that
      interval or any that meets it. */
  lemma BookedIsTaken(events: seq<Event>, e: Event, start: int, end: int)
    requires Overlaps(e, start, end)
    ensures !Free(events + [e], start, end)
  {
    assert e in events + [e];
  }

  /** The listing window plus the re-check equals the plain question "does any
      event of the calendar meet [start, end)". */
  lemma ListedOverlapIsOverlap(events: seq<Event>, start: int, end: int)
    ensures SomeOverlapping(Listed(events, start, end), start, end) <==> !Free(events, start, end)
  {
  }

  /** For a well-formed interval, the listing around `start` holds every
      event with exactly that start and end. */
  lemma DuplicateIsListed(events: seq<Event>, start: int, end: int)
    requires start <= end
    ensures FindSame(Listed(events, start - 1, start + 1), start, end).Some?
        <==> exists e :: e in events && e.start == start && e.end == end
  {
    if e :| e in events && e.start == start && e.end == end {
      assert e in Listed(events, start - 1, start + 1);
    }
  }

  /** The salon's Google calendars, keyed by calendar id. */
  class Calendar {
    var tokenStored: bool
    var events: map<string, seq<Event>>

    constructor(tokenStored: bool, events: map<string, seq<Event>>)
      ensures this.tokenStored == tokenStored && this.events == events
    {
      this.tokenStored := tokenStored;
      this.events := events;
    }

    function EventsOf(staff: string): seq<Event>
      reads this
    {
      StaffEvents(events, staff)
    }

    /** `checkAvailability`: authorization first, then the staff lookup, then
        the listing of [start, end) and the overlap re-check. */
    method CheckAvailability(staff: string, start: int, end: int) returns (r: Result<bool>)
      ensures !tokenStored ==> r == Err(NoTokenMessage)
      ensures tokenStored && staff !in StaffCalendars ==> r == Err(UnknownStaffMessage(staff))
      ensures tokenStored && staff in StaffCalendars ==> r == Ok(Free(EventsOf(staff), start, end))
    {
      if !tokenStored {
        return Err(NoTokenMessage);
      }
      if staff !in StaffCalendars {
        return Err(UnknownStaffMessage(staff));
      }
      var listed := Listed(EventsOf(staff), start, end);
      ListedOverlapIsOverlap(EventsOf(staff), start, end);
      return Ok(!SomeOverlapping(listed, start, end));
    }

    /** One day of the search: from `checkTime` in 30-minute steps while the
        start is before 22:00 and the end passes the clock test; the first
        free interval wins. */
    method ScanDay(staff: string, checkTime: int, duration: int) returns (r: Result<Option<Slot>>)
      requires tokenStored
      ensures staff in StaffCalendars ==> r == Ok(FirstFree(EventsOf(staff), DaySlots(checkTime, duration), duration))
      ensures staff !in StaffCalendars ==>
        r == if DaySlots(checkTime, duration) == [] then Ok(None) else Err(UnknownStaffMessage(staff))
    {
      var currentTime := checkTime;
      ghost var evs := EventsOf(staff);
      ghost var seen: seq<int> := [];
      while HourOf(currentTime) < BusinessEndHour
        invariant DaySlots(checkTime, duration) == seen + DaySlots(currentTime, duration)
        invariant FirstFree(evs, seen, duration).None?
        invariant staff !in StaffCalendars ==> seen == []
        decreases BusinessEndHour * 60 - Clock(currentTime)
      {
        var endTime := currentTime + duration;
        if EndsTooLate(endTime) {
          break;
        }
        DaySlotsStep(currentTime, duration);
        var available := CheckAvailability(staff, currentTime, endTime);
        assert evs == EventsOf(staff) && tokenStored;
        if available.Err? {
          assert staff !in StaffCalendars;
          return Err(available.msg);
        }
        if available.value {
          FirstFreeAfterNone(evs, seen, DaySlots(currentTime, duration), duration);
          FirstFreeHead(evs, currentTime, DaySlots(currentTime + StepMinutes, duration), duration);
          assert staff in StaffCalendars;
          return Ok(Some(Slot(currentTime, endTime)));
        }
        FirstFreeExtend(evs, seen, currentTime, duration);
        seen := seen + [currentTime];
        currentTime := currentTime + StepMinutes;
      }
      assert DaySlots(currentTime, duration) == [];
      assert DaySlots(checkTime, duration) == seen;
      return Ok(None);
    }

    /** `findNextAvailable`: from 10:00 of the first search day (see
        `FirstCheck`), one `ScanDay` per day for up to seven days; the first
        free interval wins. The staff name is only looked up by the
        availability checks, so an unknown name fails only once a candidate
        is checked. */
    method FindNextAvailable(staff: string, duration: int, startFrom: int) returns (r: Result<Option<Slot>>)
      ensures !tokenStored ==> r == Err(NoTokenMessage)
      ensures tokenStored && staff in StaffCalendars ==>
        r == Ok(FirstFree(EventsOf(staff), Scan(FirstCheck(startFrom), duration, MaxDaysAhead), duration))
      ensures tokenStored && staff !in StaffCalendars ==>
        r == if Scan(FirstCheck(startFrom), duration, MaxDaysAhead) == [] then Ok(None) else Err(UnknownStaffMessage(staff))
    {
      if !tokenStored {
        return Err(NoTokenMessage);
      }
      var first := FirstCheck(startFrom);
      r := ScanDays(staff, first, duration, MaxDaysAhead);
    }

    /** The day-by-day loop of `findNextAvailable` from its first candidate. */
    method ScanDays(staff: string, first: int, duration: int, days: nat) returns (r: Result<Option<Slot>>)
      requires tokenStored
      ensures staff in StaffCalendars ==>
        r == Ok(FirstFree(EventsOf(staff), Scan(first, duration, days), duration))
      ensures staff !in StaffCalendars ==>
        r == if Scan(first, duration, days) == [] then Ok(None) else Err(UnknownStaffMessage(staff))
    {
      ghost var evs := EventsOf(staff);
      var checkTime := first;
      var day: nat := 0;
      while day < days
        invariant day <= days
        invariant checkTime == first + day * MinutesPerDay
        invariant FirstFree(evs, Scan(first, duration, day), duration).None?
        invariant staff !in StaffCalendars ==> Scan(first, duration, day) == []
      {
        var found := ScanDay(staff, checkTime, duration);
        ghost var today := DaySlots(checkTime, duration);
        ScanStep(first, duration, day, checkTime);
        FirstFreeAfterNone(evs, Scan(first, duration, day), today, duration);
        if found.Err? || found.value.Some? {
          ScanKeepsFound(evs, first, duration, day + 1, days);
          return found;
        }
        checkTime := checkTime + MinutesPerDay;
        day := day + 1;
      }
      return Ok(None);
    }

    /** `scheduleAppointment`: authorization, staff lookup, the duplicate
        check over the events listed within a minute of the start, then the
        insert, which the calendar service may refuse (`insertError`). */
    method ScheduleAppointment(details: EventDetails, insertError: Option<string>) returns (r: Result<Booking>)
      modifies this`events
      ensures !tokenStored || details.staff !in StaffCalendars ==> events == old(events)
      ensures !tokenStored ==> r == Err(NoTokenMessage)
      ensures tokenStored && details.staff !in StaffCalendars ==> r == Err(UnknownStaffMessage(details.staff))
      ensures tokenStored && details.staff in StaffCalendars ==>
        var id := StaffCalendars[details.staff];
        var before := old(EventsOf(details.staff));
        if FindSame(Listed(before, details.start - 1, details.start + 1), details.start, details.end).Some? then
          r == Ok(AlreadyExists) && events == old(events)
        else if insertError.Some? then
          r == Ok(InsertFailed(insertError.value)) && events == old(events)
        else
          r == Ok(Booked) && events == old(events)[id := before + [Event(details.start, details.end, SummaryOf(details.summary))]]
    {
      if !tokenStored {
        return Err(NoTokenMessage);
      }
      if details.staff !in StaffCalendars {
        return Err(UnknownStaffMessage(details.staff));
      }
      var id := StaffCalendars[details.staff];
      var listed := Listed(EventsOf(details.staff), details.start - 1, details.start + 1);
      var duplicate := FindSame(listed, details.start, details.end);
      if duplicate.Some? {
        return Ok(AlreadyExists);
      }
      var event := Event(details.start, details.end, SummaryOf(details.summary));
      if insertError.Some? {
        return Ok(InsertFailed(insertError.value));
      }
      events := events[id := EventsOf(details.staff) + [event]];
      return Ok(Booked);
    }
  }

  /** After a successful booking the booked interval (of positive length) is
      no longer available to that staff member. */
  method BookThenCheck(cal: Calendar, details: EventDetails) returns (before: Result<bool>, booking: Result<Booking>, after: Result<bool>)
    requires details.start < details.end
    modifies cal
    ensures booking == Ok(Booked) ==> after == Ok(false)
  {
    before := cal.CheckAvailability(details.staff, details.start, details.end);
    booking := cal.ScheduleAppointment(details, None);
    after := cal.CheckAvailability(details.staff, details.start, details.end);
    if booking == Ok(Booked) {
      BookedIsTaken(old(cal.EventsOf(details.staff)), Event(details.start, details.end, SummaryOf(details.summary)), details.start, details.end);
    }
  }
}
