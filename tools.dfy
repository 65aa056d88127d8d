/** The four calendar tools the agent calls: book, list, cancel and
    reschedule. The booking service is abstract: each tool receives what the
    service answered to each of its calls (`Failure` where the call raised),
    and its outcome records the mutating call it made, if any. Every
    exception a tool catches becomes a `Raised` reply. */
module CalendarTools {
  import opened Wrappers
  import opened Strings
  import opened Json
  import opened Civil
  import opened TimeText
  import opened Calcom
  import opened Resolution
  import opened StartSort
  import opened Replies

  datatype EventType = EventType(id: int, length: int)

  // ==================================================================== book

  /** Every tool starts with `get_calcom_client()` inside its `try`: a client
      that cannot be built becomes the tool's error reply, and otherwise the
      tool answers as the rest of this module says. */
  function WithClient(client: Result<map<string, string>>, tool: Tool, reply: Reply): Reply
  {
    if client.Failure? then Raised(tool) else reply
  }

  /** As written, the client constructor always raises, so every tool gives
      its error reply whatever the service holds. */
  lemma ToolsAsWrittenRaise(apiKey: Option<string>, settingsKey: string, value: string, tool: Tool, reply: Reply)
    ensures WithClient(SessionHeaders(apiKey, settingsKey, VersionSetting(value)), tool, reply) == Raised(tool)
  {
    ClientNeverBuilt(apiKey, settingsKey, value);
  }

  /** With the version setting declared, a configured key builds the client
      and the tool's own reply stands. */
  lemma ToolsWithVersionAnswer(settingsKey: string, version: string, tool: Tool, reply: Reply)
    requires settingsKey != ""
    ensures WithClient(SessionHeaders(None, settingsKey, Some(version)), tool, reply) == reply
  {
  }

  /** The first event type at or after `from` lasting `duration` minutes. */
  function FirstOfLength(types: seq<EventType>, duration: int, from: nat): (r: Option<nat>)
    requires from <= |types|
    ensures r.Some? ==> (from <= r.value < |types| && types[r.value].length == duration
      && forall j :: from <= j < r.value ==> types[j].length != duration)
    ensures r.None? ==> forall j :: from <= j < |types| ==> types[j].length != duration
    decreases |types| - from
  {
    if from == |types| then None
    else if types[from].length == duration then Some(from)
    else FirstOfLength(types, duration, from + 1)
  }

  /** The event type the book tool uses: the first of the right length,
      otherwise the first. */
  function PreferredEventType(types: seq<EventType>, duration: int): EventType
    requires |types| > 0
  {
    var k := FirstOfLength(types, duration, 0);
    if k.Some? then types[k.value] else types[0]
  }

  /** The loop that picks the event type. */
  method ChooseEventType(types: seq<EventType>, duration: int) returns (chosen: EventType)
    requires |types| > 0
    ensures chosen == PreferredEventType(types, duration)
    ensures chosen in types
    ensures chosen.length == duration <==> exists i :: 0 <= i < |types| && types[i].length == duration
  {
    chosen := types[0];
    var i := 0;
    while i < |types|
      invariant 0 <= i <= |types|
      invariant FirstOfLength(types, duration, 0) == FirstOfLength(types, duration, i)
      invariant chosen == types[0]
    {
      if types[i].length == duration {
        chosen := types[i];
        return;
      }
      i := i + 1;
    }
  }

  /** `any(slot.time.startswith(t.strftime("%Y-%m-%dT%H:%M")) for slot in slots)` */
  predicate SlotAvailable(slots: seq<AvailableSlot>, t: DateTime)
    requires Valid(t)
  {
    exists i :: 0 <= i < |slots| && StartsWith(slots[i].time, MinutePrefix(t))
  }

  /** A slot the service writes as `isoformat()` plus "Z" matches the
      requested time exactly when both fall in the same minute of the same day. */
  lemma SlotMatchIsSameMinute(slot: DateTime, t: DateTime)
    requires Valid(slot) && Valid(t)
    ensures StartsWith(IsoFormat(slot) + "Z", MinutePrefix(t)) <==>
      (DateOf(slot) == DateOf(t) && slot.hour == t.hour && slot.minute == t.minute)
  {
    var s := IsoFormat(slot) + "Z";
    var p := MinutePrefix(t);
    assert |MinutePrefix(slot)| == 16 == |p|;
    assert s[..16] == MinutePrefix(slot);
    MinutePrefixSame(slot, t);
  }

  /** `slots[:3]` */
  function FirstThree(slots: seq<AvailableSlot>): (r: seq<AvailableSlot>)
    ensures |r| <= 3 && r <= slots
    ensures |slots| <= 3 ==> r == slots
  {
    if |slots| <= 3 then slots else slots[..3]
  }

  /** The `%H:%M` of each slot's time; `None` where one does not parse. */
  function SlotClocks(slots: seq<AvailableSlot>): (r: Option<seq<string>>)
    ensures r.Some? <==> forall i :: 0 <= i < |slots| ==> ParseApiTime(slots[i].time).Some?
    ensures r.Some? ==> (|r.value| == |slots|
      && forall i :: 0 <= i < |slots| ==> r.value[i] == ClockText(ParseApiTime(slots[i].time).value))
  {
    if slots == [] then Some([])
    else
      var t := ParseApiTime(slots[0].time);
      var rest := SlotClocks(slots[1..]);
      if t.None? || rest.None? then None
      else Some([ClockText(t.value)] + rest.value)
  }

  /** The request the book tool sends. */
  function MeetingRequest(eventTypeId: int, start: DateTime, end: DateTime, title: string,
                          description: string, name: string, email: string): BookingRequest
    requires Valid(start) && Valid(end)
  {
    BookingRequest(eventTypeId, IsoFormat(start), [("email", JStr(email)), ("name", JStr(name))],
      None, Some(IsoFormat(end)), None, None, None, None, None, None, None, None, None, None,
      Some(title), Some(description))
  }

  /** The slot query (event type id, date) the tool made, and the booking it requested. */
  datatype BookOutcome = BookOutcome(reply: Reply, slotQuery: Option<(int, string)>, request: Option<BookingRequest>)


  /** The date and time parse, and the end `duration` minutes later is representable. */
  predicate BookAtApplies(date: string, time: string, duration: int)
  {
    var start := ParseDateAndTime(date, time);
    start.Some? && AddSeconds(start.value, duration * 60).Some?
  }

  /** `book_meeting`. */
  method BookMeeting(date: string, time: string, duration: int, title: string, description: string,
                     name: string, email: string, eventTypes: Result<seq<EventType>>,
                     slots: Result<seq<AvailableSlot>>, created: Result<Booking>)
    returns (o: BookOutcome)
    ensures WellFormed(o.reply)
    // the booking is requested exactly when the time parses, the end is representable,
    // there is an event type, and the requested minute is free or no slot was offered
    ensures o.request.Some? <==>
      (ParseDateAndTime(date, time).Some?
       && AddSeconds(ParseDateAndTime(date, time).value, duration * 60).Some?
       && eventTypes.Success? && |eventTypes.value| > 0 && slots.Success?
       && (slots.value == [] || SlotAvailable(slots.value, ParseDateAndTime(date, time).value)))
    // the request: the preferred event type, start as given, end `duration` minutes later
    ensures o.request.Some? ==>
      var start := ParseDateAndTime(date, time).value;
      var end := AddSeconds(start, duration * 60).value;
      Seconds(end) == Seconds(start) + 60 * duration
      && o.request.value == MeetingRequest(PreferredEventType(eventTypes.value, duration).id,
                                           start, end, title, description, name, email)
    // slots are asked for on the requested date, for the preferred event type
    ensures o.slotQuery.Some? ==> (eventTypes.Success? && |eventTypes.value| > 0
      && o.slotQuery.value == (PreferredEventType(eventTypes.value, duration).id, date))
    // a time that does not parse, or an end past the last representable date-time, raises
    ensures ParseDateAndTime(date, time).None? ==> o == BookOutcome(Raised(BookTool), None, None)
    ensures ParseDateAndTime(date, time).Some? && AddSeconds(ParseDateAndTime(date, time).value, duration * 60).None?
      ==> o == BookOutcome(Raised(BookTool), None, None)
    ensures BookAtApplies(date, time, duration) ==>
      var start := ParseDateAndTime(date, time).value;
      // slots are asked for exactly when there is an event type
      && (o.slotQuery.Some? <==> eventTypes.Success? && |eventTypes.value| > 0)
      && (eventTypes.Failure? ==> o == BookOutcome(Raised(BookTool), None, None))
      && (eventTypes == Success([]) ==> o == BookOutcome(NoEventTypes, None, None))
      && (eventTypes.Success? && |eventTypes.value| > 0 && slots.Failure? ==>
            o.request.None? && o.reply == Raised(BookTool))
      // taken: the times of at most three offered slots, or an error when one does not parse
      && (eventTypes.Success? && |eventTypes.value| > 0 && slots.Success? && slots.value != []
          && !SlotAvailable(slots.value, start) ==>
            var offered := FirstThree(slots.value);
            o.request.None?
            && o.reply == (if SlotClocks(offered).Some? then Unavailable(time, date, SlotClocks(offered).value)
                           else Raised(BookTool)))
    ensures o.request.Some? ==>
      o.reply == (if created.Success? then Booked(created.value, ParseDateAndTime(date, time).value, duration, name, email)
                  else Raised(BookTool))
  {
    var parsed := ParseDateAndTime(date, time);
    if parsed.None? {
      return BookOutcome(Raised(BookTool), None, None);
    }
    var finish := AddSeconds(parsed.value, duration * 60);
    if finish.None? {
      return BookOutcome(Raised(BookTool), None, None);
    }
    o := BookAt(date, time, parsed.value, finish.value, duration, title, description, name, email,
                eventTypes, slots, created);
  }

  /** `book_meeting` once the start and end are known. */
  method BookAt(date: string, time: string, start: DateTime, end: DateTime, duration: int,
                title: string, description: string, name: string, email: string,
                eventTypes: Result<seq<EventType>>, slots: Result<seq<AvailableSlot>>, created: Result<Booking>)
    returns (o: BookOutcome)
    requires Valid(start) && Valid(end)
    ensures WellFormed(o.reply)
    ensures o.request.Some? <==>
      (eventTypes.Success? && |eventTypes.value| > 0 && slots.Success?
       && (slots.value == [] || SlotAvailable(slots.value, start)))
    ensures o.request.Some? ==>
      o.request.value == MeetingRequest(PreferredEventType(eventTypes.value, duration).id,
                                        start, end, title, description, name, email)
    ensures o.slotQuery.Some? ==> (eventTypes.Success? && |eventTypes.value| > 0
      && o.slotQuery.value == (PreferredEventType(eventTypes.value, duration).id, date))
    ensures o.slotQuery.Some? <==> eventTypes.Success? && |eventTypes.value| > 0
    ensures eventTypes.Failure? ==> o == BookOutcome(Raised(BookTool), None, None)
    ensures eventTypes == Success([]) ==> o == BookOutcome(NoEventTypes, None, None)
    ensures eventTypes.Success? && |eventTypes.value| > 0 && slots.Failure? ==>
      o.request.None? && o.reply == Raised(BookTool)
    ensures (eventTypes.Success? && |eventTypes.value| > 0 && slots.Success? && slots.value != []
             && !SlotAvailable(slots.value, start)) ==>
      var offered := FirstThree(slots.value);
      o.request.None?
      && o.reply == (if SlotClocks(offered).Some? then Unavailable(time, date, SlotClocks(offered).value)
                     else Raised(BookTool))
    ensures o.request.Some? ==>
      o.reply == (if created.Success? then Booked(created.value, start, duration, name, email)
                  else Raised(BookTool))
  {
    if eventTypes.Failure? {
      return BookOutcome(Raised(BookTool), None, None);
    }
    if |eventTypes.value| == 0 {
      return BookOutcome(NoEventTypes, None, None);
    }
    var eventType := ChooseEventType(eventTypes.value, duration);
    var query := Some((eventType.id, date));
    if slots.Failure? {
      return BookOutcome(Raised(BookTool), query, None);
    }
    if !SlotAvailable(slots.value, start) && slots.value != [] {
      var clocks := SlotClocks(FirstThree(slots.value));
      if clocks.None? {
        return BookOutcome(Raised(BookTool), query, None);
      }
      return BookOutcome(Unavailable(time, date, clocks.value), query, None);
    }
    var request := MeetingRequest(eventType.id, start, end, title, description, name, email);
    if created.Failure? {
      return BookOutcome(Raised(BookTool), query, Some(request));
    }
    o := BookOutcome(Booked(created.value, start, duration, name, email), query, Some(request));
  }

  // ==================================================================== list

  /** `user_email or settings.user_email`: the address the list tool asks for. */
  function ListEmail(userEmail: Option<string>, configured: Option<string>): (r: Option<string>)
    ensures userEmail.Some? && userEmail.value != "" ==> r == userEmail
    ensures (userEmail.None? || userEmail.value == "") ==> r == configured
  {
    if userEmail.Some? && userEmail.value != "" then userEmail else configured
  }

  /** `list_bookings`: the bookings of `asked` sorted by start, then each one's entry
      appended to the header, and trailing whitespace removed. */
  method ListBookings(userEmail: Option<string>, configured: Option<string>, bookings: Result<seq<Booking>>)
    returns (asked: Option<string>, reply: Reply)
    ensures asked == ListEmail(userEmail, configured)
    ensures bookings.Failure? ==> reply == Raised(ListTool)
    ensures bookings == Success([]) ==> reply == NoMeetings
    ensures bookings.Success? && bookings.value != [] ==>
      reply == Meetings(MeetingsText(SortByStart(bookings.value)))
  {
    asked := ListEmail(userEmail, configured);
    if bookings.Failure? {
      return asked, Raised(ListTool);
    }
    var bs := bookings.value;
    if bs == [] {
      return asked, NoMeetings;
    }
    var a := new Booking[|bs|](k requires 0 <= k < |bs| => bs[k]);
    assert a[..] == bs;
    SortBookings(a);
    var text := AppendEntries(ListHeader, EntryTexts(a[..]));
    reply := Meetings(RStrip(text));
  }

  /** The loop that appends each booking's entry to the text. */
  method AppendEntries(header: string, entries: seq<string>) returns (text: string)
    ensures text == header + Concat(entries)
  {
    text := header;
    var i := 0;
    while i < |entries|
      invariant 0 <= i <= |entries|
      invariant text == header + Concat(entries[..i])
    {
      ConcatSnoc(entries[..i], entries[i]);
      assert entries[..i + 1] == entries[..i] + [entries[i]];
      text := text + entries[i];
      i := i + 1;
    }
    assert entries[..i] == entries;
  }

  /** Every booking the service returned is named in the list, by title and id. */
  lemma ListNamesEveryBooking(bs: seq<Booking>, k: nat)
    requires k < |bs|
    ensures Contains(MeetingsText(SortByStart(bs)), Marker(bs[k]))
  {
    var j := SortedPosition(bs, k);
    MarkerInMeetingsText(SortByStart(bs), j);
  }

  // ================================================================== cancel

  /** The reply, and the booking id and reason the service was asked to cancel with. */
  datatype CancelOutcome = CancelOutcome(reply: Reply, cancelCall: Option<(int, Option<string>)>)

  /** `cancel_booking`. */
  method CancelBooking(identifier: string, reason: Option<string>, today: Date,
                       bookings: Result<seq<Booking>>, cancelled: Result<bool>)
    returns (o: CancelOutcome)
    requires ValidDate(today)
    ensures WellFormed(o.reply)
    ensures bookings.Failure? ==> o == CancelOutcome(Raised(CancelTool), None)
    ensures bookings == Success([]) ==> o == CancelOutcome(NothingToCancel, None)
    // the service is asked to cancel exactly when a booking was picked, and only that one
    ensures o.cancelCall.Some? <==>
      (bookings.Success? && bookings.value != [] && CancelTarget(bookings.value, identifier, today).Some?)
    ensures o.cancelCall.Some? ==>
      o.cancelCall.value == (bookings.value[CancelTarget(bookings.value, identifier, today).value].id, reason)
    // nothing picked: every booking is listed with its start, unless a start does not parse
    ensures bookings.Success? && bookings.value != [] && CancelTarget(bookings.value, identifier, today).None? ==>
      o.reply == (if StartLines(bookings.value).Some? then NotFound(identifier, StartLines(bookings.value).value)
                  else Raised(CancelTool))
    ensures o.cancelCall.Some? ==>
      var b := bookings.value[CancelTarget(bookings.value, identifier, today).value];
      o.reply == CancelReply(b, reason, cancelled)
  {
    if bookings.Failure? {
      return CancelOutcome(Raised(CancelTool), None);
    }
    var bs := bookings.value;
    if bs == [] {
      return CancelOutcome(NothingToCancel, None);
    }
    var found := FindCancelTarget(bs, identifier, today);
    if found.None? {
      var lines := StartLines(bs);
      if lines.None? {
        return CancelOutcome(Raised(CancelTool), None);
      }
      return CancelOutcome(NotFound(identifier, lines.value), None);
    }
    var b := bs[found.value];
    o := CancelOutcome(CancelReply(b, reason, cancelled), Some((b.id, reason)));
  }

  /** What the cancel tool answers once the service has replied about `b`. */
  function CancelReply(b: Booking, reason: Option<string>, cancelled: Result<bool>): (r: Reply)
    ensures WellFormed(r)
    ensures cancelled.Failure? ==> r == Raised(CancelTool)
    ensures cancelled == Success(false) ==> r == CancelFailed(b.id)
    ensures cancelled == Success(true) && ParseApiTime(b.startTime).Some? ==>
      r == Canceled(b, ParseApiTime(b.startTime).value, reason)
    ensures r.Canceled? <==> cancelled == Success(true) && ParseApiTime(b.startTime).Some?
  {
    if cancelled.Failure? then Raised(CancelTool)
    else if !cancelled.value then CancelFailed(b.id)
    else
      var start := ParseApiTime(b.startTime);
      if start.None? then Raised(CancelTool) else Canceled(b, start.value, reason)
  }

  // ============================================================== reschedule

  /** The reply, and the booking id, new start and new end the service was
      asked to move the booking to (sent as their `isoformat()` text, which
      `TimeText.IsoRoundTrip` reads back unchanged). */
  datatype RescheduleOutcome = RescheduleOutcome(reply: Reply, call: Option<(int, DateTime, DateTime)>)

  /** `reschedule_booking`. */
  method RescheduleBooking(identifier: string, newDate: string, newTime: string,
                           bookings: Result<seq<Booking>>, updated: Result<Option<Booking>>)
    returns (o: RescheduleOutcome)
    ensures WellFormed(o.reply)
    ensures bookings.Failure? ==> o == RescheduleOutcome(Raised(RescheduleTool), None)
    ensures bookings == Success([]) ==> o == RescheduleOutcome(NothingToReschedule, None)
    ensures bookings.Success? && bookings.value != [] && RescheduleTarget(bookings.value, identifier).None? ==>
      o == RescheduleOutcome(NotFound(identifier, IdLines(bookings.value)), None)
    ensures bookings.Success? && bookings.value != [] && RescheduleTarget(bookings.value, identifier).Some? ==>
      o == MoveBooking(bookings.value[RescheduleTarget(bookings.value, identifier).value], newDate, newTime, updated)
    // a new date and time, or a start or end of the picked booking, that does not parse raises before any call
    ensures bookings.Success? && bookings.value != [] && RescheduleTarget(bookings.value, identifier).Some? ==>
      var b := bookings.value[RescheduleTarget(bookings.value, identifier).value];
      (ParseDateAndTime(newDate, newTime).None? || ParseApiTime(b.startTime).None? || ParseApiTime(b.endTime).None?)
      ==> o == RescheduleOutcome(Raised(RescheduleTool), None)
  {
    if bookings.Failure? {
      return RescheduleOutcome(Raised(RescheduleTool), None);
    }
    var bs := bookings.value;
    if bs == [] {
      return RescheduleOutcome(NothingToReschedule, None);
    }
    var found := FindRescheduleTarget(bs, identifier);
    if found.None? {
      return RescheduleOutcome(NotFound(identifier, IdLines(bs)), None);
    }
    o := MoveBooking(bs[found.value], newDate, newTime, updated);
  }

  /** Moving the picked booking `b`: the new start is read from the date and
      time given, and the end from the booking's own start and end; a text
      that does not parse raises. */
  function MoveBooking(b: Booking, newDate: string, newTime: string, updated: Result<Option<Booking>>)
    : (o: RescheduleOutcome)
    ensures WellFormed(o.reply)
    ensures o.call.None? ==> o.reply == Raised(RescheduleTool)
    ensures var moved, os, oe := ParseDateAndTime(newDate, newTime), ParseApiTime(b.startTime), ParseApiTime(b.endTime);
      if moved.Some? && os.Some? && oe.Some? then o == MoveTo(b, os.value, oe.value, moved.value, updated)
      else o.call.None?
  {
    var moved := ParseDateAndTime(newDate, newTime);
    var os := ParseApiTime(b.startTime);
    var oe := ParseApiTime(b.endTime);
    if moved.None? || os.None? || oe.None? then RescheduleOutcome(Raised(RescheduleTool), None)
    else MoveTo(b, os.value, oe.value, moved.value, updated)
  }

  /** The booking that ran from `os` to `oe` moved to start at `moved`: the
      new end keeps its length, and an end past the last representable
      date-time raises. */
  function MoveTo(b: Booking, os: DateTime, oe: DateTime, moved: DateTime, updated: Result<Option<Booking>>)
    : (o: RescheduleOutcome)
    requires Valid(os) && Valid(oe) && Valid(moved)
    ensures WellFormed(o.reply)
    ensures o.call.Some? <==> 0 <= Seconds(moved) + Difference(os, oe) < MaxSeconds()
    ensures o.call.None? ==> o.reply == Raised(RescheduleTool)
    // the new start is the one asked for, and the booking keeps its length
    ensures o.call.Some? ==>
      var (id, start, end) := o.call.value;
      id == b.id && start == moved && Valid(end) && Difference(start, end) == Difference(os, oe)
      && o.reply == (if updated.Success? && updated.value.Some? then
                       Rescheduled(os, moved, updated.value.value, WholeMinutes(Difference(os, oe)))
                     else Raised(RescheduleTool))
  {
    var length := Difference(os, oe);
    var newEnd := AddSeconds(moved, length);
    if newEnd.None? then RescheduleOutcome(Raised(RescheduleTool), None)
    else
      var call := Some((b.id, moved, newEnd.value));
      if updated.Failure? || updated.value.None? then RescheduleOutcome(Raised(RescheduleTool), call)
      else RescheduleOutcome(Rescheduled(os, moved, updated.value.value, WholeMinutes(length)), call)
  }
}
