/** What the calendar tools answer, as structured values, and the exact text
    each answer is shown as. */
module Replies {
  import opened Wrappers
  import opened Strings
  import opened Json
  import opened Civil
  import opened TimeText
  import opened Calcom

  datatype Tool = BookTool | ListTool | CancelTool | RescheduleTool

  datatype Reply =
    | Raised(tool: Tool)                        // an exception, shown as "Error ...: <message>"
    | NoEventTypes
    | Unavailable(time: string, date: string, clocks: seq<string>)
    | Booked(booking: Booking, start: DateTime, duration: int, name: string, email: string)
    | NoMeetings
    | Meetings(text: string)                    // the rendered booking list
    | NothingToCancel
    | NothingToReschedule
    | NotFound(identifier: string, lines: seq<string>)
    | Canceled(booking: Booking, start: DateTime, reason: Option<string>)
    | CancelFailed(id: int)
    | Rescheduled(originalStart: DateTime, newStart: DateTime, updated: Booking, minutes: int)

  /** The date-times a reply shows are real ones. */
  predicate WellFormed(r: Reply)
  {
    match r
    case Booked(_, start, _, _, _) => Valid(start)
    case Canceled(_, start, _) => Valid(start)
    case Rescheduled(a, b, _, _) => Valid(a) && Valid(b)
    case _ => true
  }

  /** The start of an error reply; the exception's message follows it. */
  function ErrorPrefix(tool: Tool): string
  {
    match tool
    case BookTool => "Error booking meeting: "
    case ListTool => "Error retrieving bookings: "
    case CancelTool => "Error canceling booking: "
    case RescheduleTool => "Error rescheduling booking: "
  }

  /** `str(x)` for the JSON values an attendee record holds; lists and
      objects are shown as "[...]" and "{...}". */
  function PyStr(v: Json): string
  {
    match v
    case JNull => "None"
    case JBool(b) => if b then "True" else "False"
    case JNum(n) => IntToString(n)
    case JStr(s) => s
    case JArr(_) => "[...]"
    case JObj(_) => "{...}"
  }

  /** `str(x)` for an optional string. */
  function OptText(v: Option<string>): string { if v.Some? then v.value else "None" }

  /** The text of a reply (for `Raised`, the part before the exception's message). */
  function Text(r: Reply): string
    requires WellFormed(r)
  {
    match r
    case Raised(tool) => ErrorPrefix(tool)
    case NoEventTypes => "Error: No event types available. Please set up your Cal.com account first."
    case Unavailable(time, date, clocks) =>
      "The requested time " + time + " is not available on " + date + ". Available times: " + Join(", ", clocks)
    case Booked(b, start, duration, name, email) =>
      "Meeting successfully booked! \n\n**Meeting Details:**\n- **Title:** " + b.title
      + "\n- **Date & Time:** " + LongText(start)
      + "\n- **Duration:** " + IntToString(duration) + " minutes"
      + "\n- **Attendee:** " + name + " (" + email + ")"
      + "\n- **Booking ID:** " + IntToString(b.id)
      + "\n\nThe meeting has been confirmed and calendar invites will be sent to all attendees."
    case NoMeetings => "No scheduled meetings found."
    case Meetings(text) => text
    case NothingToCancel => "No bookings found to cancel."
    case NothingToReschedule => "No bookings found to reschedule."
    case NotFound(identifier, lines) =>
      "Could not find a booking matching '" + identifier + "'. Available bookings:\n" + Join("\n", lines)
    case Canceled(b, start, reason) =>
      "**Meeting Canceled Successfully**\n\n**Canceled Meeting:**\n- **Title:** " + b.title
      + "\n- **Date & Time:** " + LongText(start)
      + "\n- **Booking ID:** " + IntToString(b.id)
      + "\n- **Reason:** " + OptText(reason)
      + "\n\nAll attendees will be notified of the cancellation."
    case CancelFailed(id) =>
      "Failed to cancel booking " + IntToString(id) + ". Please try again or contact support."
    case Rescheduled(original, moved, u, minutes) =>
      "**Meeting Rescheduled Successfully**\n\n**Original Time:** " + LongText(original)
      + "\n**New Time:** " + LongText(moved)
      + "\n\n**Meeting Details:**\n- **Title:** " + u.title
      + "\n- **Duration:** " + IntToString(minutes) + " minutes"
      + "\n- **Booking ID:** " + IntToString(u.id)
      + "\n\nAll attendees will be notified of the schedule change."
  }

  // ------------------------------------------------------------ booking list

  /** How a booking is introduced in the list: "**title** (ID: id)". */
  function Marker(b: Booking): string
  {
    "**" + b.title + "** (ID: " + IntToString(b.id) + ")"
  }

  function AttendeeText(a: Object): string
  {
    PyStr(GetOr(a, "name", JStr("Unknown"))) + " (" + PyStr(GetOr(a, "email", JStr("No email"))) + ")"
  }

  function AttendeeTexts(atts: seq<Object>): (r: seq<string>)
    ensures |r| == |atts| && forall i :: 0 <= i < |atts| ==> r[i] == AttendeeText(atts[i])
  {
    if atts == [] then [] else [AttendeeText(atts[0])] + AttendeeTexts(atts[1..])
  }

  /** `booking.description or 'No description'` */
  function DescriptionText(d: Option<string>): string
  {
    if d.Some? && d.value != "" then d.value else "No description"
  }

  /** The details shown after a booking's marker; `None` when its start or
      end does not parse. */
  function Details(b: Booking): Option<string>
  {
    var start := ParseApiTime(b.startTime);
    var end := ParseApiTime(b.endTime);
    if start.None? || end.None? then None
    else
      Some("\n- **Date & Time:** " + LongText(start.value) + " - " + Clock12Text(end.value)
        + "\n- **Status:** " + Title(b.status)
        + "\n- **Attendees:** " + Join(", ", AttendeeTexts(b.attendees))
        + "\n- **Description:** " + DescriptionText(b.description))
  }

  /** One booking's part of the list; a start or end that does not parse
      gives the short error line instead. */
  function Entry(b: Booking): string
  {
    EntryOf(Marker(b), Details(b))
  }

  function EntryOf(marker: string, details: Option<string>): string
  {
    if details.None? then marker + " - Error parsing time details\n\n"
    else RStrip(marker + details.value) + "\n\n"
  }

  /** The entries of `bs`, in order. */
  function EntryTexts(bs: seq<Booking>): (r: seq<string>)
    ensures |r| == |bs| && forall i :: 0 <= i < |bs| ==> r[i] == Entry(bs[i])
  {
    if bs == [] then [] else [Entry(bs[0])] + EntryTexts(bs[1..])
  }

  const ListHeader := "**Your Scheduled Meetings:**\n\n"

  /** The list text: the header and every entry, trailing whitespace removed. */
  function MeetingsText(bs: seq<Booking>): string
  {
    RStrip(ListHeader + Concat(EntryTexts(bs)))
  }

  /** A marker ends in ")". */
  lemma MarkerEnds(b: Booking)
    ensures |Marker(b)| > 0 && Marker(b)[|Marker(b)| - 1] == ')'
  {
  }

  /** An entry begins with the marker it was given when that ends in a
      non-space character. */
  lemma EntryOfStartsWith(marker: string, details: Option<string>)
    requires |marker| > 0 && !IsSpace(marker[|marker| - 1])
    ensures StartsWith(EntryOf(marker, details), marker)
  {
    if details.Some? {
      var body := marker + details.value;
      RStripKeeps(body, |marker| - 1);
      assert body[..|marker|] == marker;
    }
  }

  /** Every entry, parsed or not, begins with its booking's marker. */
  lemma EntryStartsWithMarker(b: Booking)
    ensures StartsWith(Entry(b), Marker(b))
  {
    MarkerEnds(b);
    EntryOfStartsWith(Marker(b), Details(b));
  }

  /** The list text names every booking it lists, by title and id. */
  lemma MarkerInMeetingsText(bs: seq<Booking>, j: nat)
    requires j < |bs|
    ensures Contains(MeetingsText(bs), Marker(bs[j]))
  {
    var m := Marker(bs[j]);
    var entries := EntryTexts(bs);
    EntryStartsWithMarker(bs[j]);
    var i := ConcatOccurs(entries, j, m);
    OccursShift(ListHeader, Concat(entries), m, i);
    MarkerEnds(bs[j]);
    OccursRStrip(ListHeader + Concat(entries), m, |ListHeader| + i);
    ContainsAt(MeetingsText(bs), m);
  }

  // ------------------------------------------------------ not-found listings

  /** The cancel tool's listing: "- title (ID: id) - <start>" per booking;
      `None` when a start does not parse. */
  function StartLines(bs: seq<Booking>): (r: Option<seq<string>>)
    ensures r.Some? <==> forall i :: 0 <= i < |bs| ==> ParseApiTime(bs[i].startTime).Some?
    ensures r.Some? ==> |r.value| == |bs|
  {
    if bs == [] then Some([])
    else
      var t := ParseApiTime(bs[0].startTime);
      var rest := StartLines(bs[1..]);
      if t.None? || rest.None? then None
      else Some(["- " + bs[0].title + " (ID: " + IntToString(bs[0].id) + ") - " + ShortText(t.value)] + rest.value)
  }

  /** The reschedule tool's listing: "- title (ID: id)" per booking. */
  function IdLines(bs: seq<Booking>): (r: seq<string>)
    ensures |r| == |bs|
    ensures forall i :: 0 <= i < |bs| ==> r[i] == "- " + bs[i].title + " (ID: " + IntToString(bs[i].id) + ")"
  {
    if bs == [] then [] else ["- " + bs[0].title + " (ID: " + IntToString(bs[0].id) + ")"] + IdLines(bs[1..])
  }
}
