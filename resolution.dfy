/** Booking-identifier resolution, shared by the cancel and reschedule tools:
    a free-form identifier picks one booking from the list the service
    returned. Results are indices into that list. */
module Resolution {
  import opened Strings
  import opened Wrappers
  import opened Civil
  import opened TimeText
  import opened Calcom

  /** The lower-cased identifier occurs in the lower-cased title. */
  predicate TitleMatch(b: Booking, idLower: string)
  {
    Contains(Lower(b.title), idLower)
  }

  /** The time heuristics of the cancel tool, on a booking whose start parses:
      its `%I%p` token or its `%Y-%m-%d` date occurs in the identifier, or the
      identifier says "today" or "tomorrow" and the booking is on that day. */
  predicate TimeMatch(b: Booking, idLower: string, today: Date)
    requires ValidDate(today)
  {
    var start := ParseApiTime(b.startTime);
    start.Some? &&
    (Contains(idLower, HourToken(start.value))
     || Contains(idLower, DateText(DateOf(start.value)))
     || (Contains(idLower, "today") && DateOf(start.value) == today)
     || (Contains(idLower, "tomorrow") && NextDay(today) == Some(DateOf(start.value))))
  }

  /** A booking the cancel tool's scan accepts. */
  predicate CancelMatch(b: Booking, idLower: string, today: Date)
    requires ValidDate(today)
  {
    TitleMatch(b, idLower) || TimeMatch(b, idLower, today)
  }

  /** The first booking at or after `from` with the given id. */
  function FirstWithId(bookings: seq<Booking>, id: int, from: nat): (r: Option<nat>)
    requires from <= |bookings|
    ensures r.Some? ==> (from <= r.value < |bookings| && bookings[r.value].id == id
      && forall j :: from <= j < r.value ==> bookings[j].id != id)
    ensures r.None? ==> forall j :: from <= j < |bookings| ==> bookings[j].id != id
    decreases |bookings| - from
  {
    if from == |bookings| then None
    else if bookings[from].id == id then Some(from)
    else FirstWithId(bookings, id, from + 1)
  }

  /** The first booking at or after `from` the cancel scan accepts. */
  function FirstCancelMatch(bookings: seq<Booking>, idLower: string, today: Date, from: nat): (r: Option<nat>)
    requires ValidDate(today) && from <= |bookings|
    ensures r.Some? ==> (from <= r.value < |bookings| && CancelMatch(bookings[r.value], idLower, today)
      && forall j :: from <= j < r.value ==> !CancelMatch(bookings[j], idLower, today))
    ensures r.None? ==> forall j :: from <= j < |bookings| ==> !CancelMatch(bookings[j], idLower, today)
    decreases |bookings| - from
  {
    if from == |bookings| then None
    else if CancelMatch(bookings[from], idLower, today) then Some(from)
    else FirstCancelMatch(bookings, idLower, today, from + 1)
  }

  /** The first booking at or after `from` whose title matches. */
  function FirstTitleMatch(bookings: seq<Booking>, idLower: string, from: nat): (r: Option<nat>)
    requires from <= |bookings|
    ensures r.Some? ==> (from <= r.value < |bookings| && TitleMatch(bookings[r.value], idLower)
      && forall j :: from <= j < r.value ==> !TitleMatch(bookings[j], idLower))
    ensures r.None? ==> forall j :: from <= j < |bookings| ==> !TitleMatch(bookings[j], idLower)
    decreases |bookings| - from
  {
    if from == |bookings| then None
    else if TitleMatch(bookings[from], idLower) then Some(from)
    else FirstTitleMatch(bookings, idLower, from + 1)
  }

  /** The id lookup both tools try first: only for an all-digit identifier. */
  function IdLookup(bookings: seq<Booking>, identifier: string): Option<nat>
  {
    if IsAllDigits(identifier) then FirstWithId(bookings, DigitsValue(identifier), 0) else None
  }

  /** The booking the cancel tool picks. */
  function CancelTarget(bookings: seq<Booking>, identifier: string, today: Date): Option<nat>
    requires ValidDate(today)
  {
    var byId := IdLookup(bookings, identifier);
    if byId.Some? then byId else FirstCancelMatch(bookings, Lower(identifier), today, 0)
  }

  /** The booking the reschedule tool picks: by id, then by title only. */
  function RescheduleTarget(bookings: seq<Booking>, identifier: string): Option<nat>
  {
    var byId := IdLookup(bookings, identifier);
    if byId.Some? then byId else FirstTitleMatch(bookings, Lower(identifier), 0)
  }

  /** The cancel tool's search loop: the id lookup, then a scan that stops
      at the first accepted booking. */
  method FindCancelTarget(bookings: seq<Booking>, identifier: string, today: Date) returns (found: Option<nat>)
    requires ValidDate(today)
    ensures found == CancelTarget(bookings, identifier, today)
  {
    found := None;
    if IsAllDigits(identifier) {
      found := FirstWithId(bookings, DigitsValue(identifier), 0);
    }
    if found.None? {
      var idLower := Lower(identifier);
      var i := 0;
      while i < |bookings|
        invariant 0 <= i <= |bookings|
        invariant found.None? ==> FirstCancelMatch(bookings, idLower, today, 0) == FirstCancelMatch(bookings, idLower, today, i)
        invariant found.Some? ==> found == FirstCancelMatch(bookings, idLower, today, 0)
        invariant IdLookup(bookings, identifier).None?
      {
        var b := bookings[i];
        if TitleMatch(b, idLower) {
          found := Some(i);
          break;
        }
        var start := ParseApiTime(b.startTime);
        if start.None? {
          i := i + 1;
          continue;
        }
        var t := start.value;
        if Contains(idLower, HourToken(t)) || Contains(idLower, DateText(DateOf(t))) {
          found := Some(i);
          break;
        }
        if Contains(idLower, "today") && DateOf(t) == today {
          found := Some(i);
          break;
        } else if Contains(idLower, "tomorrow") && NextDay(today) == Some(DateOf(t)) {
          found := Some(i);
          break;
        }
        i := i + 1;
      }
    }
  }

  /** The reschedule tool's search loop: the id lookup, then the first title match. */
  method FindRescheduleTarget(bookings: seq<Booking>, identifier: string) returns (found: Option<nat>)
    ensures found == RescheduleTarget(bookings, identifier)
  {
    found := None;
    if IsAllDigits(identifier) {
      found := FirstWithId(bookings, DigitsValue(identifier), 0);
    }
    if found.None? {
      var idLower := Lower(identifier);
      var i := 0;
      while i < |bookings|
        invariant 0 <= i <= |bookings|
        invariant found.None? ==> FirstTitleMatch(bookings, idLower, 0) == FirstTitleMatch(bookings, idLower, i)
        invariant found.Some? ==> found == FirstTitleMatch(bookings, idLower, 0)
        invariant IdLookup(bookings, identifier).None?
      {
        if TitleMatch(bookings[i], idLower) {
          found := Some(i);
          break;
        }
        i := i + 1;
      }
    }
  }

  // ------------------------------------------------------------ properties

  /** An all-digit identifier naming some booking's id picks the first booking
      with that id, whatever the titles and times of the others say. */
  lemma IdTakesPrecedence(bookings: seq<Booking>, identifier: string, today: Date, k: nat)
    requires ValidDate(today) && IsAllDigits(identifier)
    requires k < |bookings| && bookings[k].id == DigitsValue(identifier)
    requires forall j :: 0 <= j < k ==> bookings[j].id != DigitsValue(identifier)
    ensures CancelTarget(bookings, identifier, today) == Some(k)
    ensures RescheduleTarget(bookings, identifier) == Some(k)
  {
    var r := FirstWithId(bookings, DigitsValue(identifier), 0);
    assert r.Some?;
    if r.value != k {
      assert false;
    }
  }

  /** Without an id match, the cancel tool picks booking `k` exactly when `k`
      is the first booking its scan accepts. */
  lemma CancelPicksFirstMatch(bookings: seq<Booking>, identifier: string, today: Date, k: nat)
    requires ValidDate(today) && IdLookup(bookings, identifier).None? && k < |bookings|
    ensures CancelTarget(bookings, identifier, today) == Some(k) <==>
      (CancelMatch(bookings[k], Lower(identifier), today)
       && forall j :: 0 <= j < k ==> !CancelMatch(bookings[j], Lower(identifier), today))
  {
    var idLower := Lower(identifier);
    if CancelMatch(bookings[k], idLower, today) && forall j :: 0 <= j < k ==> !CancelMatch(bookings[j], idLower, today) {
      FirstCancelMatchAt(bookings, idLower, today, k);
    }
  }

  lemma FirstCancelMatchAt(bookings: seq<Booking>, idLower: string, today: Date, k: nat)
    requires ValidDate(today) && k < |bookings|
    requires CancelMatch(bookings[k], idLower, today)
    requires forall j :: 0 <= j < k ==> !CancelMatch(bookings[j], idLower, today)
    ensures FirstCancelMatch(bookings, idLower, today, 0) == Some(k)
  {
    var r := FirstCancelMatch(bookings, idLower, today, 0);
    assert r.Some?;
    if r.value != k {
      assert false;
    }
  }

  /** The cancel tool finds nothing exactly when no booking has the id an
      all-digit identifier names and the scan accepts no booking. */
  lemma CancelNotFound(bookings: seq<Booking>, identifier: string, today: Date)
    requires ValidDate(today)
    ensures CancelTarget(bookings, identifier, today).None? <==>
      ((IsAllDigits(identifier) ==> forall j :: 0 <= j < |bookings| ==> bookings[j].id != DigitsValue(identifier))
       && forall j :: 0 <= j < |bookings| ==> !CancelMatch(bookings[j], Lower(identifier), today))
  {
    if IsAllDigits(identifier) && exists j :: 0 <= j < |bookings| && bookings[j].id == DigitsValue(identifier) {
      var j :| 0 <= j < |bookings| && bookings[j].id == DigitsValue(identifier);
      assert FirstWithId(bookings, DigitsValue(identifier), 0).Some?;
    }
    if exists j :: 0 <= j < |bookings| && CancelMatch(bookings[j], Lower(identifier), today) {
      var j :| 0 <= j < |bookings| && CancelMatch(bookings[j], Lower(identifier), today);
      assert FirstCancelMatch(bookings, Lower(identifier), today, 0).Some?;
    }
  }

  /** The reschedule tool finds nothing exactly when no booking has the named
      id and no title contains the identifier; booking times play no part. */
  lemma RescheduleNotFound(bookings: seq<Booking>, identifier: string)
    ensures RescheduleTarget(bookings, identifier).None? <==>
      ((IsAllDigits(identifier) ==> forall j :: 0 <= j < |bookings| ==> bookings[j].id != DigitsValue(identifier))
       && forall j :: 0 <= j < |bookings| ==> !TitleMatch(bookings[j], Lower(identifier)))
  {
    if IsAllDigits(identifier) && exists j :: 0 <= j < |bookings| && bookings[j].id == DigitsValue(identifier) {
      var j :| 0 <= j < |bookings| && bookings[j].id == DigitsValue(identifier);
      assert FirstWithId(bookings, DigitsValue(identifier), 0).Some?;
    }
    if exists j :: 0 <= j < |bookings| && TitleMatch(bookings[j], Lower(identifier)) {
      var j :| 0 <= j < |bookings| && TitleMatch(bookings[j], Lower(identifier));
      assert FirstTitleMatch(bookings, Lower(identifier), 0).Some?;
    }
  }

  /** Whenever the reschedule tool finds a booking, the cancel tool, given the
      same identifier, finds one too, at the same place or earlier: its scan
      accepts every title match and possibly earlier time matches. */
  lemma CancelNoLaterThanReschedule(bookings: seq<Booking>, identifier: string, today: Date)
    requires ValidDate(today) && RescheduleTarget(bookings, identifier).Some?
    ensures CancelTarget(bookings, identifier, today).Some?
    ensures CancelTarget(bookings, identifier, today).value <= RescheduleTarget(bookings, identifier).value
  {
    if IdLookup(bookings, identifier).None? {
      var k := RescheduleTarget(bookings, identifier).value;
      assert CancelMatch(bookings[k], Lower(identifier), today);
      var c := FirstCancelMatch(bookings, Lower(identifier), today, 0);
      assert c.Some?;
    }
  }

  /** The empty identifier is not all digits and occurs in every title, so
      both tools pick the first booking. */
  lemma EmptyIdentifierPicksFirst(bookings: seq<Booking>, today: Date)
    requires ValidDate(today) && |bookings| > 0
    ensures CancelTarget(bookings, "", today) == Some(0)
    ensures RescheduleTarget(bookings, "") == Some(0)
  {
    EmptyOccursEverywhere(Lower(bookings[0].title));
  }

  /** 15:00 on 2025-08-26. */
  function ExampleStart(): (t: DateTime)
    ensures Valid(t)
  {
    DateTime(2025, 8, 26, 15, 0, 0)
  }

  /** A booking titled "QA" starting at `ExampleStart()`, as the service writes it. */
  function ExampleBooking(): Booking
  {
    Booking(7, None, "QA", None, IsoFormat(ExampleStart()) + "Z", IsoFormat(ExampleStart()) + "Z", [], "accepted", [])
  }

  lemma ExampleTokens()
    ensures HourToken(ExampleStart()) == "03pm" && DateText(DateOf(ExampleStart())) == "2025-08-26"
  {
    ExampleHourToken();
    ExampleDateText();
  }

  lemma ExampleHourToken()
    ensures HourToken(ExampleStart()) == "03pm"
  {
    assert Pad2(3) == "03";
    assert Lower("03PM") == "03pm";
  }

  lemma ExampleDateText()
    ensures DateText(DateOf(ExampleStart())) == "2025-08-26"
  {
    assert Pad2(8) == "08" && Pad2(26) == "26" && Pad4(2025) == "2025";
  }

  /** The hour token is zero-padded: "3pm" does not pick a booking at 15:00... */
  lemma ThreePmDoesNotMatch()
    ensures CancelTarget([ExampleBooking()], "3pm", Date(2025, 8, 25)) == None
  {
    var idLower := "3pm";
    ThreePmRejected(idLower);
    assert !IsAllDigits(idLower) by { assert !IsDigit(idLower[1]); }
    assert FirstCancelMatch([ExampleBooking()], idLower, Date(2025, 8, 25), 1) == None;
  }

  lemma ThreePmRejected(idLower: string)
    requires idLower == "3pm"
    ensures Lower(idLower) == idLower
    ensures !CancelMatch(ExampleBooking(), idLower, Date(2025, 8, 25))
  {
    assert Lower(idLower) == idLower;
    assert Lower(ExampleBooking().title) == "qa";
    LongerNeverOccurs("qa", idLower);
    ThreePmNoTimeMatch(idLower);
  }

  lemma ThreePmNoTimeMatch(idLower: string)
    requires idLower == "3pm"
    ensures !TimeMatch(ExampleBooking(), idLower, Date(2025, 8, 25))
  {
    ApiTimeRoundTrip(ExampleStart());
    ExampleTokens();
    LongerNeverOccurs(idLower, "03pm");
    LongerNeverOccurs(idLower, "today");
    LongerNeverOccurs(idLower, "tomorrow");
    LongerNeverOccurs(idLower, "2025-08-26");
  }

  /** ... while "03pm" does. */
  lemma ZeroThreePmMatches()
    ensures CancelTarget([ExampleBooking()], "cancel the 03pm", Date(2025, 8, 25)) == Some(0)
  {
    var idLower := "cancel the 03pm";
    ZeroThreePmAccepted(idLower);
    assert !IsAllDigits(idLower) by { assert !IsDigit(idLower[0]); }
  }

  lemma ZeroThreePmAccepted(idLower: string)
    requires idLower == "cancel the 03pm"
    ensures Lower(idLower) == idLower
    ensures CancelMatch(ExampleBooking(), idLower, Date(2025, 8, 25))
  {
    LowerOfLower(idLower);
    ApiTimeRoundTrip(ExampleStart());
    ExampleHourToken();
    assert idLower[11..15] == "03pm";
    assert OccursAt(idLower, "03pm", 11);
    ContainsAt(idLower, "03pm");
  }
}
