# Cal-Chat-Agent calendar core, modelled in Dafny

The Cal-Chat-Agent is a chat assistant that books, lists, cancels and
reschedules meetings on a Cal.com calendar. A language model picks a tool
and calls it with free-form arguments. This project models what those
tools do with their arguments and with the booking service's answers:

- **CalendarTools** (`tools.dfy`) holds the four tools: `book_meeting`,
  `list_bookings`, `cancel_booking` and `reschedule_booking`. The logic is
  the same in `calendar_functions.py` and in the two byte-identical
  `calendar_tools.py` files, so one model covers all three.
  - Each tool is a method.
  - The booking service is abstract. Each call the tool makes is a parameter
    holding the service's answer, or `Failure` where the call raised.
  - The result records the reply and the mutating service call the tool
    issued, if any.
- **Resolution** (`resolution.dfy`) turns a free-form booking identifier into
  the booking to cancel or reschedule. An all-digit identifier is tried as an
  id first. After that, cancel scans for a title, hour, date, "today" or
  "tomorrow" match, and reschedule scans for a title match only.
- **StartSort** (`sort.dfy`) is the list tool's `bookings.sort(key=startTime)`,
  done in place on an array and proved equal to a stable insertion sort.
- **Replies** (`replies.dfy`) holds every answer a tool gives, as a value. It
  also gives the exact text each answer is shown as, including the
  booking-list rendering.
- **Calcom** (`calcom.dfy`) is the HTTP client: URL joining, the header
  merge, slot flattening, the create payload and its fallback booking, the
  cancel body and result, and the v2 booking mapping. It also models, as
  written, the client's read of an API-version setting that `Settings` does
  not declare, which makes the constructor and two calls raise (see
  "## Findings"). The tools are modelled with the intended client.
- **Sessions** (`sessions.dfy`) is the `SessionManager` table of chat
  sessions and the time stamps `send_message` keeps. It is modelled as
  classes.
- **Config** (`config.dfy`) is the `Settings` class, its environment
  defaults, the `debug` parse and `validate_required_settings`.
- **Support modules:**
  - `Civil` (`civil.dfy`): proleptic Gregorian date-times counted in seconds,
    as Python's `datetime` counts them.
  - `TimeText` (`time_text.dfy`): `strftime`, `strptime` and `fromisoformat`
    for the formats the tools use.
  - `Strings` (`strings.dfy`): Python's `lower`, `in`, `isdigit`, `strip` and
    `join` on ASCII text.
  - `Json` (`json.dfy`): decoded JSON with `dict.get` and Python
    truthiness.
  - `Wrappers` (`wrappers.dfy`): `Option` and `Result`.

Python exceptions become `None` or `Failure` values. The tools' `try`/`except`
turns them into the `Raised` reply, whose text is the tool's "Error ...: "
prefix.

## Model

Paths are relative to the repository root. `calendar_tools.py` exists as
`src/calbolt_chat_agent/tools/calendar_tools.py` and
`src/livex_chat_agent/tools/calendar_tools.py`, and both copies are modelled
by the same members.

| member | source | states |
|---|---|---|
| CalendarTools.ToolsAsWrittenRaise | src/calbolt_chat_agent/tools/calendar_functions.py:17-22 | as written, `get_calcom_client()` raises inside each tool's `try`, so every tool gives its error reply whatever the service holds |
| CalendarTools.ToolsWithVersionAnswer | src/calbolt_chat_agent/tools/calendar_functions.py:69-70 | with the version setting declared and a key configured, the client is built and the tool's own reply stands |
| CalendarTools.FirstOfLength | src/calbolt_chat_agent/tools/calendar_functions.py:85-88 | the index found is the first event type, from the start index on, whose length equals the duration; `None` exactly when no such type exists |
| CalendarTools.ChooseEventType | src/calbolt_chat_agent/tools/calendar_functions.py:83-88 | the loop picks the first event type of the requested length, else the first type. The choice is one of the given types, and it has the requested length exactly when some type does |
| CalendarTools.SlotMatchIsSameMinute | src/calbolt_chat_agent/tools/calendar_functions.py:98-101 | a slot the service writes as `isoformat()` plus "Z" passes the `%Y-%m-%dT%H:%M` prefix test exactly when it is on the same day, hour and minute as the requested time |
| CalendarTools.FirstThree | src/calbolt_chat_agent/tools/calendar_functions.py:106 | `slots[:3]` is a prefix of at most three slots, and is all of them when there are three or fewer |
| CalendarTools.SlotClocks | src/calbolt_chat_agent/tools/calendar_functions.py:104-107 | the alternatives exist exactly when every offered slot parses, and each one is that slot's `%H:%M` |
| CalendarTools.BookMeeting | src/calbolt_chat_agent/tools/calendar_functions.py:69-140 | a booking is requested exactly when the date and time parse, the end is representable, an event type exists, and the requested minute is free or no slot was offered. The request uses the preferred event type, and its end lies `duration` minutes after its start. Slots are asked for on the requested date. Slots are asked for exactly when the date and time parse, the end is representable and an event type exists. With no event types the tool answers without booking. An unparsable time, an unrepresentable end, or a failed event-type or slot call raises. A taken minute gives the unavailable reply, or raises when an alternative does not parse. A taken minute yields at most three alternatives. Every reply shows valid date-times |
| CalendarTools.BookAt | src/calbolt_chat_agent/tools/calendar_functions.py:79-137 | once start and end are known: slots are asked for exactly when an event type exists. A failed event-type or slot call raises. A taken minute with slots offered gives the unavailable reply with the alternatives, or raises when one of them does not parse. The booking condition, the request and the booked reply are as above, in terms of the parsed start |
| CalendarTools.ListEmail | src/calbolt_chat_agent/tools/calendar_functions.py:151 | `user_email or settings.user_email`: the given address unless it is missing or empty |
| CalendarTools.ListBookings | src/calbolt_chat_agent/tools/calendar_functions.py:149-188 | no bookings gives "No scheduled meetings found."; a failure raises. Otherwise the reply is the entries of the bookings sorted by start time, under the header, with trailing whitespace stripped |
| CalendarTools.AppendEntries | src/calbolt_chat_agent/tools/calendar_functions.py:161-183 | the loop's text is the header followed by every entry, in order |
| CalendarTools.ListNamesEveryBooking | src/calbolt_chat_agent/tools/calendar_functions.py:159-185 | every booking the service returned appears in the list as "**title** (ID: id)", whether its times parse or not |
| CalendarTools.CancelBooking | src/calbolt_chat_agent/tools/calendar_functions.py:198-277 | the service is asked to cancel exactly when the list is non-empty and a booking is resolved, and then only that booking's id, with the given reason. An empty list answers "No bookings found to cancel." If nothing resolves, every booking is listed with its start time and nothing is cancelled |
| CalendarTools.CancelReply | src/calbolt_chat_agent/tools/calendar_functions.py:258-274 | a true result from the service gives the success text, with the start time, exactly when that start parses. A false result gives "Failed to cancel booking <id>", not an exception; a raise gives the error reply |
| CalendarTools.RescheduleBooking | src/calbolt_chat_agent/tools/calendar_functions.py:286-352 | an empty list or no resolved booking makes no service call. The no-match reply lists every booking by title and id. A resolved booking is moved as `MoveBooking` says. When the new date and time, or the booking's own start or end, do not parse, the tool raises without calling the service |
| CalendarTools.MoveBooking | src/calbolt_chat_agent/tools/calendar_functions.py:320-335 | no service call is made when the new date and time or the booking's own times fail to parse, and the tool raises. Otherwise the outcome is `MoveTo` from the parsed times |
| CalendarTools.MoveTo | src/calbolt_chat_agent/tools/calendar_functions.py:323-349 | the service is called exactly when the new end is representable, with the booking's id and the requested start. The new end keeps the original length to the second. The reply shows the original and new times and the length in minutes, truncated toward zero; a missing updated booking raises |
| Resolution.FirstWithId | src/calbolt_chat_agent/tools/calendar_functions.py:212-215 | `next(b for b in bookings if b.id == id)`: the first booking with that id, or none exactly when no booking has it |
| Resolution.FirstCancelMatch | src/calbolt_chat_agent/tools/calendar_functions.py:221-247 | the first booking the cancel scan accepts, or none exactly when it accepts none |
| Resolution.FirstTitleMatch | src/calbolt_chat_agent/tools/calendar_functions.py:308-311 | the first booking whose lower-cased title contains the lower-cased identifier, or none exactly when there is none |
| Resolution.FindCancelTarget | src/calbolt_chat_agent/tools/calendar_functions.py:207-247 | the cancel search loop, with its `break`s and its `continue` on an unparsable start, computes `CancelTarget` |
| Resolution.FindRescheduleTarget | src/calbolt_chat_agent/tools/calendar_functions.py:295-311 | the reschedule search loop computes `RescheduleTarget` |
| Resolution.IdTakesPrecedence | src/calbolt_chat_agent/tools/calendar_functions.py:210-215 | an all-digit identifier equal to some booking's id picks the first booking with that id, in both tools, whatever the other titles and times say |
| Resolution.CancelPicksFirstMatch | src/calbolt_chat_agent/tools/calendar_functions.py:218-247 | without an id match, booking k is picked exactly when the scan accepts k and no earlier booking |
| Resolution.CancelNotFound | src/calbolt_chat_agent/tools/calendar_functions.py:249-255 | cancel finds nothing exactly when no booking has the named id and the scan accepts no booking |
| Resolution.RescheduleNotFound | src/calbolt_chat_agent/tools/calendar_functions.py:313-318 | reschedule finds nothing exactly when no booking has the named id and no title contains the identifier; times play no part |
| Resolution.CancelNoLaterThanReschedule | src/calbolt_chat_agent/tools/calendar_functions.py:218-311 | whenever reschedule finds a booking, cancel with the same identifier finds one too, at the same position or earlier |
| Resolution.EmptyIdentifierPicksFirst | src/calbolt_chat_agent/tools/calendar_functions.py:223 | the empty identifier occurs in every title, so both tools pick the first booking |
| Resolution.ExampleTokens | src/calbolt_chat_agent/tools/calendar_functions.py:230-231 | a booking at 15:00 on 2025-08-26 has hour token "03pm" and date text "2025-08-26" |
| Resolution.ThreePmDoesNotMatch | src/calbolt_chat_agent/tools/calendar_functions.py:230-233 | "3pm" does not pick a booking at 15:00, because `%I` is zero-padded |
| Resolution.ZeroThreePmMatches | src/calbolt_chat_agent/tools/calendar_functions.py:230-233 | "cancel the 03pm" does pick that booking |
| StartSort.InsertSorted | src/calbolt_chat_agent/tools/calendar_functions.py:159 | inserting into a list sorted by start time keeps it sorted |
| StartSort.InsertPermutes | src/calbolt_chat_agent/tools/calendar_functions.py:159 | inserting adds exactly the one booking |
| StartSort.SortByStartSorted | src/calbolt_chat_agent/tools/calendar_functions.py:159 | the sorted bookings are in non-decreasing `startTime` order |
| StartSort.SortByStartPermutes | src/calbolt_chat_agent/tools/calendar_functions.py:159 | sorting keeps exactly the same bookings, as a multiset |
| StartSort.SortedUnchanged | src/calbolt_chat_agent/tools/calendar_functions.py:159 | sorting an already sorted list leaves it as it is |
| StartSort.SortedPosition | src/calbolt_chat_agent/tools/calendar_functions.py:159 | every booking of the input is somewhere in the sorted list |
| StartSort.InsertStable | src/calbolt_chat_agent/tools/calendar_functions.py:159 | inserting a booking keeps the order of the bookings with any one start time, and puts the new one after those with its own start |
| StartSort.SortByStartStable | src/calbolt_chat_agent/tools/calendar_functions.py:159 | the sort is stable: bookings with the same start time keep their input order |
| StartSort.SortBookings | src/calbolt_chat_agent/tools/calendar_tools.py:164 | the in-place sort leaves the array equal to `SortByStart` of its old contents |
| StartSort.ShiftIn | src/calbolt_chat_agent/tools/calendar_tools.py:164 | one insertion step puts element i into the sorted prefix and leaves the rest of the array alone |
| Replies.MarkerInMeetingsText | src/calbolt_chat_agent/tools/calendar_functions.py:161-185 | each booking's "**title** (ID: id)" occurs in the rendered list |
| Replies.EntryStartsWithMarker | src/calbolt_chat_agent/tools/calendar_functions.py:173-183 | each entry, parsed or not, starts with the booking's marker |
| Replies.StartLines | src/calbolt_chat_agent/tools/calendar_functions.py:251-254 | the not-found lines exist exactly when every start time parses, one line per booking |
| Replies.IdLines | src/calbolt_chat_agent/tools/calendar_functions.py:314-317 | one "- title (ID: id)" line per booking, in order |
| Calcom.JoinUrlPlain | src/calbolt_chat_agent/api/calcom_client.py:99 | a base without a trailing slash and an endpoint without a leading one are joined by exactly one slash |
| Calcom.JoinUrlIgnoresSlashes | src/calbolt_chat_agent/api/calcom_client.py:99 | extra slashes at the end of the base or the start of the endpoint do not change the URL |
| Calcom.MergeHeaders | src/calbolt_chat_agent/api/calcom_client.py:102-105 | as intended, with a version setting declared: the API-version header is added only when the caller did not give one; the caller's headers are kept unchanged |
| Calcom.VersionSetting | src/calbolt_chat_agent/api/calcom_client.py:104 | `settings.calcom_api_version` has a value exactly when `Settings` declares that field |
| Calcom.VersionSettingMissing | src/calbolt_chat_agent/config/settings.py:13-70 | `Settings` declares no API-version field, so reading it always raises |
| Calcom.MergeHeadersAsWritten | src/calbolt_chat_agent/api/calcom_client.py:102-105 | the merge as written raises exactly when the caller gave no version header and the setting is missing. Otherwise the caller's headers are kept and the version header is present |
| Calcom.MergeFailsWithoutHeader | src/calbolt_chat_agent/api/calcom_client.py:102-105 | as written, the merge raises exactly when the caller gave no version header |
| Calcom.HeaderlessCallsRaise | src/calbolt_chat_agent/api/calcom_client.py:141-313 | as written, of the six client calls exactly `cancel_booking` and `get_booking` raise in the merge; slots, create, list and reschedule pass their own version |
| Calcom.SessionHeaders | src/calbolt_chat_agent/api/calcom_client.py:65-83 | the constructor succeeds exactly when `api_key or settings.calcom_api_key` is non-empty and the version setting exists. It sets the bearer token of that key and the version header |
| Calcom.ClientNeverBuilt | src/calbolt_chat_agent/api/calcom_client.py:82 | as written, building a client raises whatever key is configured |
| Calcom.ResponseJson | src/calbolt_chat_agent/api/calcom_client.py:107-120 | an empty body is `{}`, a failed request raises, and a body that does not decode raises |
| Calcom.FlattenSlots | src/calbolt_chat_agent/api/calcom_client.py:147-162 | the nested loops compute `AvailableSlots`, and any raise yields the empty list |
| Calcom.ListSlots | src/calbolt_chat_agent/api/calcom_client.py:154-156 | the inner loop computes the slots of one list value |
| Calcom.SlotsComeFromStarts | src/calbolt_chat_agent/api/calcom_client.py:150-156 | every slot returned has capacity 1 and the `start` of some dict inside a list value of `data` |
| Calcom.ListSlotsCount | src/calbolt_chat_agent/api/calcom_client.py:154-156 | one list value gives exactly one slot per dict that has a `start` |
| Calcom.NoneSpoilsLater | src/calbolt_chat_agent/api/calcom_client.py:159-162 | one invalid slot anywhere empties the whole result |
| Calcom.EitherField | src/calbolt_chat_agent/api/calcom_client.py:294-295 | `d.get(primary) or d.get(fallback, "")`: the primary key wins unless it is missing or falsy |
| Calcom.MapBookingFields | src/calbolt_chat_agent/api/calcom_client.py:287-299 | `id` defaults to 0 and `title` and `status` to "". `uid` is None when absent. `start` is preferred to `startTime` and `end` to `endTime`, each falling back to "" |
| Calcom.DropNoneExactly | src/calbolt_chat_agent/api/calcom_client.py:175 | the filtered payload holds exactly the request fields that are not None, with their values |
| Calcom.PayloadFields | src/calbolt_chat_agent/api/calcom_client.py:175 | the payload always carries `eventTypeId`, `start` and `attendee`, plus `title`, `end` and `description` whenever they are set |
| Calcom.PayloadTitleOnlySet | src/calbolt_chat_agent/api/calcom_client.py:175 | the payload carries `title` only when it is set, and then with its value |
| Calcom.PayloadEndOnlySet | src/calbolt_chat_agent/api/calcom_client.py:175 | the payload carries `end` only when it is set, and then with its value |
| Calcom.PayloadDescriptionOnlySet | src/calbolt_chat_agent/api/calcom_client.py:175 | the payload carries `description` only when it is set, and then with its value |
| Calcom.FallbackBooking | src/calbolt_chat_agent/api/calcom_client.py:188-198 | the fallback booking has id 0 and status "confirmed". Its title is the request's title or "Meeting", and its end is the request's end or else its start. The attendee is the one requested |
| Calcom.CreateBooking | src/calbolt_chat_agent/api/calcom_client.py:164-202 | missing or falsy `data` gives the fallback. Truthy data gives the mapped booking, which succeeds exactly when the mapping does. A failed request raises |
| Calcom.MapAll | src/calbolt_chat_agent/api/calcom_client.py:223 | the list comprehension maps every element in order, or fails if one fails |
| Calcom.GetBookings | src/calbolt_chat_agent/api/calcom_client.py:213-227 | a failed request, a non-object answer or a `data` that is not a list gives no bookings. A list of which any element fails to map also gives none; otherwise one booking per element, in order, each the mapping of that element |
| Calcom.CancelBody | src/calbolt_chat_agent/api/calcom_client.py:241-245 | the body has `cancellationReason` exactly when the reason is truthy, and `cancelSubsequentBookings` exactly when it is true |
| Calcom.CancelOutcomes | src/calbolt_chat_agent/api/calcom_client.py:253-257 | as intended: an empty response counts as success; a raise never does; `success: false` without a success status is a failure |
| Calcom.CancelAsWrittenAlwaysFalse | src/calbolt_chat_agent/api/calcom_client.py:229-257 | as written, `cancel_booking` returns False for every answer of the service, including the empty one the intended client counts as success |
| Calcom.GetBookingAsWrittenNone | src/calbolt_chat_agent/api/calcom_client.py:303-318 | as written, `get_booking` returns None for every answer of the service |
| Calcom.BookingOrNone | src/calbolt_chat_agent/api/calcom_client.py:278-285 | missing or falsy `data`, or any failure, gives None; otherwise the result is the mapped `data` |
| Sessions.ChatSession.SendMessage | src/calbolt_chat_agent/core/agent.py:197-202 | the creation time is set by the first message only, and the last-use time by every message. The reply is the agent's answer. On a clock that does not run backwards, creation stays no later than last use |
| Sessions.SessionManager.GetSession | src/calbolt_chat_agent/core/agent.py:229-232 | a stored session is returned unchanged. Otherwise a fresh session with no time stamps is stored under the id, which is appended to the table order |
| Sessions.SessionManager.DeleteSession | src/calbolt_chat_agent/core/agent.py:243-246 | the result is true exactly when the id was present, and only that entry goes |
| Sessions.SessionManager.ListSessions | src/calbolt_chat_agent/core/agent.py:254 | the keys of the table, each once, in insertion order |
| Sessions.SessionManager.CleanupInactive | src/calbolt_chat_agent/core/agent.py:267-276 | exactly the sessions last used before `now - max_inactive_hours` hours go; never-used sessions stay. The remaining order is the active ids, and the count returned is the number removed |
| Sessions.SessionManager.StaleSessionIds | src/calbolt_chat_agent/core/agent.py:268-271 | the comprehension collects the stale ids in table order |
| Sessions.SessionManager.RemoveAll | src/calbolt_chat_agent/core/agent.py:273-274 | the deletion loop removes exactly the listed ids and keeps every other entry and its order |
| Sessions.CleanupPlan | src/calbolt_chat_agent/core/agent.py:267-276 | the collected ids are exactly the stale sessions; deleting them leaves the active ids; their number is the difference |
| Sessions.KeepSpec | src/calbolt_chat_agent/core/agent.py:244 | after deletion the ids are exactly those not deleted, still each once |
| Sessions.KeepOne | src/calbolt_chat_agent/core/agent.py:244 | deleting a present id shortens the table by one |
| Config.Settings.constructor | src/calbolt_chat_agent/config/settings.py:17-42 | the API keys and the user email default to their environment variables or "", and `debug` to the parse of `DEBUG`, default "False" |
| Config.DebugSpelling | src/calbolt_chat_agent/config/settings.py:40 | debug is on exactly for "true" in any mix of cases |
| Config.DebugDefaultOff | src/calbolt_chat_agent/config/settings.py:40 | an unset `DEBUG` leaves debug off |
| Config.MissingSpec | src/calbolt_chat_agent/config/settings.py:74-83 | nothing is missing exactly when every required value is set. Each empty value has its message, and every message names an empty value |
| Config.MissingRequired | src/calbolt_chat_agent/config/settings.py:76-83 | the messages for the three settings, in the order OpenAI, Cal.com, user email |
| Config.ErrorNamesEach | src/calbolt_chat_agent/config/settings.py:86 | the raised message contains every missing setting's message |
| Config.Settings.ValidateRequired | src/calbolt_chat_agent/config/settings.py:72-86 | the result is an error exactly when a required value is empty, and its text is the prefix followed by the messages joined by ", " |
| Civil.OrdinalRoundTrip | src/calbolt_chat_agent/tools/calendar_functions.py:242 | dates and day ordinals correspond one-to-one, so `date + timedelta(days=1)` is well defined |
| Civil.SecondsInjective | src/calbolt_chat_agent/tools/calendar_functions.py:326 | distinct date-times are distinct instants, so a `datetime` difference determines the later time |
| Civil.AddSeconds | src/calbolt_chat_agent/tools/calendar_functions.py:76 | `t + timedelta` lands exactly the given number of seconds later, and fails exactly when the result leaves years 1 to 9999 |
| Civil.NextDay | src/calbolt_chat_agent/tools/calendar_functions.py:242 | `today + timedelta(days=1)` is the day with the next ordinal, absent after 9999-12-31 |
| Civil.WholeMinutes | src/calbolt_chat_agent/tools/calendar_functions.py:345 | `int(seconds / 60)` truncates toward zero for both signs |
| TimeText.PadRoundTrip | src/calbolt_chat_agent/tools/calendar_functions.py:231 | a zero-padded field reads back as the number written |
| TimeText.IsoRoundTrip | src/calbolt_chat_agent/tools/calendar_functions.py:113-114 | `fromisoformat(t.isoformat())` is `t` |
| TimeText.ApiTimeRoundTrip | src/calbolt_chat_agent/tools/calendar_functions.py:165 | a time the service writes as `isoformat()` plus "Z" reads back, after removing "Z", as the same time |
| TimeText.MinutePrefixRoundTrip | src/calbolt_chat_agent/tools/calendar_functions.py:99 | the `%Y-%m-%dT%H:%M` prefix reads back as the same minute |
| TimeText.MinutePrefixSame | src/calbolt_chat_agent/tools/calendar_functions.py:99 | two times have the same minute prefix exactly when they share day, hour and minute |
| TimeText.DateAndTimeRoundTrip | src/calbolt_chat_agent/tools/calendar_functions.py:73 | `strptime` of a date as `%Y-%m-%d` and a time as `%H:%M` gives that minute back |
| TimeText.ParseDateAndTime | src/calbolt_chat_agent/tools/calendar_functions.py:73 | a parsed date-time is a valid one on a whole minute |
| TimeText.Hour12 | src/calbolt_chat_agent/tools/calendar_functions.py:230 | `%I` is between 1 and 12, and shows midnight and noon as 12 |

## Left out

- The HTTP transport, the language model, the chat agent's prompt and memory,
  the web UI and the debug `print`s are not modelled. The service's answers
  are parameters, and the agent's reply is a function passed to `SendMessage`.
- The client surface the tools call is modelled as an abstract service. The
  source's `CalcomClient` does not match it:
  - it has no `get_event_types`;
  - its `reschedule_booking` takes two arguments, not the three the tools
    pass;
  - the tools pass a booking's numeric id where the client expects a UID;
  - `list_bookings` passes the email as `get_bookings`' `take` argument;
  - its constructor and `_make_request` read `settings.calcom_api_version`,
    which `Settings` does not declare, so as written no client is ever
    built (see "## Findings").
  The tools are modelled on what they pass and how they read the answers,
  with a client that can be built.
- The client's error message texts are not modelled: `Raised` carries only
  the tool's "Error ...: " prefix, not `str(e)`.
- `get_booking` is modelled only as written (`Calcom.GetBookingAsWritten`).
  Its intended mapping rule is the one `BookingOrNone` states for
  `reschedule_booking`.
- Pydantic validation is modelled as: strings must be strings, optional
  strings may be null, attendees must be dicts. Coercions (a number given for
  a string field) and the tool-input schemas are not modelled. A failed
  validation is a failure.
- Text is ASCII. `lower`, `title`, `isdigit` and `strip` do not handle
  non-ASCII characters as Python does.
- `datetime.fromisoformat` is modelled for the forms the service sends:
  `YYYY-MM-DD`, optionally followed by `T` or a space and `HH`, `HH:MM`,
  `HH:MM:SS` or `HH:MM:SS` with a 3- or 6-digit fraction.
  - Time zone offsets and other ISO 8601 forms are read as failures.
  - The fraction is dropped, so sub-second times are not modelled.
- `strptime("%Y-%m-%d %H:%M")` is modelled with a four-digit year, one- or
  two-digit fields and no whitespace tolerance. `%Y` output is always four
  digits.
- Dates carry no time zone, and the clock is one reading. `send_message`'s
  two `datetime.now()` calls and the cancel tool's `today` are each one value
  passed in.
- Clock readings in `Sessions` are whole seconds. An overflowing
  `now - timedelta(hours=...)` in cleanup is not modelled: the cutoff is
  plain integer arithmetic.
- `LiveXChatSession.reset` and `get_history` only delegate to the agent and
  are not modelled.
- Concurrent use of the session table is not modelled.
- Settings: only the default factories are modelled, not pydantic's own
  reading of the environment and `.env`. Nor are the constant fields (host,
  port, model name, temperature, token limit, base URL).
- Duplicate keys in a JSON object resolve to the first occurrence, as
  `Json.Get` reads them. Python's decoder keeps the last.
- Calcom.SlotsOfData: walks every key/value pair of `data`, so an object with
  a repeated key contributes each of its lists, and an invalid one empties the
  result. Python's decoder keeps only the last value for a key, so only that
  value would count.
- Config.DebugSpelling: states only the default factory's
  `lower() == "true"`. When `DEBUG` is set, pydantic-settings reads it itself
  as a boolean, so `1`, `yes` or `on` also turn debug on and an unrecognised
  value fails at start-up. That reading is not modelled.
- Replies.Text: a list entry's attendees and a reply's `reason` are shown
  with Python's `str`. A non-string name or email inside an attendee dict is
  shown by `PyStr`, which renders nested lists and dicts only as "[...]" and
  "{...}".
- CalendarTools.RescheduleBooking: the outcome records the new start and end
  as date-times, not as the `isoformat()` strings sent.
  `TimeText.IsoRoundTrip` shows that those strings read back unchanged.
- Calcom.MergeHeaders: states the intended merge, with a version setting
  that `Settings` does not declare. As written the add branch raises;
  `Calcom.MergeHeadersAsWritten` models that.
- Calcom.CancelOutcomes: states how the intended client reads a cancel
  answer. As written, `cancel_booking` never gets an answer and returns
  False; `Calcom.CancelAsWrittenAlwaysFalse` proves it.
- JSON numbers are integers (`Json.JNum`). Floats such as `12.0` (which
  pydantic accepts for an int field) or `0.0` (falsy) are not representable.
- Calcom.CancelBody: built as a value, rather than by the source's
  successive dictionary updates.

## Findings

| source | as written | input that shows it | evidently intended | confidence | as-written member | corrected member |
|---|---|---|---|---|---|---|
| src/calbolt_chat_agent/api/calcom_client.py:104 | `_make_request` adds the version header from `settings.calcom_api_version`, a field `Settings` does not declare. The read raises `AttributeError` whenever the caller gave no header | `cancel_booking("u1")` with the service answering `{}`: returns False. `get_booking("u1")` returns None | a declared version setting fills in the header, so an empty cancel answer counts as success | high, not executed | Calcom.CancelAsWrittenAlwaysFalse | Calcom.MergeHeaders |
| src/calbolt_chat_agent/api/calcom_client.py:82 | `CalcomClient.__init__` reads the same undeclared field, so `get_calcom_client()` always raises | any tool call, with any configured key: the tool gives its error reply | the constructor sets the configured version header and the tools reach the service | high, not executed | CalendarTools.ToolsAsWrittenRaise | Calcom.SessionHeaders |
