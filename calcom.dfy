/** The booking-service client: how it shapes requests (URL, headers,
    payloads) and how it maps the JSON it gets back into bookings and slots.
    The HTTP exchange itself is a parameter: each operation receives the
    decoded response, or the failure `_make_request` raised. */
module Calcom {
  import opened Wrappers
  import opened Strings
  import opened Json
  import Config

  type Object = seq<(string, Json)>

  /** A booking as the tools see it. */
  datatype Booking = Booking(
    id: int,
    uid: Option<string>,
    title: string,
    description: Option<string>,
    startTime: string,
    endTime: string,
    attendees: seq<Object>,
    status: string,
    eventType: Object)

  datatype AvailableSlot = AvailableSlot(time: string, attendees: int, bookingUid: Option<string>)

  /** The outbound booking request, its fields in declaration order. */
  datatype BookingRequest = BookingRequest(
    eventTypeId: int,
    start: string,
    attendee: Object,
    location: Option<Object>,
    end: Option<string>,
    lengthInMinutes: Option<int>,
    bookingFieldsResponses: Option<Object>,
    eventTypeSlug: Option<string>,
    username: Option<string>,
    teamSlug: Option<string>,
    organizationSlug: Option<string>,
    guests: Option<seq<string>>,
    metadata: Option<Object>,
    routing: Option<Object>,
    meetingUrl: Option<string>,
    title: Option<string>,
    description: Option<string>)

  const ApiVersionHeader := "cal-api-version"

  /** The settings attribute the client reads for the API version. */
  const ApiVersionField := "calcom_api_version"

  // ------------------------------------------------------------ request shaping

  /** The request URL: the base without its trailing slashes, one slash, and
      the endpoint without its leading slashes. */
  function JoinUrl(base: string, endpoint: string): string
  {
    TrimRight(base, '/') + "/" + TrimLeft(endpoint, '/')
  }

  /** A base without a trailing slash and an endpoint without a leading one
      are joined by exactly one slash. */
  lemma JoinUrlPlain(base: string, endpoint: string)
    requires base == [] || base[|base| - 1] != '/'
    requires endpoint == [] || endpoint[0] != '/'
    ensures JoinUrl(base, endpoint) == base + "/" + endpoint
  {
  }

  /** Extra slashes at the junction do not change the URL. */
  lemma {:induction false} JoinUrlIgnoresSlashes(base: string, endpoint: string, k: nat, j: nat)
    ensures JoinUrl(base + Slashes(k), Slashes(j) + endpoint) == JoinUrl(base, endpoint)
  {
    TrimRightSlashes(base, k);
    TrimLeftSlashes(endpoint, j);
  }

  function Slashes(k: nat): (s: string)
    ensures |s| == k && forall i :: 0 <= i < k ==> s[i] == '/'
  {
    if k == 0 then "" else "/" + Slashes(k - 1)
  }

  lemma {:induction false} TrimRightSlashes(s: string, k: nat)
    ensures TrimRight(s + Slashes(k), '/') == TrimRight(s, '/')
  {
    var t := s + Slashes(k);
    if k > 0 {
      assert t[|t| - 1] == '/';
      assert t[..|t| - 1] == s + Slashes(k - 1);
      TrimRightSlashes(s, k - 1);
    } else {
      assert t == s;
    }
  }

  lemma {:induction false} TrimLeftSlashes(s: string, k: nat)
    ensures TrimLeft(Slashes(k) + s, '/') == TrimLeft(s, '/')
  {
    var t := Slashes(k) + s;
    if k == 0 {
      assert t == s;
    } else {
      var rest := Slashes(k - 1) + s;
      assert t[0] == '/' && t[1..] == rest;
      TrimLeftSlashes(s, k - 1);
      assert TrimLeft(t, '/') == TrimLeft(rest, '/');
    }
  }

  /** The header merge of `_make_request`: the API-version header is added
      only when the caller did not supply one. */
  method MergeHeaders(headers: map<string, string>, version: string) returns (merged: map<string, string>)
    ensures merged.Keys == headers.Keys + {ApiVersionHeader}
    ensures forall k :: k in headers ==> merged[k] == headers[k]
    ensures ApiVersionHeader !in headers ==> merged[ApiVersionHeader] == version
  {
    merged := headers;
    if ApiVersionHeader !in merged {
      merged := merged[ApiVersionHeader := version];
    }
  }

  /** `settings.calcom_api_version`, where `value` is what a declared field
      would hold: `None` stands for the `AttributeError` raised when `Settings`
      does not declare the field. */
  function VersionSetting(value: string): (r: Option<string>)
    ensures r.Some? <==> ApiVersionField in Config.DeclaredFields
    ensures r.Some? ==> r.value == value
  {
    if ApiVersionField in Config.DeclaredFields then Some(value) else None
  }

  /** `Settings` declares no API-version field, so the read always raises. */
  lemma VersionSettingMissing(value: string)
    ensures VersionSetting(value).None?
  {
    assert ApiVersionField !in Config.DeclaredFields;
  }

  /** The header merge of `_make_request` as written: when the caller gave no
      version header, the add branch reads `settings.calcom_api_version`, and
      the raise escapes before any request is sent. */
  function MergeHeadersAsWritten(headers: map<string, string>, value: string): (r: Result<map<string, string>>)
    ensures r.Failure? <==> ApiVersionHeader !in headers && VersionSetting(value).None?
    ensures r.Success? ==> r.value.Keys == headers.Keys + {ApiVersionHeader}
    ensures r.Success? ==> forall k :: k in headers ==> r.value[k] == headers[k]
  {
    if ApiVersionHeader in headers then Success(headers)
    else
      match VersionSetting(value)
      case None => Failure("AttributeError")
      case Some(v) => Success(headers[ApiVersionHeader := v])
  }

  /** As written, exactly the calls that pass no version header raise. */
  lemma MergeFailsWithoutHeader(headers: map<string, string>, value: string)
    ensures MergeHeadersAsWritten(headers, value).Failure? <==> ApiVersionHeader !in headers
  {
    VersionSettingMissing(value);
  }

  /** The client calls that go through `_make_request`. */
  datatype ClientCall = SlotsCall | CreateCall | ListCall | CancelCall | RescheduleCall | GetCall

  /** The headers each call hands to `_make_request`. */
  function CallerHeaders(c: ClientCall): map<string, string>
  {
    match c
    case SlotsCall => map[ApiVersionHeader := "2024-09-04"]
    case CreateCall | ListCall | RescheduleCall => map[ApiVersionHeader := "2024-08-13"]
    case CancelCall | GetCall => map[]
  }

  /** As written, `cancel_booking` and `get_booking` raise inside
      `_make_request`; the other calls get through with their own version. */
  lemma HeaderlessCallsRaise(c: ClientCall, value: string)
    ensures MergeHeadersAsWritten(CallerHeaders(c), value).Failure? <==> c == CancelCall || c == GetCall
  {
    MergeFailsWithoutHeader(CallerHeaders(c), value);
  }

  /** The session headers `CalcomClient.__init__` sets, or the error it
      raises. The key is `api_key or settings.calcom_api_key`; an empty key
      raises `ValueError`, and a missing version setting `AttributeError`. */
  function SessionHeaders(apiKey: Option<string>, settingsKey: string, version: Option<string>): (r: Result<map<string, string>>)
    ensures r.Success? <==> ((apiKey.Some? && apiKey.value != "") || settingsKey != "") && version.Some?
    ensures r.Success? ==> r.value.Keys == {"Authorization", "Content-Type", ApiVersionHeader}
    ensures r.Success? ==>
      r.value["Authorization"] == "Bearer " + (if apiKey.Some? && apiKey.value != "" then apiKey.value else settingsKey)
    ensures r.Success? ==> r.value[ApiVersionHeader] == version.value
  {
    var key := if apiKey.Some? && apiKey.value != "" then apiKey.value else settingsKey;
    if key == "" then Failure("ValueError")
    else if version.None? then Failure("AttributeError")
    else Success(map["Authorization" := "Bearer " + key, "Content-Type" := "application/json",
                     ApiVersionHeader := version.value])
  }

  /** As written, no client can be built, whatever key is configured. */
  lemma ClientNeverBuilt(apiKey: Option<string>, settingsKey: string, value: string)
    ensures SessionHeaders(apiKey, settingsKey, VersionSetting(value)).Failure?
  {
    VersionSettingMissing(value);
  }

  /** The JSON `_make_request` returns: `{}` for an empty body, otherwise the
      decoded body; a transport or decoding failure is raised. */
  function ResponseJson(body: Result<string>, decoded: Result<Json>): (r: Result<Json>)
    ensures body.Success? && body.value == [] ==> r == Success(JObj([]))
    ensures body.Failure? ==> r.Failure?
    ensures body.Success? && body.value != [] ==> r.Success? == decoded.Success?
  {
    if body.Failure? then Failure("API request failed")
    else if body.value == [] then Success(JObj([]))
    else if decoded.Failure? then Failure("Failed to parse API response")
    else decoded
  }

  // ------------------------------------------------------------------- slots

  /** The slots one list value of `data` contributes; `None` when a `start`
      is not a string, which fails validation of the slot. */
  function SlotsOfList(items: seq<Json>): Option<seq<AvailableSlot>>
  {
    if items == [] then Some([])
    else
      var prefix := SlotsOfList(items[..|items| - 1]);
      var last := items[|items| - 1];
      if prefix.None? then None
      else if last.JObj? && Get(last.fields, "start").Some? then
        var start := Get(last.fields, "start").value;
        if start.JStr? then Some(prefix.value + [AvailableSlot(start.s, 1, None)]) else None
      else prefix
  }

  /** The slots of all list values of `data`, in key order. */
  function SlotsOfData(fields: Object): Option<seq<AvailableSlot>>
  {
    if fields == [] then Some([])
    else
      var prefix := SlotsOfData(fields[..|fields| - 1]);
      var v := fields[|fields| - 1].1;
      if prefix.None? then None
      else if v.JArr? then
        var more := SlotsOfList(v.items);
        if more.None? then None else Some(prefix.value + more.value)
      else prefix
  }

  /** `get_available_slots`: any exception yields the empty list. */
  function AvailableSlots(response: Result<Json>): seq<AvailableSlot>
  {
    if response.Failure? || !response.value.JObj? then []
    else
      var data := GetOr(response.value.fields, "data", JObj([]));
      if !data.JObj? then []
      else
        var slots := SlotsOfData(data.fields);
        if slots.None? then [] else slots.value
  }

  /** The nested loops of `get_available_slots` compute `AvailableSlots`. */
  method FlattenSlots(response: Result<Json>) returns (slots: seq<AvailableSlot>)
    ensures slots == AvailableSlots(response)
  {
    slots := [];
    if response.Failure? || !response.value.JObj? {
      return;
    }
    var data := GetOr(response.value.fields, "data", JObj([]));
    if !data.JObj? {
      return;
    }
    var fields := data.fields;
    var i := 0;
    while i < |fields|
      invariant 0 <= i <= |fields|
      invariant SlotsOfData(fields[..i]) == Some(slots)
    {
      assert fields[..i + 1][..i] == fields[..i];
      var v := fields[i].1;
      if v.JArr? {
        var more := ListSlots(v.items);
        if more.None? {
          NoneSpoilsLater(fields, i + 1);
          assert fields[..|fields|] == fields;
          slots := [];
          return;
        }
        slots := slots + more.value;
      }
      i := i + 1;
    }
    assert fields[..|fields|] == fields;
  }

  /** The inner loop over one list value; `None` where validating a slot raises. */
  method ListSlots(items: seq<Json>) returns (more: Option<seq<AvailableSlot>>)
    ensures more == SlotsOfList(items)
  {
    var found: seq<AvailableSlot> := [];
    var j := 0;
    while j < |items|
      invariant 0 <= j <= |items|
      invariant SlotsOfList(items[..j]) == Some(found)
    {
      assert items[..j + 1][..j] == items[..j];
      var item := items[j];
      if item.JObj? && Get(item.fields, "start").Some? {
        var start := Get(item.fields, "start").value;
        if !start.JStr? {
          NoneListSpoils(items, j + 1);
          return None;
        }
        found := found + [AvailableSlot(start.s, 1, None)];
      }
      j := j + 1;
    }
    assert items[..|items|] == items;
    more := Some(found);
  }

  lemma {:induction false} NoneListSpoils(items: seq<Json>, j: nat)
    requires j <= |items| && SlotsOfList(items[..j]).None?
    ensures SlotsOfList(items).None?
    decreases |items| - j
  {
    if j < |items| {
      assert items[..j + 1][..j] == items[..j];
      NoneListSpoils(items, j + 1);
    } else {
      assert items[..j] == items;
    }
  }

  lemma {:induction false} NoneSpoilsLater(fields: Object, i: nat)
    requires i <= |fields| && SlotsOfData(fields[..i]).None?
    ensures SlotsOfData(fields[..|fields|]).None?
    decreases |fields| - i
  {
    if i < |fields| {
      assert fields[..i + 1][..i] == fields[..i];
      NoneSpoilsLater(fields, i + 1);
    }
  }

  /** Every slot the client returns has capacity 1 and the `start` string of
      some dict inside a list value of `data`. */
  lemma {:induction false} SlotsComeFromStarts(fields: Object)
    requires SlotsOfData(fields).Some?
    ensures forall s :: s in SlotsOfData(fields).value ==>
      s.attendees == 1 && s.bookingUid == None &&
      exists k :: 0 <= k < |fields| && fields[k].1.JArr? && StartIn(s.time, fields[k].1.items)
  {
    if fields != [] {
      var init := fields[..|fields| - 1];
      SlotsComeFromStarts(init);
      var v := fields[|fields| - 1].1;
      if v.JArr? {
        ListSlotsComeFromStarts(v.items);
      }
      forall s | s in SlotsOfData(fields).value
        ensures exists k :: 0 <= k < |fields| && fields[k].1.JArr? && StartIn(s.time, fields[k].1.items)
      {
        if s in SlotsOfData(init).value {
          var k :| 0 <= k < |init| && init[k].1.JArr? && StartIn(s.time, init[k].1.items);
          assert fields[k] == init[k];
        } else {
          assert StartIn(s.time, fields[|fields| - 1].1.items);
        }
      }
    }
  }

  /** Some dict in `items` has `start` equal to `time`. */
  predicate StartIn(time: string, items: seq<Json>)
  {
    exists i :: 0 <= i < |items| && items[i].JObj? && Get(items[i].fields, "start") == Some(JStr(time))
  }

  lemma {:induction false} ListSlotsComeFromStarts(items: seq<Json>)
    requires SlotsOfList(items).Some?
    ensures forall s :: s in SlotsOfList(items).value ==>
      s.attendees == 1 && s.bookingUid == None && StartIn(s.time, items)
  {
    if items != [] {
      var init := items[..|items| - 1];
      ListSlotsComeFromStarts(init);
      forall s | s in SlotsOfList(items).value
        ensures StartIn(s.time, items)
      {
        if s in SlotsOfList(init).value {
          var i :| 0 <= i < |init| && init[i].JObj? && Get(init[i].fields, "start") == Some(JStr(s.time));
          assert items[i] == init[i];
        } else {
          assert items[|items| - 1].JObj? && Get(items[|items| - 1].fields, "start") == Some(JStr(s.time));
        }
      }
    }
  }

  /** When every `start` is a string, every dict with a `start` in a list
      value contributes exactly one slot. */
  lemma {:induction false} ListSlotsCount(items: seq<Json>)
    requires SlotsOfList(items).Some?
    ensures |SlotsOfList(items).value| == CountStarts(items)
  {
    if items != [] {
      ListSlotsCount(items[..|items| - 1]);
    }
  }

  /** The number of dicts with a `start` key among `items`. */
  function CountStarts(items: seq<Json>): nat
  {
    if items == [] then 0
    else
      var last := items[|items| - 1];
      CountStarts(items[..|items| - 1]) + (if last.JObj? && Get(last.fields, "start").Some? then 1 else 0)
  }

  // --------------------------------------------------------- booking mapping

  /** A `str` field: a JSON string, or `default` when the key is absent.
      Anything else fails validation. */
  function StrField(fields: Object, key: string, default: string): (r: Result<string>)
    ensures Get(fields, key).None? ==> r == Success(default)
    ensures Get(fields, key).Some? ==> (r.Success? <==> Get(fields, key).value.JStr?)
  {
    match Get(fields, key)
    case None => Success(default)
    case Some(JStr(v)) => Success(v)
    case Some(_) => Failure("validation error")
  }

  /** An `Optional[str]` field: a JSON string, or `None` for null or absence. */
  function OptStrField(fields: Object, key: string): (r: Result<Option<string>>)
    ensures Get(fields, key).None? ==> r == Success(None)
  {
    match Get(fields, key)
    case None => Success(None)
    case Some(JNull) => Success(None)
    case Some(JStr(v)) => Success(Some(v))
    case Some(_) => Failure("validation error")
  }

  /** `d.get(primary) or d.get(fallback, "")`: the primary key wins unless it
      is missing or falsy. */
  function EitherField(fields: Object, primary: string, fallback: string): (r: Result<string>)
    ensures Get(fields, primary).Some? && Get(fields, primary).value.JStr? && Get(fields, primary).value.s != ""
      ==> r == Success(Get(fields, primary).value.s)
    ensures (Get(fields, primary).None? || !Truthy(Get(fields, primary).value))
      ==> r == StrField(fields, fallback, "")
  {
    var p := Get(fields, primary);
    if p.Some? && Truthy(p.value) then
      (if p.value.JStr? then Success(p.value.s) else Failure("validation error"))
    else StrField(fields, fallback, "")
  }

  predicate AllObjects(items: seq<Json>) { forall i :: 0 <= i < |items| ==> items[i].JObj? }

  function ObjectsOf(items: seq<Json>): (r: seq<Object>)
    requires AllObjects(items)
    ensures |r| == |items| && forall i :: 0 <= i < |items| ==> r[i] == items[i].fields
  {
    if items == [] then [] else [items[0].fields] + ObjectsOf(items[1..])
  }

  /** `_map_booking_v2_to_model`: a v2 booking object as a `Booking`;
      `Failure` where the model's validation raises. */
  function MapBooking(b: Object): (r: Result<Booking>)
  {
    var id := GetOr(b, "id", JNum(0));
    var uid := OptStrField(b, "uid");
    var title := StrField(b, "title", "");
    var description := OptStrField(b, "description");
    var start := EitherField(b, "start", "startTime");
    var end := EitherField(b, "end", "endTime");
    var attendees := GetOr(b, "attendees", JArr([]));
    var status := StrField(b, "status", "");
    var eventType := GetOr(b, "eventType", JObj([]));
    if !id.JNum? || uid.Failure? || title.Failure? || description.Failure? || start.Failure?
       || end.Failure? || !attendees.JArr? || !AllObjects(attendees.items) || status.Failure?
       || !eventType.JObj?
    then Failure("validation error")
    else Success(Booking(id.n, uid.value, title.value, description.value, start.value, end.value,
                         ObjectsOf(attendees.items), status.value, eventType.fields))
  }

  /** What the mapping takes from where: `start` before `startTime`, `end`
      before `endTime`, and defaults for absent keys. */
  lemma MapBookingFields(b: Object)
    requires MapBooking(b).Success?
    ensures var r := MapBooking(b).value;
      && (Get(b, "id").None? ==> r.id == 0)
      && (Get(b, "id").Some? ==> Get(b, "id").value == JNum(r.id))
      && (Get(b, "title").None? ==> r.title == "")
      && (Get(b, "status").None? ==> r.status == "")
      && (Get(b, "uid").None? ==> r.uid == None)
      && (Get(b, "start") == Some(JStr(r.startTime)) || (Get(b, "start").None? || !Truthy(Get(b, "start").value)))
      && (Get(b, "start").Some? && Truthy(Get(b, "start").value) ==> Get(b, "start") == Some(JStr(r.startTime)))
      && (Get(b, "start").None? && Get(b, "startTime").None? ==> r.startTime == "")
      && (Get(b, "end").Some? && Truthy(Get(b, "end").value) ==> Get(b, "end") == Some(JStr(r.endTime)))
      && (Get(b, "end").None? && Get(b, "endTime").None? ==> r.endTime == "")
  {
  }

  // ------------------------------------------------------------- create

  /** The request's fields in declaration order, `None` for unset ones. */
  function RequestFields(r: BookingRequest): seq<(string, Option<Json>)>
  {
    [("eventTypeId", Some(JNum(r.eventTypeId))),
     ("start", Some(JStr(r.start))),
     ("attendee", Some(JObj(r.attendee))),
     ("location", OptObj(r.location)),
     ("end", OptStr(r.end)),
     ("lengthInMinutes", if r.lengthInMinutes.Some? then Some(JNum(r.lengthInMinutes.value)) else None),
     ("bookingFieldsResponses", OptObj(r.bookingFieldsResponses)),
     ("eventTypeSlug", OptStr(r.eventTypeSlug)),
     ("username", OptStr(r.username)),
     ("teamSlug", OptStr(r.teamSlug)),
     ("organizationSlug", OptStr(r.organizationSlug)),
     ("guests", if r.guests.Some? then Some(JArr(StrItems(r.guests.value))) else None),
     ("metadata", OptObj(r.metadata)),
     ("routing", OptObj(r.routing)),
     ("meetingUrl", OptStr(r.meetingUrl)),
     ("title", OptStr(r.title)),
     ("description", OptStr(r.description))]
  }

  function OptStr(v: Option<string>): Option<Json> { if v.Some? then Some(JStr(v.value)) else None }

  function OptObj(v: Option<Object>): Option<Json> { if v.Some? then Some(JObj(v.value)) else None }

  function StrItems(ss: seq<string>): (r: seq<Json>)
    ensures |r| == |ss|
  {
    if ss == [] then [] else [JStr(ss[0])] + StrItems(ss[1..])
  }

  /** `{k: v for k, v in fields if v is not None}` */
  function DropNone(fields: seq<(string, Option<Json>)>): (r: Object)
    ensures |r| <= |fields|
  {
    if fields == [] then []
    else (if fields[0].1.Some? then [(fields[0].0, fields[0].1.value)] else []) + DropNone(fields[1..])
  }

  /** The filtered dict holds exactly the set fields, with their values. */
  lemma {:induction false} DropNoneExactly(fields: seq<(string, Option<Json>)>)
    ensures forall p :: p in DropNone(fields) <==> (p.0, Some(p.1)) in fields
  {
    if fields != [] {
      DropNoneExactly(fields[1..]);
      assert forall q :: q in fields <==> q == fields[0] || q in fields[1..];
    }
  }

  /** The create payload. */
  function Payload(r: BookingRequest): Object
  {
    DropNone(RequestFields(r))
  }

  /** The payload always carries the three required fields, and carries
      `title`, `end` and `description` whenever they are set. */
  lemma PayloadFields(r: BookingRequest)
    ensures ("eventTypeId", JNum(r.eventTypeId)) in Payload(r)
    ensures ("start", JStr(r.start)) in Payload(r)
    ensures ("attendee", JObj(r.attendee)) in Payload(r)
    ensures r.title.Some? ==> ("title", JStr(r.title.value)) in Payload(r)
    ensures r.end.Some? ==> ("end", JStr(r.end.value)) in Payload(r)
    ensures r.description.Some? ==> ("description", JStr(r.description.value)) in Payload(r)
  {
    var fs := RequestFields(r);
    DropNoneKeeps(fs, 0);
    DropNoneKeeps(fs, 1);
    DropNoneKeeps(fs, 2);
    if r.end.Some? { DropNoneKeeps(fs, 4); }
    if r.title.Some? { DropNoneKeeps(fs, 15); }
    if r.description.Some? { DropNoneKeeps(fs, 16); }
  }

  /** The payload carries `title` only when it is set, with its value. */
  lemma PayloadTitleOnlySet(r: BookingRequest)
    ensures forall v :: ("title", v) in Payload(r) ==> r.title.Some? && v == JStr(r.title.value)
  {
    var fs := RequestFields(r);
    DropNoneExactly(fs);
    OnlyAt(fs, "title", 15);
  }

  /** The payload carries `end` only when it is set, with its value. */
  lemma PayloadEndOnlySet(r: BookingRequest)
    ensures forall v :: ("end", v) in Payload(r) ==> r.end.Some? && v == JStr(r.end.value)
  {
    var fs := RequestFields(r);
    DropNoneExactly(fs);
    OnlyAt(fs, "end", 4);
  }

  /** The payload carries `description` only when it is set, with its value. */
  lemma PayloadDescriptionOnlySet(r: BookingRequest)
    ensures forall v :: ("description", v) in Payload(r) ==> r.description.Some? && v == JStr(r.description.value)
  {
    var fs := RequestFields(r);
    DropNoneExactly(fs);
    OnlyAt(fs, "description", 16);
  }

  /** A key whose only entry is at index `i` has only that entry's value. */
  lemma OnlyAt(fields: seq<(string, Option<Json>)>, key: string, i: nat)
    requires i < |fields| && fields[i].0 == key
    requires forall p :: p in fields[..i] + fields[i + 1..] ==> p.0 != key
    ensures forall v :: (key, Some(v)) in fields ==> fields[i].1 == Some(v)
  {
    assert fields == fields[..i] + [fields[i]] + fields[i + 1..];
  }

  lemma {:induction false} DropNoneKeeps(fields: seq<(string, Option<Json>)>, i: nat)
    requires i < |fields| && fields[i].1.Some?
    ensures (fields[i].0, fields[i].1.value) in DropNone(fields)
  {
    if i > 0 { DropNoneKeeps(fields[1..], i - 1); }
  }

  /** Python's `a or b` on optional strings. */
  function OrElse(a: Option<string>, b: string): (r: string)
    ensures a.Some? && a.value != "" ==> r == a.value
    ensures a.None? || a.value == "" ==> r == b
  {
    if a.Some? && a.value != "" then a.value else b
  }

  /** The booking `create_booking` reports when the response has no data. */
  function FallbackBooking(r: BookingRequest): (b: Booking)
    ensures b.id == 0 && b.uid == None && b.status == "confirmed"
    ensures b.title == (if r.title.Some? && r.title.value != "" then r.title.value else "Meeting")
    ensures b.startTime == r.start
    ensures b.endTime == (if r.end.Some? && r.end.value != "" then r.end.value else r.start)
    ensures b.attendees == [r.attendee] && b.description == r.description
    ensures b.eventType == [("id", JNum(r.eventTypeId))]
  {
    Booking(0, None, OrElse(r.title, "Meeting"), r.description, r.start, OrElse(r.end, r.start),
            [r.attendee], "confirmed", [("id", JNum(r.eventTypeId))])
  }

  /** `create_booking`: the mapped `data` when it is truthy, the fallback when
      it is missing or falsy; every failure is re-raised. */
  function CreateBooking(r: BookingRequest, response: Result<Json>): (b: Result<Booking>)
    ensures response.Failure? ==> b.Failure?
    ensures response.Success? && response.value.JObj?
      && (Get(response.value.fields, "data").None? || !Truthy(Get(response.value.fields, "data").value))
      ==> b == Success(FallbackBooking(r))
    ensures response.Success? && response.value.JObj? && Get(response.value.fields, "data").Some?
      && Get(response.value.fields, "data").value.JObj? && Truthy(Get(response.value.fields, "data").value)
      ==> b.Success? == MapBooking(Get(response.value.fields, "data").value.fields).Success?
  {
    if response.Failure? || !response.value.JObj? then Failure("Failed to create booking")
    else
      var data := GetOr(response.value.fields, "data", JObj([]));
      if !Truthy(data) then Success(FallbackBooking(r))
      else if !data.JObj? then Failure("Failed to create booking")
      else
        var m := MapBooking(data.fields);
        if m.Failure? then Failure("Failed to create booking") else m
  }

  // --------------------------------------------------- list, cancel, reschedule

  /** Every item is an object that maps to a booking. */
  predicate AllMap(items: seq<Json>)
  {
    forall i :: 0 <= i < |items| ==> items[i].JObj? && MapBooking(items[i].fields).Success?
  }

  /** `get_bookings`: every element of `data` mapped, or the empty list when
      anything fails. */
  function GetBookings(response: Result<Json>): (r: seq<Booking>)
    ensures response.Failure? || !response.value.JObj? ==> r == []
    ensures response.Success? && response.value.JObj? ==>
      var data := GetOr(response.value.fields, "data", JArr([]));
      && (!data.JArr? ==> r == [])
      && (data.JArr? && !AllMap(data.items) ==> r == [])
      && (data.JArr? && AllMap(data.items) ==>
            |r| == |data.items| && forall i :: 0 <= i < |r| ==> MapBooking(data.items[i].fields) == Success(r[i]))
  {
    if response.Failure? || !response.value.JObj? then []
    else
      match GetOr(response.value.fields, "data", JArr([]))
      case JArr(items) =>
        if !AllObjects(items) then [] else
        var mapped := MapAll(ObjectsOf(items));
        if mapped.None? then [] else mapped.value
      case JObj(fields) => []
      case JStr(s) => []
      case _ => []
  }

  /** Maps every object; `None` if one fails. */
  function MapAll(objs: seq<Object>): (r: Option<seq<Booking>>)
    ensures r.Some? <==> forall i :: 0 <= i < |objs| ==> MapBooking(objs[i]).Success?
    ensures r.Some? ==> |r.value| == |objs|
    ensures r.Some? ==> forall i :: 0 <= i < |objs| ==> MapBooking(objs[i]) == Success(r.value[i])
  {
    if objs == [] then Some([])
    else
      var first := MapBooking(objs[0]);
      var rest := MapAll(objs[1..]);
      if first.Failure? || rest.None? then None
      else
        assert forall i :: 0 < i < |objs| ==> objs[i] == objs[1..][i - 1];
        Some([first.value] + rest.value)
  }

  /** The body `cancel_booking` posts. */
  function CancelBody(reason: Option<string>, cancelSubsequent: bool): (body: Object)
    ensures (exists v :: ("cancellationReason", v) in body) <==> reason.Some? && reason.value != ""
    ensures reason.Some? && reason.value != "" ==> ("cancellationReason", JStr(reason.value)) in body
    ensures (exists v :: ("cancelSubsequentBookings", v) in body) <==> cancelSubsequent
    ensures cancelSubsequent ==> ("cancelSubsequentBookings", JBool(true)) in body
  {
    var a: Object := if reason.Some? && reason.value != "" then [("cancellationReason", JStr(reason.value))] else [];
    var b: Object := if cancelSubsequent then [("cancelSubsequentBookings", JBool(true))] else [];
    a + b
  }

  /** The truthiness of what `cancel_booking` returns: `status == "success"`
      or `success`, which counts as true when absent; any failure is false. */
  predicate CancelSucceeded(response: Result<Json>)
  {
    response.Success? && response.value.JObj? &&
    (Get(response.value.fields, "status") == Some(JStr("success"))
     || Truthy(GetOr(response.value.fields, "success", JBool(true))))
  }

  /** An empty response body (`{}`) counts as a successful cancel, a failed
      request never does, and an explicit `success: false` without a success
      status is a failure. */
  lemma CancelOutcomes(response: Result<Json>)
    ensures response == Success(JObj([])) ==> CancelSucceeded(response)
    ensures response.Failure? ==> !CancelSucceeded(response)
    ensures response.Success? && response.value.JObj?
      && Get(response.value.fields, "status").None?
      && Get(response.value.fields, "success") == Some(JBool(false))
      ==> !CancelSucceeded(response)
  {
  }

  /** `cancel_booking` as written: its request carries no version header, so
      `_make_request` raises before sending and the `except` returns False
      whatever the service would have answered. */
  predicate CancelBookingAsWritten(value: string, response: Result<Json>)
  {
    MergeHeadersAsWritten(CallerHeaders(CancelCall), value).Success? && CancelSucceeded(response)
  }

  /** As written, every cancel reports failure, even for the empty answer
      that the intended client counts as success. */
  lemma CancelAsWrittenAlwaysFalse(value: string, response: Result<Json>)
    ensures !CancelBookingAsWritten(value, response)
    ensures CancelSucceeded(Success(JObj([]))) && !CancelBookingAsWritten(value, Success(JObj([])))
  {
    HeaderlessCallsRaise(CancelCall, value);
  }

  /** `get_booking` as written: it passes no headers either. */
  function GetBookingAsWritten(value: string, response: Result<Json>): Option<Booking>
  {
    if MergeHeadersAsWritten(CallerHeaders(GetCall), value).Failure? then None else BookingOrNone(response)
  }

  /** As written, `get_booking` returns None for every answer. */
  lemma GetBookingAsWrittenNone(value: string, response: Result<Json>)
    ensures GetBookingAsWritten(value, response).None?
  {
    HeaderlessCallsRaise(GetCall, value);
  }

  /** `reschedule_booking` and `get_booking`: the mapped `data`, or `None`
      when it is missing or falsy or anything fails. */
  function BookingOrNone(response: Result<Json>): (r: Option<Booking>)
    ensures response.Failure? ==> r.None?
    ensures response.Success? && response.value.JObj?
      && (Get(response.value.fields, "data").None? || !Truthy(Get(response.value.fields, "data").value))
      ==> r.None?
    ensures r.Some? ==> (response.Success? && response.value.JObj?
      && exists d :: Get(response.value.fields, "data") == Some(JObj(d)) && MapBooking(d) == Success(r.value))
  {
    if response.Failure? || !response.value.JObj? then None
    else
      var data := GetOr(response.value.fields, "data", JObj([]));
      if !Truthy(data) || !data.JObj? then None
      else
        var m := MapBooking(data.fields);
        if m.Failure? then None else Some(m.value)
  }
}
