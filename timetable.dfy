/** `TimeTable`: the timetable page. It loads the week's timetable from the
    proxy (falling back to the `localStorage` copy, or to a built-in sample),
    normalises the payloads the campus API is known to return, and lists
    the slots of the selected day. */
module TimeTable {
  import opened JsValues
  import opened JsonText
  import opened Http
  import opened WebStorage
  import opened TimeTableBlock

  // ---------------------------------------------------------------------
  // The placeholder timetable

  const SampleSlot: Json := Obj([
    ("subject_name", Str("Software Engineering in Artificial Intelligence")),
    ("subject_type", Str("Theory")),
    ("room_code", Str("AY2024-25-EVEN"))])

  const SampleTimetable: Json := Obj([
    ("Day1", Obj([("12:30 - 01:20", SampleSlot), ("01:25 - 02:15", SampleSlot)])),
    ("Day2", Obj([])),
    ("Day3", Obj([])),
    ("Day4", Obj([])),
    ("Day5", Obj([]))])

  /** Shown, and cached, when nothing better is available. */
  const SampleData: Json := Obj([("day_order", Str("1")), ("timetable", SampleTimetable)])

  lemma SampleShape()
    ensures Get(SampleData, "timetable") == Some(SampleTimetable)
    ensures Get(SampleData, "day_order") == Some(Str("1"))
    ensures TimetableShaped(SampleData)
  {
    var fs := SampleData.fields;
    assert fs[0].0 == "day_order" && fs[0].0[0] != "timetable"[0];
    assert fs[1..] == [("timetable", SampleTimetable)];
    assert Lookup(fs[1..], "timetable") == Some(SampleTimetable);
    assert Lookup(fs, "timetable") == Lookup(fs[1..], "timetable");
  }

  // ---------------------------------------------------------------------
  // `adaptApiResponse`

  /** `{ day_order: "1", timetable: t }` */
  function Envelope(t: Json): Json
  {
    Obj([("day_order", Str("1")), ("timetable", t)])
  }

  lemma EnvelopeReads(t: Json)
    ensures Get(Envelope(t), "timetable") == Some(t)
    ensures Get(Envelope(t), "day_order") == Some(Str("1"))
    ensures t.Obj? ==> TimetableShaped(Envelope(t))
  {
    var fs := Envelope(t).fields;
    assert fs[0].0[0] != "timetable"[0];
    assert fs[1..] == [("timetable", t)];
    assert Lookup(fs[1..], "timetable") == Some(t);
  }

  /** The bucket name of day `day`: `Day${day}`. */
  function DayName(day: nat): string
  {
    "Day" + NatToString(day)
  }

  lemma DayNameInjective(d: nat, e: nat)
    requires DayName(d) == DayName(e)
    ensures d == e
  {
    assert DayName(d)[3..] == NatToString(d);
    assert DayName(e)[3..] == NatToString(e);
    NatToStringInjective(d, e);
  }

  /** `item.day_order === day.toString() || item.day_order === day` */
  predicate OnDay(item: Json, day: nat)
  {
    Get(item, "day_order") == Some(Str(NatToString(day))) || Get(item, "day_order") == Some(Num(day))
  }

  /** `data.filter(item => OnDay(item, day))`; `None` where reading
      `day_order` of a `null` record throws. */
  function DayItems(items: seq<Json>, day: nat): (r: Option<seq<Json>>)
    ensures r.None? <==> Null in items
    ensures r.Some? ==> forall x :: x in r.value <==> x in items && OnDay(x, day)
  {
    if items == [] then Some([])
    else if items[0].Null? then None
    else
      match DayItems(items[1..], day)
      case None => None
      case Some(rest) =>
        assert forall x :: x in items <==> x == items[0] || x in items[1..];
        Some(if OnDay(items[0], day) then [items[0]] + rest else rest)
  }

  /** `item.start_time && item.end_time` */
  predicate HasTimes(item: Json)
  {
    Truthy(Get(item, "start_time")) && Truthy(Get(item, "end_time"))
  }

  /** `${item.start_time} - ${item.end_time}` */
  function SlotKey(item: Json): string
  {
    ToString(Get(item, "start_time")) + Dash + ToString(Get(item, "end_time"))
  }

  /** The slot object stored for a record, with the defaults filled in. */
  function SlotRecord(item: Json): Json
  {
    Obj([
      ("subject_name", Or(Get(item, "subject_name"), Str("Unknown Subject"))),
      ("subject_type", Or(Get(item, "subject_type"), Str("N/A"))),
      ("room_code", Or(Get(item, "room_code"), Str("N/A")))])
  }

  lemma SlotRecordReads(item: Json)
    ensures Get(SlotRecord(item), "subject_name") == Some(Or(Get(item, "subject_name"), Str("Unknown Subject")))
    ensures Get(SlotRecord(item), "subject_type") == Some(Or(Get(item, "subject_type"), Str("N/A")))
    ensures Get(SlotRecord(item), "room_code") == Some(Or(Get(item, "room_code"), Str("N/A")))
  {
    assert "subject_name"[8] != "subject_type"[8];
    assert "subject_name"[0] != "room_code"[0] && "subject_type"[0] != "room_code"[0];
    LookupThree("subject_name", "subject_type", "room_code",
      Or(Get(item, "subject_name"), Str("Unknown Subject")),
      Or(Get(item, "subject_type"), Str("N/A")),
      Or(Get(item, "room_code"), Str("N/A")));
  }

  /** Each of three distinct keys finds its own value. */
  lemma LookupThree(k0: string, k1: string, k2: string, v0: Json, v1: Json, v2: Json)
    requires k0 != k1 && k0 != k2 && k1 != k2
    ensures var fs := [(k0, v0), (k1, v1), (k2, v2)];
      Lookup(fs, k0) == Some(v0) && Lookup(fs, k1) == Some(v1) && Lookup(fs, k2) == Some(v2)
  {
    var fs := [(k0, v0), (k1, v1), (k2, v2)];
    var gs := [(k1, v1), (k2, v2)];
    assert fs[1..] == gs && gs[1..] == [(k2, v2)];
    assert Lookup(fs, k1) == Lookup(gs, k1) == Some(v1);
    assert Lookup(fs, k2) == Lookup(gs, k2) == Lookup([(k2, v2)], k2) == Some(v2);
  }

  /** The day object after `forEach` has visited `items` in order. */
  function Bucket(items: seq<Json>): seq<(string, Json)>
  {
    if items == [] then []
    else
      var last := items[|items| - 1];
      var b := Bucket(items[..|items| - 1]);
      if HasTimes(last) then Put(b, SlotKey(last), SlotRecord(last)) else b
  }

  /** The timetable object once days `1..n` are filled. */
  function Days(items: seq<Json>, n: nat): seq<(string, Json)>
    requires Null !in items
  {
    if n == 0 then []
    else Days(items, n - 1) + [(DayName(n), Obj(Bucket(DayItems(items, n).value)))]
  }

  /** `adaptApiResponse(data)`: five day buckets for an array of records,
      an envelope around an object without a `timetable`, and the sample for
      anything else. `None` where it throws: an array holding `null`. */
  function Adapt(data: Json): (r: Option<Json>)
    ensures r.None? <==> data.Arr? && Null in data.items
    ensures r.Some? ==> TimetableShaped(r.value)
  {
    match data
    case Arr(items) =>
      if Null in items then None
      else
        var t := Obj(Days(items, 5));
        EnvelopeReads(t);
        Some(Envelope(t))
    case Obj(_) =>
      if !Truthy(Get(data, "timetable")) then
        EnvelopeReads(data);
        Some(Envelope(data))
      else SampleShape(); Some(SampleData)
    case _ => SampleShape(); Some(SampleData)
  }

  /** `adaptApiResponse` as the page runs it: a loop over the five days,
      each bucket created empty and then filled record by record. */
  method AdaptApiResponse(data: Json) returns (r: Option<Json>)
    ensures r == Adapt(data)
  {
    if data.Arr? {
      var items := data.items;
      var timetable: seq<(string, Json)> := [];
      var day := 1;
      while day <= 5
        invariant 1 <= day <= 6
        invariant day > 1 ==> Null !in items
        invariant Null !in items ==> timetable == Days(items, day - 1)
      {
        var dayKey := DayName(day);
        if Null !in items {
          DayAbsent(items, day - 1, day);
          PutFresh(timetable, dayKey, Obj([]));
        }
        timetable := Put(timetable, dayKey, Obj([]));
        var dayItems := DayItems(items, day);
        if dayItems.None? {
          return None;
        }
        var bucket: seq<(string, Json)> := [];
        var i := 0;
        while i < |dayItems.value|
          invariant 0 <= i <= |dayItems.value|
          invariant bucket == Bucket(dayItems.value[..i])
        {
          var item := dayItems.value[i];
          assert dayItems.value[..i + 1][..i] == dayItems.value[..i];
          if HasTimes(item) {
            bucket := Put(bucket, SlotKey(item), SlotRecord(item));
          }
          i := i + 1;
        }
        assert dayItems.value[..i] == dayItems.value;
        DayAbsent(items, day - 1, day);
        PutLast(Days(items, day - 1), dayKey, Obj([]), Obj(bucket));
        timetable := Put(timetable, dayKey, Obj(bucket));
        day := day + 1;
      }
      r := Some(Envelope(Obj(timetable)));
    } else if data.Obj? && !Truthy(Get(data, "timetable")) {
      r := Some(Envelope(data));
    } else {
      r := Some(SampleData);
    }
  }

  /** Days `1..n` are filled in order, one entry each. */
  lemma {:induction false} DaysShape(items: seq<Json>, n: nat)
    requires Null !in items
    ensures |Days(items, n)| == n
    ensures forall i :: 0 <= i < n ==> Days(items, n)[i] == (DayName(i + 1), Obj(Bucket(DayItems(items, i + 1).value)))
  {
    if n > 0 {
      DaysShape(items, n - 1);
    }
  }

  lemma DayAbsent(items: seq<Json>, n: nat, day: nat)
    requires Null !in items && n < day
    ensures DayName(day) !in FieldKeys(Days(items, n))
  {
    DaysShape(items, n);
    if DayName(day) in FieldKeys(Days(items, n)) {
      var i :| 0 <= i < n && FieldKeys(Days(items, n))[i] == DayName(day);
      DayNameInjective(i + 1, day);
    }
  }

  /** An array payload gives `day_order` "1" and exactly the buckets
      Day1..Day5, in that order, each holding that day's records. */
  lemma AdaptArray(items: seq<Json>)
    requires Null !in items
    ensures var r := Adapt(Arr(items)).value;
      && Get(r, "day_order") == Some(Str("1"))
      && Get(r, "timetable") == Some(Obj(Days(items, 5)))
      && FieldKeys(Days(items, 5)) == ["Day1", "Day2", "Day3", "Day4", "Day5"]
  {
    EnvelopeReads(Obj(Days(items, 5)));
    DaysShape(items, 5);
    var ks := FieldKeys(Days(items, 5));
    assert ks[0] == DayName(1) == "Day1";
    assert ks[1] == DayName(2) == "Day2";
    assert ks[2] == DayName(3) == "Day3";
    assert ks[3] == DayName(4) == "Day4";
    assert ks[4] == DayName(5) == "Day5";
  }

  /** Bucket `d` holds `items[i]` exactly when its `day_order` is `d` or
      `"d"`: records with any other day order land in no bucket. */
  lemma DaysBucket(items: seq<Json>, d: nat)
    requires Null !in items && 1 <= d <= 5
    ensures Lookup(Days(items, 5), DayName(d)) == Some(Obj(Bucket(DayItems(items, d).value)))
    ensures forall x :: x in DayItems(items, d).value <==> x in items && OnDay(x, d)
  {
    DaysShape(items, 5);
    var fs := Days(items, 5);
    if d > 1 {
      assert FieldKeys(fs[..d - 1]) == FieldKeys(fs)[..d - 1];
      if DayName(d) in FieldKeys(fs[..d - 1]) {
        var i :| 0 <= i < d - 1 && FieldKeys(fs[..d - 1])[i] == DayName(d);
        DayNameInjective(i + 1, d);
      }
    }
    LookupAt(fs, d - 1);
  }

  /** Day orders that match no bucket: a number or string outside 1..5,
      and a padded `"01"`. */
  lemma StrayDayOrders(v: Json, d: nat)
    requires v in {Num(0), Num(6), Str("0"), Str("6"), Str("x"), Str("01")}
    requires 1 <= d <= 5
    ensures !OnDay(Obj([("day_order", v)]), d)
  {
    assert NatToString(d) == [DigitChar(d)];
  }

  /** A slot key is present in a bucket exactly when some record with both
      times has that key. */
  lemma {:induction false} BucketKeys(items: seq<Json>, k: string)
    ensures Lookup(Bucket(items), k).Some? <==> exists x :: x in items && HasTimes(x) && SlotKey(x) == k
  {
    if items != [] {
      var init, last := items[..|items| - 1], items[|items| - 1];
      assert items == init + [last];
      BucketKeys(init, k);
      if HasTimes(last) {
        PutLookup(Bucket(init), SlotKey(last), SlotRecord(last));
      }
      assert forall x :: x in items <==> x in init || x == last;
    }
  }

  /** A later record for the same slot overwrites the earlier one; other
      slots are untouched. */
  lemma BucketLatest(items: seq<Json>, item: Json, k: string)
    requires HasTimes(item)
    ensures Lookup(Bucket(items + [item]), SlotKey(item)) == Some(SlotRecord(item))
    ensures k != SlotKey(item) ==> Lookup(Bucket(items + [item]), k) == Lookup(Bucket(items), k)
  {
    assert (items + [item])[..|items|] == items;
    PutLookup(Bucket(items), SlotKey(item), SlotRecord(item));
  }

  /** A record without both times is dropped. */
  lemma BucketSkips(items: seq<Json>, item: Json)
    requires !HasTimes(item)
    ensures Bucket(items + [item]) == Bucket(items)
  {
    assert (items + [item])[..|items|] == items;
  }

  /** An object without a `timetable` is wrapped unchanged; other
      non-arrays become the sample. */
  lemma AdaptOther(data: Json)
    requires !data.Arr?
    ensures data.Obj? && !Truthy(Get(data, "timetable")) ==>
      Adapt(data) == Some(Obj([("day_order", Str("1")), ("timetable", data)]))
    ensures !data.Obj? ==> Adapt(data) == Some(SampleData)
  {
  }

  /** Round trip with `TimeTableBlock`: a slot built from times `s` and `e`
      is displayed with start `s`, end `e` and the record's fields. */
  lemma SlotRoundTrip(item: Json, s: string, e: string)
    requires Get(item, "start_time") == Some(Str(s)) && Get(item, "end_time") == Some(Str(e))
    requires !Contains(s, Dash) && !EndsWith(s, " -") && !Contains(e, Dash)
    ensures Block([(SlotKey(item), SlotRecord(item))]) == Some(SlotView(s, Some(e),
      Some(Or(Get(item, "subject_name"), Str("Unknown Subject"))),
      Some(Or(Get(item, "subject_type"), Str("N/A"))),
      Some(Or(Get(item, "room_code"), Str("N/A")))))
  {
    SplitJoin(s, e);
    SlotRecordReads(item);
  }

  // ---------------------------------------------------------------------
  // Page state and the loader

  /** The component's state. */
  datatype PageState = PageState(
    selectedDay: Value,
    timetableData: Json,
    loading: bool,
    error: Json,
    today: Value,
    isOffline: bool)

  const Initial: PageState := PageState(Some(Str("1")), Null, true, Null, Some(Str("1")), false)

  const NoTokenMessage: string := "Authentication token not found. Please login again."
  const CachedMessage: string := "Network error. Displaying cached data."
  const FailedMessage: string := "Failed to fetch timetable data. Please try again later."

  /** How the `try` block of `fetchTimetableData` ends: with the data to
      show (`verbatim` when the response is used as it came), or with the
      error it throws. */
  datatype Attempt = Done(data: Json, verbatim: bool) | Threw(error: Error)

  function Try(hasToken: bool, response: Response): (t: Attempt)
    ensures t.Done? <==> hasToken && response.Ok? && !(response.body.Arr? && Null in response.body.items)
    ensures t.Done? ==> TimetableShaped(t.data)
    ensures t.Done? && t.verbatim <==> hasToken && response.Ok? && Truthy(Get(response.body, "timetable"))
    ensures t.Done? && t.verbatim ==> t.data == response.body
    ensures t.Done? && !t.verbatim ==> response.Ok? && Adapt(response.body) == Some(t.data)
    ensures !hasToken ==> t == Threw(Thrown(NoTokenMessage))
  {
    if !hasToken then Threw(Thrown(NoTokenMessage))
    else
      match response
      case Failed(e) => Threw(e)
      case Ok(body) =>
        if IsTruthy(body) && Truthy(Get(body, "timetable")) then Done(body, true)
        else
          match Adapt(body)
          case None => Threw(Thrown(NullRead("day_order")))
          case Some(a) => Done(a, false)
  }

  /** The state after showing a cached payload. */
  function ShowCache(s: PageState, cached: Json): PageState
  {
    var day := Some(Or(Get(cached, "day_order"), Str("1")));
    s.(timetableData := cached, selectedDay := day, today := day, loading := false, isOffline := true)
  }

  /** `fetchTimetableData`: the new state and what is written to the cache,
      given the cached payload, whether a token cookie is set, the answer
      of the proxy and whether the page is still mounted when it comes. */
  function Fetch(s: PageState, cache: Option<Json>, hasToken: bool, response: Response, mounted: bool): (PageState, Option<Json>)
  {
    var s1 := if hasToken then s.(loading := true, error := Null, isOffline := false) else s;
    match Try(hasToken, response)
    case Done(data, verbatim) =>
      if !mounted then (s1, None)
      else if verbatim then
        (s1.(timetableData := data, selectedDay := Get(data, "day_order"), today := Get(data, "day_order"), loading := false), Some(data))
      else (s1.(timetableData := data, loading := false), Some(data))
    case Threw(e) =>
      if cache.Some? && mounted then (ShowCache(s1, cache.value).(error := Str(CachedMessage)), None)
      else if mounted then
        (s1.(error := Str(if Message(e) != "" then Message(e) else FailedMessage), loading := false, timetableData := SampleData), None)
      else (s1, None)
  }

  /** While mounted, the payload shown after a successful fetch is the one
      cached; unmounted, nothing is cached. */
  lemma FetchCaches(s: PageState, cache: Option<Json>, hasToken: bool, response: Response, mounted: bool)
    ensures var (t, w) := Fetch(s, cache, hasToken, response, mounted);
      && (w.Some? <==> mounted && Try(hasToken, response).Done?)
      && (w.Some? ==> w.value == t.timetableData && TimetableShaped(w.value))
      && (mounted && hasToken && response.Ok? && Truthy(Get(response.body, "timetable")) ==>
            w == Some(response.body) && t.selectedDay == t.today == Get(response.body, "day_order"))
      && (mounted && hasToken && response.Ok? && !Truthy(Get(response.body, "timetable")) ==>
            w == Adapt(response.body) && (w.Some? ==> t.timetableData == w.value))
  {
  }

  /** A successful answer that is neither an array nor an object, such as a
      bare number, is replaced by the sample, which is shown and cached. */
  lemma ScalarAnswerCachesSample(s: PageState, cache: Option<Json>, body: Json)
    requires !body.Arr? && !body.Obj?
    ensures Fetch(s, cache, true, Ok(body), true).1 == Some(SampleData)
    ensures Fetch(s, cache, true, Ok(body), true).0.timetableData == SampleData
  {
    AdaptOther(body);
  }

  /** Any failure, a missing token included, shows the cache when there is
      one and the sample when there is none; neither path writes. */
  lemma FetchFailure(s: PageState, cache: Option<Json>, hasToken: bool, response: Response)
    requires Try(hasToken, response).Threw?
    ensures var (t, w) := Fetch(s, cache, hasToken, response, true);
      && w.None? && !t.loading
      && (cache.Some? ==> (t.timetableData == cache.value && t.isOffline
            && t.selectedDay == t.today == Some(Or(Get(cache.value, "day_order"), Str("1")))
            && t.error == Str(CachedMessage)))
      && (cache.None? ==> t.timetableData == SampleData && IsTruthy(t.error))
  {
  }

  /** What `renderTimeTableBlocks` shows. */
  datatype Screen =
    | Loading
    | ErrorMessage(message: Json)
    | InvalidFormat
    | NoSchedule
    | Slots(entries: seq<(string, Json)>)
      /** Reading `subject_name` of a `null` slot throws. */
    | Crash

  /** The entries whose `subject_name` is not "No class", in order; `None`
      when a slot is `null`. */
  function ClassSlots(entries: seq<(string, Json)>): (r: Option<seq<(string, Json)>>)
    ensures r.Some? ==> |r.value| <= |entries|
  {
    if entries == [] then Some([])
    else if entries[0].1.Null? then None
    else
      match ClassSlots(entries[1..])
      case None => None
      case Some(rest) =>
        Some(if Get(entries[0].1, "subject_name") != Some(Str("No class")) then [entries[0]] + rest else rest)
  }

  /** The filter fails exactly on a `null` slot, and otherwise keeps exactly
      the entries that are not "No class". */
  lemma {:induction false} ClassSlotsMeaning(entries: seq<(string, Json)>)
    ensures ClassSlots(entries).None? <==> exists i :: 0 <= i < |entries| && entries[i].1.Null?
    ensures ClassSlots(entries).Some? ==> forall e :: e in ClassSlots(entries).value <==>
      e in entries && Get(e.1, "subject_name") != Some(Str("No class"))
  {
    if entries != [] {
      ClassSlotsMeaning(entries[1..]);
      assert forall e :: e in entries <==> e == entries[0] || e in entries[1..];
      if !entries[0].1.Null? && ClassSlots(entries[1..]).None? {
        var i :| 0 <= i < |entries[1..]| && entries[1..][i].1.Null?;
        assert entries[i + 1].1.Null?;
      }
      if (exists i :: 0 <= i < |entries| && entries[i].1.Null?) && !entries[0].1.Null? {
        var i :| 0 <= i < |entries| && entries[i].1.Null?;
        assert entries[1..][i - 1].1.Null?;
      }
    }
  }

  /** Filtering keeps the entries' order. */
  lemma {:induction false} ClassSlotsAppend(a: seq<(string, Json)>, b: seq<(string, Json)>)
    requires ClassSlots(a).Some? && ClassSlots(b).Some?
    ensures ClassSlots(a + b) == Some(ClassSlots(a).value + ClassSlots(b).value)
  {
    if a == [] {
      assert a + b == b && ClassSlots(a) == Some([]);
      assert [] + ClassSlots(b).value == ClassSlots(b).value;
    } else {
      var e, t := a[0], a[1..];
      assert !e.1.Null? && a[1..] == t;
      assert (a + b)[0] == e && (a + b)[1..] == t + b;
      ClassSlotsAppend(t, b);
      var x, y := ClassSlots(t).value, ClassSlots(b).value;
      if Get(e.1, "subject_name") != Some(Str("No class")) {
        assert [e] + (x + y) == ([e] + x) + y;
      }
    }
  }

  function Render(s: PageState): Screen
  {
    if s.loading then Loading
    else if IsTruthy(s.error) && !IsTruthy(s.timetableData) then ErrorMessage(s.error)
    else
      var data := if IsTruthy(s.timetableData) then s.timetableData else SampleData;
      var timetable := Get(data, "timetable");
      if !Truthy(timetable) then InvalidFormat
      else
        var schedule := Get(timetable.value, "Day" + ToString(s.selectedDay));
        if !Truthy(schedule) then NoSchedule
        else
          match ClassSlots(Entries(schedule).value)
          case None => Crash
          case Some(es) => Slots(es)
  }

  /** The slots listed are exactly the selected day's entries that are not
      "No class", and a missing day shows "No schedule". */
  lemma RenderDay(s: PageState, fields: seq<(string, Json)>)
    requires !s.loading && TimetableShaped(s.timetableData)
    ensures var day := Get(Get(s.timetableData, "timetable").value, "Day" + ToString(s.selectedDay));
      && (!Truthy(day) <==> Render(s) == NoSchedule)
      && (day == Some(Obj(fields)) && ClassSlots(fields).Some? ==> Render(s) == Slots(ClassSlots(fields).value))
  {
  }

  /** Once a fetch settles while mounted, the page shows neither the
      loading text nor an error in place of the timetable, nor the
      invalid-format message. */
  lemma FetchThenRender(s: PageState, cache: Option<Json>, hasToken: bool, response: Response)
    requires cache.Some? ==> TimetableShaped(cache.value)
    ensures var t := Fetch(s, cache, hasToken, response, true).0;
      Render(t) !in {Loading, InvalidFormat} && !Render(t).ErrorMessage?
  {
    var t := Fetch(s, cache, hasToken, response, true).0;
    SampleShape();
    assert TimetableShaped(t.timetableData);
  }

  const SampleDay1: seq<(string, Json)> := [("12:30 - 01:20", SampleSlot), ("01:25 - 02:15", SampleSlot)]

  lemma SampleDay1Slots()
    ensures Get(SampleTimetable, "Day1") == Some(Obj(SampleDay1))
    ensures ClassSlots(SampleDay1) == Some(SampleDay1)
  {
    assert SampleTimetable.fields[0] == ("Day1", Obj(SampleDay1));
    assert Get(SampleSlot, "subject_name") == Some(SampleSlot.fields[0].1);
    var t := SampleDay1[1..];
    assert t[1..] == [] && t[0] == SampleDay1[1] && ClassSlots(t[1..]) == Some([]);
    assert Get(t[0].1, "subject_name") != Some(Str("No class"));
    assert [t[0]] + [] == t;
    assert ClassSlots(t) == Some(t);
    assert [SampleDay1[0]] + t == SampleDay1;
  }

  /** The sample's first day lists its two slots. */
  lemma RenderSample()
    ensures Render(Initial.(loading := false, timetableData := SampleData)) == Slots(SampleDay1)
  {
    var s := Initial.(loading := false, timetableData := SampleData);
    SampleShape();
    SampleDay1Slots();
    assert "Day" + ToString(s.selectedDay) == "Day1";
    assert Entries(Some(Obj(SampleDay1))) == Some(SampleDay1);
  }

  /** The timetable page: its state and its handlers. */
  class Page {
    var selectedDay: Value
    var timetableData: Json
    var loading: bool
    var error: Json
    var today: Value
    var isOffline: bool

    constructor ()
      ensures State() == Initial
    {
      selectedDay, timetableData, loading := Some(Str("1")), Null, true;
      error, today, isOffline := Null, Some(Str("1")), false;
    }

    function State(): PageState
      reads this
    {
      PageState(selectedDay, timetableData, loading, error, today, isOffline)
    }

    method Show(cached: Json)
      modifies this
      ensures State() == ShowCache(old(State()), cached)
    {
      var day := Some(Or(Get(cached, "day_order"), Str("1")));
      timetableData, selectedDay, today, loading, isOffline := cached, day, day, false, true;
    }

    /** `fetchTimetableData`, with the proxy's answer given. */
    method FetchTimetableData(storage: LocalStorage, jar: CookieJar, response: Response, mounted: bool)
      requires storage.Valid()
      modifies this, storage
      ensures storage.Valid()
      ensures var (s, w) := Fetch(old(State()), old(storage.CacheOf(TimetableKey)), old(jar.Has("token")), response, mounted);
        && State() == s
        && storage.items == if w.Some? then old(storage.items)[TimetableKey := Serialize(w.value)] else old(storage.items)
    {
      var hasToken := jar.Has("token");
      var cache := storage.CacheOf(TimetableKey);
      if hasToken {
        loading, error, isOffline := true, Null, false;
      }
      var attempt := Threw(Thrown(NoTokenMessage));
      if hasToken {
        match response
        case Failed(e) =>
          attempt := Threw(e);
        case Ok(body) =>
          if IsTruthy(body) && Truthy(Get(body, "timetable")) {
            attempt := Done(body, true);
          } else {
            var adapted := AdaptApiResponse(body);
            attempt := if adapted.None? then Threw(Thrown(NullRead("day_order"))) else Done(adapted.value, false);
          }
      }
      assert attempt == Try(hasToken, response);
      match attempt
      case Done(data, verbatim) =>
        if mounted {
          storage.Store(TimetableKey, data);
          timetableData := data;
          if verbatim {
            selectedDay, today := Get(data, "day_order"), Get(data, "day_order");
          }
          loading := false;
        }
      case Threw(e) =>
        if cache.Some? && mounted {
          Show(cache.value);
          error := Str(CachedMessage);
        } else if mounted {
          error := Str(if Message(e) != "" then Message(e) else FailedMessage);
          loading, timetableData := false, SampleData;
        }
    }

    /** `componentDidMount`: offline with a cache, show the cache without a
        request; otherwise fetch. */
    method ComponentDidMount(storage: LocalStorage, jar: CookieJar, online: bool, response: Response, mounted: bool)
      returns (fetched: bool)
      requires storage.Valid()
      modifies this, storage
      ensures storage.Valid()
      ensures fetched <==> !(old(storage.Cached(TimetableKey)) && !online)
      ensures !fetched ==> State() == ShowCache(old(State()), old(storage.Load(TimetableKey))) && storage.items == old(storage.items)
      ensures fetched ==> var (s, w) := Fetch(old(State()), old(storage.CacheOf(TimetableKey)), old(jar.Has("token")), response, mounted);
        && State() == s
        && storage.items == if w.Some? then old(storage.items)[TimetableKey := Serialize(w.value)] else old(storage.items)
    {
      fetched := !(storage.Cached(TimetableKey) && !online);
      if !fetched {
        Show(storage.Load(TimetableKey));
      } else {
        FetchTimetableData(storage, jar, response, mounted);
      }
    }

    /** `handleDaySelect(day)` */
    method HandleDaySelect(day: string)
      modifies this
      ensures State() == old(State()).(selectedDay := Some(Str(day)))
    {
      selectedDay := Some(Str(day));
    }
  }
}
