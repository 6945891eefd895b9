/** `PlannerBlock`: the days of one month of the academic calendar, each
    with its date, its label (event, holiday or regular classes), its day
    order and its highlight colours. */
module PlannerBlock {
  import opened JsValues
  import opened JsNumbers

  const HolidayColour: string := "rgba(0,255,56,.8)"
  const TodayColour: string := "violet"

  /** `Holiday.includes(n)`, where `n` is `parseInt(day.Date)` (`None` for
      `NaN`). An array compares its elements with `n` (no JSON number is
      `NaN`); a string looks for `n`'s decimal text, "NaN" included. `None`
      where there is no `includes` to call. */
  function Includes(holiday: Value, n: Option<int>): (r: Option<bool>)
    ensures r.Some? <==> holiday.Some? && (holiday.value.Arr? || holiday.value.Str?)
    ensures r.Some? && holiday.value.Arr? ==> r.value == (n.Some? && Num(n.value) in holiday.value.items)
  {
    match holiday
    case Some(Arr(xs)) => Some(n.Some? && Num(n.value) in xs)
    case Some(Str(s)) => Some(Contains(s, if n.Some? then IntToString(n.value) else "NaN"))
    case _ => None
  }

  /** What one day shows; `current` days get a green border on their date. */
  datatype DayView = DayView(
    date: Value,
    dayName: Value,
    current: bool,
    background: string,
    caption: Json,
    dayOrder: string)

  /** The day-order text: `DO - x`, or "DO -" for a day order of "-". */
  function DayOrderLabel(v: Value): (r: string)
    ensures r == "DO -" <==> v == Some(Str("-"))
  {
    if v != Some(Str("-")) then "DO - " + ToString(v) else "DO -"
  }

  /** The view of one entry of `Data`; `None` where rendering it throws:
      a `null` entry, or a month whose `Holiday` has no `includes`. */
  function View(day: Json, holiday: Value, today: int): (r: Option<DayView>)
    ensures r.Some? <==> !day.Null? && Includes(holiday, ParseInt(Get(day, "Date"))).Some?
    ensures r.Some? ==> (r.value.current <==> ParseInt(Get(day, "Date")) == Some(today))
    ensures r.Some? ==> var isHoliday := Includes(holiday, ParseInt(Get(day, "Date"))).value;
      && r.value.background == (if isHoliday then HolidayColour else if r.value.current then TodayColour else "")
      && r.value.caption == (if Truthy(Get(day, "Event")) then Get(day, "Event").value
                           else if isHoliday then Str("Holiday") else Str("Regular Classes"))
      && r.value.dayOrder == DayOrderLabel(Get(day, "Dayorder"))
      && r.value.date == Get(day, "Date") && r.value.dayName == Get(day, "Day")
  {
    if day.Null? then None
    else
      var date := ParseInt(Get(day, "Date"));
      match Includes(holiday, date)
      case None => None
      case Some(isHoliday) =>
        var current := date == Some(today);
        Some(DayView(
          Get(day, "Date"),
          Get(day, "Day"),
          current,
          if isHoliday then HolidayColour else if current then TodayColour else "",
          if Truthy(Get(day, "Event")) then Get(day, "Event").value
          else if isHoliday then Str("Holiday") else Str("Regular Classes"),
          DayOrderLabel(Get(day, "Dayorder"))))
  }

  /** The views of all days, or `None` when one of them throws. */
  function AllViews(vs: seq<Option<DayView>>): (r: Option<seq<DayView>>)
    ensures r.Some? <==> forall i :: 0 <= i < |vs| ==> vs[i].Some?
    ensures r.Some? ==> |r.value| == |vs| && forall i :: 0 <= i < |vs| ==> r.value[i] == vs[i].value
  {
    if vs == [] then Some([])
    else
      match vs[0]
      case None => None
      case Some(v) =>
        match AllViews(vs[1..])
        case None => None
        case Some(ws) => Some([v] + ws)
  }

  /** `Data.map(...)`: one view per entry, in order. */
  function Views(days: seq<Json>, holiday: Value, today: int): (r: Option<seq<DayView>>)
    ensures r.Some? <==> forall i :: 0 <= i < |days| ==> View(days[i], holiday, today).Some?
    ensures r.Some? ==> |r.value| == |days| && forall i :: 0 <= i < |days| ==> r.value[i] == View(days[i], holiday, today).value
  {
    var vs := seq(|days|, i requires 0 <= i < |days| => View(days[i], holiday, today));
    assert forall i :: 0 <= i < |days| ==> vs[i] == View(days[i], holiday, today);
    AllViews(vs)
  }

  /** What the block renders. */
  datatype Output =
    | NoRecords
    | Days(views: seq<DayView>)
      /** A property read on `null` or a call of a missing method. */
    | Crash

  /** The block for `dateDetails[currentMonth]`. */
  function Block(dateDetails: Json, currentMonth: string, today: int): Output
  {
    if currentMonth == "" then NoRecords
    else if dateDetails.Null? then Crash
    else
      var month := Get(dateDetails, currentMonth);
      if !Truthy(month) then NoRecords
      else
        var data := Get(month.value, "Data");
        if !Truthy(data) || Get(data.value, "length") == Some(Num(0)) then NoRecords
        else if !data.value.Arr? then Crash
        else
          match Views(data.value.items, Get(month.value, "Holiday"), today)
          case None => Crash
          case Some(vs) => Days(vs)
  }

  /** "No records" shows exactly when the month is empty or absent, or its
      `Data` is missing or empty. */
  lemma NoRecordsExactly(dateDetails: Json, currentMonth: string, today: int)
    requires currentMonth != "" ==> !dateDetails.Null?
    ensures var month := Get(dateDetails, currentMonth);
      Block(dateDetails, currentMonth, today) == NoRecords <==>
        || currentMonth == ""
        || !Truthy(month)
        || !Truthy(Get(month.value, "Data"))
        || Get(Get(month.value, "Data").value, "length") == Some(Num(0))
  {
  }

  /** A month given as a non-empty array of days shows the views of those
      days: by `Views`, one per day, in order. */
  lemma OneViewPerDay(dateDetails: Json, currentMonth: string, today: int, days: seq<Json>)
    requires currentMonth != "" && !dateDetails.Null? && days != []
    requires Truthy(Get(dateDetails, currentMonth))
    requires Get(Get(dateDetails, currentMonth).value, "Data") == Some(Arr(days))
    requires forall i :: 0 <= i < |days| ==> View(days[i], Get(Get(dateDetails, currentMonth).value, "Holiday"), today).Some?
    ensures Views(days, Get(Get(dateDetails, currentMonth).value, "Holiday"), today).Some?
    ensures Block(dateDetails, currentMonth, today)
      == Days(Views(days, Get(Get(dateDetails, currentMonth).value, "Holiday"), today).value)
  {
    assert Get(Arr(days), "length") == Some(Num(|days|)) != Some(Num(0));
  }

  /** A day dated with today's number in canonical form is the current
      day, and one dated with any other number is not. */
  lemma CurrentDay(day: Json, holiday: Value, today: int, n: int)
    requires Get(day, "Date") == Some(Str(IntToString(n)))
    requires View(day, holiday, today).Some?
    ensures View(day, holiday, today).value.current <==> n == today
  {
    ParseIntOfIntString(n);
  }

  /** The holiday colour wins over the current-day colour. */
  lemma HolidayColourWins(day: Json, holiday: Value, today: int)
    requires View(day, holiday, today).Some?
    requires Includes(holiday, ParseInt(Get(day, "Date"))) == Some(true)
    ensures View(day, holiday, today).value.background == HolidayColour
  {
  }

  /** A holiday list given as a string matches by text: the string "12"
      marks days 1 and 2 as holidays too. */
  lemma HolidayStringMatchesDigits()
    ensures Includes(Some(Str("12")), Some(1)) == Some(true)
    ensures Includes(Some(Str("12")), Some(2)) == Some(true)
    ensures Includes(Some(Arr([Num(12)])), Some(1)) == Some(false)
  {
    assert IntToString(1) == "1" && IntToString(2) == "2";
    assert OccursAt("12", "1", 0);
    assert OccursAt("12", "2", 1);
  }
}
