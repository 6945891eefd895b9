/** `AcademicPlanner`: the month-by-month academic calendar. The calendar is
    loaded from the proxy and cached in `localStorage` under "plannerData"
    with no check of its shape; the user steps through its months. */
module AcademicPlanner {
  import opened JsValues
  import opened JsonText
  import opened Http
  import opened WebStorage

  /** The component's state. */
  datatype PlannerState = PlannerState(
    currentMonthIndex: int,
    currentDateIndex: int,
    plannerData: Json,
    loading: bool,
    error: Json,
    isOffline: bool)

  const Initial: PlannerState := PlannerState(3, 1, Null, true, Null, false)

  const NoTokenMessage: string := "Authentication token not found"
  const CachedMessage: string := "Network error. Displaying cached data."
  const FailedMessage: string := "Failed to fetch planner data"

  /** `error.response?.data?.message || error.message || "Failed to fetch
      planner data"` */
  function FailureMessage(e: Error): (m: Json)
    ensures IsTruthy(m)
    ensures e.HttpError? && Truthy(Member(Some(e.body), "message")) ==> m == Member(Some(e.body), "message").value
    ensures !(e.HttpError? && Truthy(Member(Some(e.body), "message"))) ==>
      m == Str(if Message(e) != "" then Message(e) else FailedMessage)
  {
    var fromBody := if e.HttpError? then Member(Some(e.body), "message") else None;
    if Truthy(fromBody) then fromBody.value
    else Str(if Message(e) != "" then Message(e) else FailedMessage)
  }

  /** The state after showing a cached calendar. */
  function ShowCache(s: PlannerState, cached: Json): PlannerState
  {
    s.(plannerData := cached, loading := false, isOffline := true)
  }

  /** `fetchPlannerData`: the new state and what is written to the cache,
      given the cached calendar, whether a token cookie is set and the
      answer of the proxy. Every answer is cached as it came. */
  function Fetch(s: PlannerState, cache: Option<Json>, hasToken: bool, response: Response): (PlannerState, Option<Json>)
  {
    var s1 := if hasToken then s.(loading := true, error := Null, isOffline := false) else s;
    var e :=
      if !hasToken then Thrown(NoTokenMessage)
      else if response.Failed? then response.error
      else Thrown("");
    if hasToken && response.Ok? then
      (s1.(plannerData := response.body, loading := false, error := Null), Some(response.body))
    else if cache.Some? then (ShowCache(s1, cache.value).(error := Str(CachedMessage)), None)
    else (s1.(loading := false, error := FailureMessage(e)), None)
  }

  /** A successful answer is cached and shown whatever its shape, and the
      error is cleared. */
  lemma FetchSuccess(s: PlannerState, cache: Option<Json>, body: Json)
    ensures var (t, w) := Fetch(s, cache, true, Ok(body));
      w == Some(body) && t.plannerData == body && t.error == Null && !t.loading && !t.isOffline
  {
  }

  /** Any failure, a missing token included, shows the cache when there is
      one; otherwise the calendar is left as it was and the error is set.
      Nothing is written. */
  lemma FetchFailure(s: PlannerState, cache: Option<Json>, hasToken: bool, response: Response)
    requires !(hasToken && response.Ok?)
    ensures var (t, w) := Fetch(s, cache, hasToken, response);
      && w.None? && !t.loading
      && (cache.Some? ==> t.plannerData == cache.value && t.isOffline && t.error == Str(CachedMessage))
      && (cache.None? ==> t.plannerData == s.plannerData && IsTruthy(t.error))
      && (cache.None? && hasToken && response.Failed? ==> t.error == FailureMessage(response.error))
  {
  }

  /** `getMonths`: the calendar's keys, or none when there is no calendar. */
  function Months(plannerData: Json): (ms: seq<string>)
    ensures !IsTruthy(plannerData) ==> ms == []
    ensures plannerData.Obj? ==> ms == FieldKeys(plannerData.fields)
    ensures plannerData.Arr? ==> ms == seq(|plannerData.items|, i requires 0 <= i < |plannerData.items| => NatToString(i))
    ensures plannerData.Str? ==> ms == seq(|plannerData.s|, i requires 0 <= i < |plannerData.s| => NatToString(i))
    ensures plannerData.Num? || plannerData.Bool? ==> ms == []
  {
    if !IsTruthy(plannerData) then [] else Keys(Some(plannerData)).value
  }

  /** `months[currentMonthIndex] || ""` */
  function CurrentMonth(months: seq<string>, index: int): (m: string)
    ensures 0 <= index < |months| ==> m == months[index]
    ensures !(0 <= index < |months|) ==> m == ""
  {
    if 0 <= index < |months| then months[index] else ""
  }

  /** `Math.max(0, i - 1)` */
  function PreviousIndex(i: int): (j: int)
    ensures j >= 0
    ensures i > 0 ==> j == i - 1
    ensures i <= 0 ==> j == 0
  {
    if i - 1 > 0 then i - 1 else 0
  }

  /** `Math.min(months.length - 1, i + 1)` */
  function NextIndex(count: nat, i: int): (j: int)
    ensures j <= count - 1 && j <= i + 1
    ensures j == i + 1 || j == count - 1
  {
    if count - 1 < i + 1 then count - 1 else i + 1
  }

  /** With no months at all, "next" moves to -1. */
  lemma NextWithoutMonths(i: int)
    requires i >= 0
    ensures NextIndex(0, i) == -1
  {
  }

  /** Stepping either way from a month in range stays in range. */
  lemma StepsStayInRange(count: nat, i: int)
    requires 0 <= i < count
    ensures 0 <= PreviousIndex(i) < count
    ensures 0 <= NextIndex(count, i) < count
  {
  }

  /** What the page shows. */
  datatype Screen =
    | Loading
    | ErrorScreen(message: Json)
      /** The planner for the month named `month`, with the offline note
          when `offline`. */
    | Planner(month: string, offline: bool)

  function Render(s: PlannerState): (r: Screen)
    ensures r.ErrorScreen? <==> !s.loading && IsTruthy(s.error) && !s.isOffline
  {
    if s.loading then Loading
    else if IsTruthy(s.error) && !s.isOffline then ErrorScreen(s.error)
    else Planner(CurrentMonth(Months(s.plannerData), s.currentMonthIndex), s.isOffline)
  }

  /** A failure shows the cached calendar rather than the error screen when
      there is a cache, and the error screen otherwise (unless the page was
      already offline and had no token to clear that flag). */
  lemma FailureScreen(s: PlannerState, cache: Option<Json>, hasToken: bool, response: Response)
    requires !(hasToken && response.Ok?)
    ensures var t := Fetch(s, cache, hasToken, response).0;
      && (cache.Some? ==> Render(t).Planner? && Render(t).offline)
      && (cache.None? && (hasToken || !s.isOffline) ==> Render(t).ErrorScreen?)
  {
  }

  /** The planner page: its state and its handlers. */
  class Page {
    var currentMonthIndex: int
    var currentDateIndex: int
    var plannerData: Json
    var loading: bool
    var error: Json
    var isOffline: bool

    constructor ()
      ensures State() == Initial
    {
      currentMonthIndex, currentDateIndex, plannerData := 3, 1, Null;
      loading, error, isOffline := true, Null, false;
    }

    function State(): PlannerState
      reads this
    {
      PlannerState(currentMonthIndex, currentDateIndex, plannerData, loading, error, isOffline)
    }

    /** `fetchPlannerData`, with the proxy's answer given. */
    method FetchPlannerData(storage: LocalStorage, jar: CookieJar, response: Response)
      requires storage.Valid()
      modifies this, storage
      ensures storage.Valid()
      ensures var (s, w) := Fetch(old(State()), old(storage.CacheOf(PlannerKey)), old(jar.Has("token")), response);
        && State() == s
        && storage.items == if w.Some? then old(storage.items)[PlannerKey := Serialize(w.value)] else old(storage.items)
    {
      var hasToken := jar.Has("token");
      var cache := storage.CacheOf(PlannerKey);
      var failure: Error;
      if !hasToken {
        failure := Thrown(NoTokenMessage);
      } else {
        loading, error, isOffline := true, Null, false;
        match response
        case Ok(body) =>
          storage.Store(PlannerKey, body);
          plannerData, loading, error := body, false, Null;
          return;
        case Failed(e) =>
          failure := e;
      }
      if cache.Some? {
        plannerData, loading, isOffline := cache.value, false, true;
        error := Str(CachedMessage);
        return;
      }
      loading, error := false, FailureMessage(failure);
    }

    /** `componentDidMount`: today's month and day are set; offline with a
        cache, the cache is shown without a request, otherwise a fetch
        follows. */
    method ComponentDidMount(storage: LocalStorage, jar: CookieJar, online: bool, month: int, day: int, response: Response)
      returns (fetched: bool)
      requires storage.Valid()
      modifies this, storage
      ensures storage.Valid()
      ensures fetched <==> !(old(storage.Cached(PlannerKey)) && !online)
      ensures var s0 := old(State()).(currentMonthIndex := month, currentDateIndex := day);
        && (!fetched ==> State() == ShowCache(s0, old(storage.Load(PlannerKey))) && storage.items == old(storage.items))
        && (fetched ==> var (s, w) := Fetch(s0, old(storage.CacheOf(PlannerKey)), old(jar.Has("token")), response);
              && State() == s
              && storage.items == if w.Some? then old(storage.items)[PlannerKey := Serialize(w.value)] else old(storage.items))
    {
      fetched := !(storage.Cached(PlannerKey) && !online);
      currentMonthIndex, currentDateIndex := month, day;
      if !fetched {
        plannerData, loading, isOffline := storage.Load(PlannerKey), false, true;
      } else {
        FetchPlannerData(storage, jar, response);
      }
    }

    /** `handlePreviousMonth` */
    method HandlePreviousMonth()
      modifies this
      ensures State() == old(State()).(currentMonthIndex := PreviousIndex(old(currentMonthIndex)))
    {
      currentMonthIndex := if currentMonthIndex - 1 > 0 then currentMonthIndex - 1 else 0;
    }

    /** `handleNextMonth` */
    method HandleNextMonth()
      modifies this
      ensures State() == old(State()).(currentMonthIndex := NextIndex(|Months(old(plannerData))|, old(currentMonthIndex)))
    {
      var count := |Months(plannerData)|;
      currentMonthIndex := if count - 1 < currentMonthIndex + 1 then count - 1 else currentMonthIndex + 1;
    }
  }
}
