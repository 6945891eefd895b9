/** `LowerMenuBlock`: the menu with the academic-report download and the
    logout button. The report is built from the profile the proxy returns,
    cached in `localStorage` under "studentData" once its shape is checked. */
module LowerMenuBlock {
  import opened JsValues
  import opened JsonText
  import opened JsNumbers
  import opened Http
  import opened WebStorage
  import ProtectedRoute

  /** The menu's state. */
  datatype MenuState = MenuState(isOpen: bool, isLoading: bool, error: Json, isOffline: bool)

  const Initial: MenuState := MenuState(false, false, Null, false)

  /** What a handler does beyond its state: alerts, navigation, and asking
      for a report on a profile. `offlineNote` is the `isOffline` value the
      handler's closure captured, that is, the state before the click. */
  datatype Effect = Alert(message: string) | Navigate(path: string) | Report(profile: Json, offlineNote: bool)

  const NoTokenAlert: string := "Authentication token is required. Please log in again."
  const OfflineAlert: string := "Generated PDF using cached data (offline mode)."
  const CachedAlert: string := "Network error. Generated PDF using cached data."
  const ShapeMessage: string := "Invalid response data structure"
  const FailedMessage: string := "Failed to fetch data. Please try again."

  /** How the `try` block ends: with the profile, or the error it throws. */
  function Profile(response: Response): (r: Result)
    ensures r.Fetched? <==> response.Ok? && Truthy(Get(response.body, "userInfo"))
    ensures r.Fetched? ==> IsTruthy(r.profile) && Some(r.profile) == Get(response.body, "userInfo")
  {
    match response
    case Failed(e) => Failure(e)
    case Ok(body) =>
      if !IsTruthy(body) || !Truthy(Get(body, "userInfo")) then Failure(Thrown(ShapeMessage))
      else Fetched(Get(body, "userInfo").value)
  }

  datatype Result = Fetched(profile: Json) | Failure(error: Error)

  /** `handleGetPDF`: the new state, what is written to "studentData", and
      the effects, given whether a token cookie is set, the cached profile,
      `navigator.onLine` and the proxy's answer. */
  function GetPdf(s: MenuState, hasToken: bool, cache: Option<Json>, online: bool, response: Response)
    : (MenuState, Option<Json>, seq<Effect>)
  {
    if !hasToken then (s, None, [Alert(NoTokenAlert), Navigate("/login")])
    else
      var s1 := s.(isLoading := true, error := Null, isOffline := false);
      if cache.Some? && !online then
        (s1.(isOffline := true, isLoading := false), None, [Report(cache.value, s.isOffline), Alert(OfflineAlert)])
      else
        match Profile(response)
        case Fetched(p) => (s1.(isLoading := false), Some(p), [Report(p, s.isOffline)])
        case Failure(e) =>
          if cache.Some? then
            (s1.(isOffline := true, isLoading := false), None, [Report(cache.value, s.isOffline), Alert(CachedAlert)])
          else
            match CatchMessage(e, FailedMessage)
            case Some(m) => (s1.(error := m, isLoading := false), None, [Alert(JsonToString(m))])
            /* `error.response.data.error` on a `null` body throws inside
               the catch block; only `finally` runs. */
            case None => (s1.(isLoading := false), None, [])
  }

  /** Without a token: an alert and a redirect to the login page, with no
      cache read, no request and no change of state. */
  lemma NoTokenRedirects(s: MenuState, cache: Option<Json>, online: bool, response: Response)
    ensures GetPdf(s, false, cache, online, response) == (s, None, [Alert(NoTokenAlert), Navigate("/login")])
  {
  }

  /** Offline with a cache, the report uses the cache and the answer is
      never looked at. */
  lemma OfflineUsesCache(s: MenuState, cached: Json, r1: Response, r2: Response)
    ensures GetPdf(s, true, Some(cached), false, r1) == GetPdf(s, true, Some(cached), false, r2)
    ensures var (t, w, fx) := GetPdf(s, true, Some(cached), false, r1);
      t.isOffline && !t.isLoading && w.None? && fx[0] == Report(cached, s.isOffline)
  {
  }

  /** "studentData" is written only after an answer carrying a truthy
      `userInfo`, and then holds exactly that `userInfo`. */
  lemma CachesOnlyProfiles(s: MenuState, hasToken: bool, cache: Option<Json>, online: bool, response: Response)
    ensures var w := GetPdf(s, hasToken, cache, online, response).1;
      w.Some? ==> response.Ok? && Get(response.body, "userInfo") == Some(w.value) && IsTruthy(w.value)
  {
  }

  /** Any failure, a missing `userInfo` included, falls back to the cache
      when there is one and leaves the cache as it is. Without a cache the
      error shown is the body's `error` for an HTTP error, else the
      exception's message, else the default. */
  lemma FailureFallsBack(s: MenuState, cache: Option<Json>, online: bool, response: Response)
    requires !(cache.Some? && !online) && Profile(response).Failure?
    ensures var (t, w, fx) := GetPdf(s, true, cache, online, response);
      && w.None? && !t.isLoading
      && (cache.Some? ==> t.isOffline && fx == [Report(cache.value, s.isOffline), Alert(CachedAlert)])
      && (cache.None? ==> var m := CatchMessage(Profile(response).error, FailedMessage);
            && (m.Some? ==> t.error == m.value && IsTruthy(t.error))
            && (m.None? ==> t.error == Null && fx == []))
  {
  }

  // ---------------------------------------------------------------------
  // The report's file name and percentage cells

  /** `s` holds no white space character. */
  predicate NoSpace(s: string)
  {
    forall i :: 0 <= i < |s| ==> !IsSpace(s[i])
  }

  /** `s.replace(/\s+/g, '_')` */
  function ReplaceSpaces(s: string): (r: string)
    ensures NoSpace(r)
    ensures |r| <= |s|
    decreases |s|
  {
    if s == [] then []
    else if IsSpace(s[0]) then
      var rest := ReplaceSpaces(TrimStart(s[1..]));
      assert NoSpace("_") by { assert "_"[0] == '_'; }
      NoSpaceConcat("_", rest);
      "_" + rest
    else
      var rest := ReplaceSpaces(s[1..]);
      NoSpaceConcat([s[0]], rest);
      [s[0]] + rest
  }

  /** A name without white space is used as it is. */
  lemma {:induction false} ReplaceSpacesKeeps(s: string)
    requires NoSpace(s)
    ensures ReplaceSpaces(s) == s
  {
    if s != [] {
      ReplaceSpacesKeeps(s[1..]);
    }
  }

  /** Each run of white space becomes one "_". */
  lemma {:induction false} ReplaceSpacesRun(a: string, w: string, b: string)
    requires NoSpace(a)
    requires w != [] && forall i :: 0 <= i < |w| ==> IsSpace(w[i])
    requires b != [] ==> !IsSpace(b[0])
    ensures ReplaceSpaces(a + w + b) == a + "_" + ReplaceSpaces(b)
  {
    if a == [] {
      assert a + w + b == w + b;
      SpaceRun(w, b);
    } else {
      var t := a[1..] + w + b;
      assert a + w + b == [a[0]] + t;
      ReplaceSpacesRun(a[1..], w, b);
      KeepsLetter(a[0], t);
      assert [a[0]] + (a[1..] + "_" + ReplaceSpaces(b)) == a + "_" + ReplaceSpaces(b);
    }
  }

  /** A character that is not white space is copied. */
  lemma KeepsLetter(c: char, t: string)
    requires !IsSpace(c)
    ensures ReplaceSpaces([c] + t) == [c] + ReplaceSpaces(t)
  {
    var s := [c] + t;
    assert s[0] == c && s[1..] == t;
  }

  /** A run of white space at the front becomes one "_". */
  lemma SpaceRun(w: string, b: string)
    requires w != [] && forall i :: 0 <= i < |w| ==> IsSpace(w[i])
    requires b != [] ==> !IsSpace(b[0])
    ensures ReplaceSpaces(w + b) == "_" + ReplaceSpaces(b)
  {
    var s := w + b;
    assert s[0] == w[0] && IsSpace(s[0]);
    assert s[1..] == w[1..] + b;
    TrimStartSpace(w[1..], b);
    assert TrimStart(b) == b;
    assert ReplaceSpaces(s) == "_" + ReplaceSpaces(TrimStart(s[1..]));
  }

  const ReportSuffix: string := "_Academic_Report.pdf"
  const DefaultName: string := "Student"

  /** `${studentName}_Academic_Report.pdf`; `None` where the name is truthy
      but not a string, so `replace` is missing. */
  function FileName(profile: Json): (r: Option<string>)
    ensures !Truthy(Get(profile, "name")) ==> r == Some(DefaultName + ReportSuffix)
    ensures r.None? <==> Truthy(Get(profile, "name")) && !Get(profile, "name").value.Str?
    ensures Truthy(Get(profile, "name")) && Get(profile, "name").value.Str? ==>
      r == Some(ReplaceSpaces(Get(profile, "name").value.s) + ReportSuffix)
  {
    var name := Get(profile, "name");
    if !Truthy(name) then Some(DefaultName + ReportSuffix)
    else if name.value.Str? then Some(ReplaceSpaces(name.value.s) + ReportSuffix)
    else None
  }

  /** Visible ASCII characters are not white space. */
  lemma PrintableHasNoSpace(s: string)
    requires forall i :: 0 <= i < |s| ==> '!' <= s[i] <= '~'
    ensures NoSpace(s)
  {
  }

  lemma FixedPartsHaveNoSpace()
    ensures NoSpace(DefaultName) && NoSpace(ReportSuffix) && |ReportSuffix| == 20
  {
    PrintableHasNoSpace(DefaultName);
    PrintableHasNoSpace(ReportSuffix);
  }

  lemma NoSpaceConcat(a: string, b: string)
    requires NoSpace(a) && NoSpace(b)
    ensures NoSpace(a + b)
  {
    forall i | 0 <= i < |a + b|
      ensures !IsSpace((a + b)[i])
    {
      if i >= |a| {
        assert (a + b)[i] == b[i - |a|];
      }
    }
  }

  /** The file name never holds white space before its fixed suffix. */
  lemma FileNameHasNoSpace(profile: Json)
    requires FileName(profile).Some?
    ensures var f := FileName(profile).value;
      |f| >= 20 && f[|f| - 20..] == ReportSuffix && NoSpace(f)
  {
    var name := Get(profile, "name");
    var r := if !Truthy(name) then DefaultName else ReplaceSpaces(name.value.s);
    FixedPartsHaveNoSpace();
    NoSpaceConcat(r, ReportSuffix);
    var f := r + ReportSuffix;
    assert FileName(profile) == Some(f);
    assert f[|f| - 20..] == ReportSuffix;
  }

  /** `a / b` on JavaScript numbers, for a positive divisor. */
  function Divide(a: Number, b: Number): Number
    requires Above(b, 0.0)
  {
    match (a, b)
    case (NaN, _) => NaN
    case (Infinite(p), Infinite(_)) => NaN
    case (Infinite(p), Finite(_)) => Infinite(p)
    case (Finite(_), Infinite(_)) => Finite(0.0)
    case (Finite(x), Finite(y)) => Finite(x / y)
  }

  /** The percentage cell of a test: "N/A" unless `totalMarks > 0`, and
      otherwise `totalMarkGot / totalMarks * 100` (before `toFixed(2)`). */
  datatype Cell = NotApplicable | Percent(value: Number)

  function PercentageCell(got: Value, total: Value): (c: Cell)
    ensures c.NotApplicable? <==> !Above(ToNumber(total), 0.0)
  {
    var t := ToNumber(total);
    if !Above(t, 0.0) then NotApplicable
    else
      match Divide(ToNumber(got), t)
      case Finite(q) => Percent(Finite(q * 100.0))
      case other => Percent(other)
  }

  /** Marks between zero and the total give a percentage between 0 and
      100. */
  lemma PercentageBounds(got: int, total: int)
    requires 0 <= got <= total
    ensures total > 0 ==> var c := PercentageCell(Some(Num(got)), Some(Num(total)));
      c.Percent? && c.value.Finite? && 0.0 <= c.value.r <= 100.0
    ensures total == 0 ==> PercentageCell(Some(Num(got)), Some(Num(total))) == NotApplicable
  {
    if total > 0 {
      assert (got as real) / (total as real) <= 1.0;
    }
  }

  /** A missing or `null` total gives "N/A". */
  lemma PercentageWithoutTotal(got: Value)
    ensures PercentageCell(got, None) == NotApplicable
    ensures PercentageCell(got, Some(Null)) == NotApplicable
  {
  }

  // ---------------------------------------------------------------------
  // The component

  /** The cookies `handleLogout` removes, in the order it removes them. */
  const LogoutNames: seq<string> := [
    "username", "password", "token", "displayName",
    "_iamadt_client_10002227248", "_iambdt_client_10002227248",
    "wms-tkp-token_client_10002227248", "_z_identity"]

  const LogoutCookies: set<string> := NameSet(LogoutNames)

  class Menu {
    var isOpen: bool
    var isLoading: bool
    var error: Json
    var isOffline: bool

    constructor ()
      ensures State() == Initial
    {
      isOpen, isLoading, error, isOffline := false, false, Null, false;
    }

    function State(): MenuState
      reads this
    {
      MenuState(isOpen, isLoading, error, isOffline)
    }

    /** `toggleMenu` */
    method ToggleMenu()
      modifies this
      ensures State() == old(State()).(isOpen := !old(isOpen))
    {
      isOpen := !isOpen;
    }

    /** `handleGetPDF`, with `navigator.onLine` and the proxy's answer
        given. */
    method HandleGetPdf(storage: LocalStorage, jar: CookieJar, online: bool, response: Response)
      returns (effects: seq<Effect>)
      requires storage.Valid()
      modifies this, storage
      ensures storage.Valid()
      ensures var (s, w, fx) := GetPdf(old(State()), old(jar.Has("token")), old(storage.CacheOf(StudentKey)), online, response);
        && State() == s && effects == fx
        && storage.items == if w.Some? then old(storage.items)[StudentKey := Serialize(w.value)] else old(storage.items)
    {
      var before := isOffline;
      if !jar.Has("token") {
        return [Alert(NoTokenAlert), Navigate("/login")];
      }
      isLoading, error, isOffline := true, Null, false;
      var cache := storage.CacheOf(StudentKey);
      if cache.Some? && !online {
        isOffline := true;
        effects := [Report(cache.value, before)];
        isLoading := false;
        return effects + [Alert(OfflineAlert)];
      }
      var result := Profile(response);
      match result {
      case Fetched(p) =>
        storage.Store(StudentKey, p);
        effects := [Report(p, before)];
      case Failure(e) =>
        if cache.Some? {
          isOffline := true;
          effects := [Report(cache.value, before)];
          isLoading := false;
          return effects + [Alert(CachedAlert)];
        }
        var m := CatchMessage(e, FailedMessage);
        effects := [];
        if m.Some? {
          error := m.value;
          effects := [Alert(JsonToString(m.value))];
        }
      }
      isLoading := false;
    }

    /** `handleLogout`: the eight cookies are removed, the menu closes and
        the login page is next. */
    method HandleLogout(jar: CookieJar) returns (effects: seq<Effect>)
      modifies this, jar
      ensures State() == old(State()).(isOpen := false)
      ensures jar.cookies == old(jar.cookies) - LogoutCookies
      ensures effects == [Navigate("/login")]
    {
      isOpen := false;
      jar.RemoveEach(LogoutNames);
      effects := [Navigate("/login")];
    }
  }

  /** After logout no session cookie is left, so the guard of the
      protected pages turns the user away; all other cookies stay. */
  lemma LogoutClearsSession(before: map<string, string>)
    ensures var after := before - LogoutCookies;
      && "token" !in after && "username" !in after && "displayName" !in after
      && ProtectedRoute.Guard(after) == ProtectedRoute.ToLogin
      && forall k :: k in before && k !in LogoutCookies ==> k in after && after[k] == before[k]
  {
    assert LogoutNames[2] == "token";
    assert "token" in LogoutCookies;
    ProtectedRoute.NoToken(before - LogoutCookies);
  }
}
