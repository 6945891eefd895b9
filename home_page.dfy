/** `HomePage`: the landing page. It greets each user once a day, loads the
    profile through the proxy and warns about every course whose attendance
    is below 75%, once per course. */
module HomePage {
  import opened JsValues
  import opened JsNumbers
  import opened Http
  import opened WebStorage

  /** The component's state. */
  datatype HomeState = HomeState(attendanceList: Json, isLoading: bool, error: Json, isNotificationShowed: bool)

  const Initial: HomeState := HomeState(Arr([]), false, Null, false)

  /** The toasts the page raises; a warning about `course` reads
      `WarningText(course)`. */
  datatype Toast = Info(text: string) | Failure(message: Json) | Warning(course: Json)

  const WelcomeText: string := "Welcome to ATTENDIA!"
  const MissingMessage: string := "Authentication token or username is missing"
  const AuthFailedText: string := "Authentication failed. Please log in again."
  const CoursesMessage: string := "Invalid response: Missing courses data"
  const FailedMessage: string := "Failed to fetch attendance data. Please try again."

  // ---------------------------------------------------------------------
  // The daily welcome

  /** `welcome_${username}_${today}`, with `today` as `YYYY-MM-DD`. */
  function WelcomeKey(username: Value, today: string): (k: string)
    ensures |k| > 8 && k[..8] == "welcome_"
  {
    "welcome_" + ToString(username) + "_" + today
  }

  /** No cache entry is ever taken for a welcome flag. */
  lemma WelcomeKeyIsNoCache(username: Value, today: string)
    ensures WelcomeKey(username, today) !in CacheKeys
  {
    var k := WelcomeKey(username, today);
    assert k[0] == 'w';
    assert TimetableKey[0] == 't' && PlannerKey[0] == 'p' && StudentKey[0] == 's';
  }

  /** `!localStorage.getItem(welcomeKey)` */
  predicate ShowsWelcome(items: map<string, string>, key: string)
  {
    !(key in items && items[key] != "")
  }

  /** Once marked, the welcome does not show again for that key, and the
      other entries keep their values. */
  lemma WelcomeOnce(items: map<string, string>, key: string)
    ensures !ShowsWelcome(items[key := "true"], key)
    ensures forall k :: k != key ==>
      (k in items <==> k in items[key := "true"]) && (k in items ==> items[key := "true"][k] == items[k])
  {
  }

  // ---------------------------------------------------------------------
  // Low attendance

  /** A course the filter keeps: a truthy course with a truthy
      `attendancePercent` whose `parseFloat` is a number below 75. */
  predicate IsLow(course: Json)
  {
    && IsTruthy(course)
    && Truthy(Get(course, "attendancePercent"))
    && Below(ParseFloat(Get(course, "attendancePercent")), 75.0)
  }

  /** `attendanceList.filter(...)` */
  function LowCourses(courses: seq<Json>): (r: seq<Json>)
    ensures forall i :: 0 <= i < |r| ==> r[i] in courses && IsLow(r[i])
    ensures forall c :: c in courses && IsLow(c) ==> c in r
    ensures |r| <= |courses|
  {
    if courses == [] then []
    else if IsLow(courses[0]) then [courses[0]] + LowCourses(courses[1..])
    else LowCourses(courses[1..])
  }

  /** The filter works course by course and keeps the order: the low
      courses of a concatenation are those of each part, one after the
      other, and a single course is kept exactly when it is low. */
  lemma {:induction false} LowCoursesAppend(a: seq<Json>, b: seq<Json>)
    ensures LowCourses(a + b) == LowCourses(a) + LowCourses(b)
    ensures forall c :: LowCourses([c]) == if IsLow(c) then [c] else []
  {
    if a == [] {
      assert a + b == b;
    } else {
      assert (a + b)[0] == a[0];
      assert (a + b)[1..] == a[1..] + b;
      LowCoursesAppend(a[1..], b);
    }
  }

  /** `course.category || 'Unknown'` */
  function Category(course: Json): Json
  {
    Or(Get(course, "category"), Str("Unknown"))
  }

  /** `${course.courseTitle} (${category})`: two entries with the same key
      get one warning. */
  function CourseKey(course: Json): string
  {
    ToString(Get(course, "courseTitle")) + " (" + JsonToString(Category(course)) + ")"
  }

  /** `parseInt(course.margin) || 0` */
  function Required(course: Json): (n: int)
    ensures n != 0 ==> ParseInt(Get(course, "margin")) == Some(n)
    ensures n == 0 <==> ParseInt(Get(course, "margin")) in {None, Some(0)}
  {
    match ParseInt(Get(course, "margin"))
    case Some(n) => n
    case None => 0
  }

  /** The warning for one course. */
  function WarningText(course: Json): string
  {
    Notice(Required(course), ToString(Get(course, "courseTitle")) + " - " + JsonToString(Category(course))
      + " (Current: " + ToString(Get(course, "attendancePercent")) + "%)")
  }

  /** The warning counts the classes still needed exactly when there are
      some. */
  function Notice(required: int, course: string): (r: string)
    ensures |r| > 9 && (r[..9] == NeedPrefix <==> required > 0)
  {
    if required > 0 then
      var r := NeedPrefix + (IntToString(required) + " more classes for 75% attendance in " + course);
      assert r[..9] == NeedPrefix;
      r
    else
      var r := BelowPrefix + course;
      assert r[..9] == BelowPrefix[..9];
      assert BelowPrefix[3] == 'r' && NeedPrefix[3] == ' ';
      r
  }

  const NeedPrefix: string := "You need "
  const BelowPrefix: string := "Your attendance is below 75% in "


  /** The keys of `courses`. */
  function KeySet(courses: seq<Json>): set<string>
  {
    set i | 0 <= i < |courses| :: CourseKey(courses[i])
  }

  lemma KeySetSnoc(courses: seq<Json>, c: Json)
    ensures KeySet(courses + [c]) == KeySet(courses) + {CourseKey(c)}
  {
    var s := courses + [c];
    assert CourseKey(s[|courses|]) == CourseKey(c);
    forall k | k in KeySet(courses)
      ensures k in KeySet(s)
    {
      var i :| 0 <= i < |courses| && k == CourseKey(courses[i]);
      assert s[i] == courses[i];
    }
  }

  /** The courses the `forEach` warns about: the first of each key, in
      order. */
  function FirstPerKey(low: seq<Json>): (r: seq<Json>)
    ensures forall i :: 0 <= i < |r| ==> r[i] in low
  {
    if low == [] then []
    else
      var before := low[..|low| - 1];
      var last := low[|low| - 1];
      if CourseKey(last) in KeySet(before) then FirstPerKey(before)
      else FirstPerKey(before) + [last]
  }

  /** Exactly one warning per key: the warned courses have pairwise
      different keys and cover every key of the low courses. */
  lemma {:induction false} OneWarningPerKey(low: seq<Json>)
    ensures var r := FirstPerKey(low);
      && KeySet(r) == KeySet(low)
      && forall i, j :: 0 <= i < j < |r| ==> CourseKey(r[i]) != CourseKey(r[j])
  {
    if low != [] {
      var before := low[..|low| - 1];
      var last := low[|low| - 1];
      assert low == before + [last];
      OneWarningPerKey(before);
      KeySetSnoc(before, last);
      var p := FirstPerKey(before);
      if CourseKey(last) !in KeySet(before) {
        KeySetSnoc(p, last);
        var r := p + [last];
        forall i, j | 0 <= i < j < |r|
          ensures CourseKey(r[i]) != CourseKey(r[j])
        {
          if j == |p| {
            assert CourseKey(r[i]) in KeySet(p) by { assert r[i] == p[i]; }
          }
        }
      }
    }
  }

  lemma KeySetStep(low: seq<Json>, i: nat)
    requires i < |low|
    ensures KeySet(low[..i + 1]) == KeySet(low[..i]) + {CourseKey(low[i])}
  {
    assert low[..i + 1] == low[..i] + [low[i]];
    KeySetSnoc(low[..i], low[i]);
  }

  lemma FirstPerKeyStep(low: seq<Json>, i: nat)
    requires i < |low|
    ensures FirstPerKey(low[..i + 1]) ==
      if CourseKey(low[i]) in KeySet(low[..i]) then FirstPerKey(low[..i]) else FirstPerKey(low[..i]) + [low[i]]
  {
    var next := low[..i + 1];
    assert next[..|next| - 1] == low[..i] && next[|next| - 1] == low[i];
  }

  /** The toasts for a list of warned courses. */
  function Warnings(courses: seq<Json>): (ts: seq<Toast>)
    ensures |ts| == |courses| && forall i :: 0 <= i < |courses| ==> ts[i] == Warning(courses[i])
  {
    if courses == [] then []
    else Warnings(courses[..|courses| - 1]) + [Warning(courses[|courses| - 1])]
  }

  lemma WarningsSnoc(courses: seq<Json>, c: Json)
    ensures Warnings(courses + [c]) == Warnings(courses) + [Warning(c)]
  {
    assert (courses + [c])[..|courses|] == courses;
  }

  /** The `forEach` over the low courses: a set of the keys warned about
      so far, and a warning for each course whose key is new. */
  method WarnOncePerKey(low: seq<Json>) returns (toasts: seq<Toast>)
    ensures toasts == Warnings(FirstPerKey(low))
  {
    toasts := [];
    var notified: set<string> := {};
    ghost var warned: seq<Json> := [];
    for i := 0 to |low|
      invariant notified == KeySet(low[..i])
      invariant warned == FirstPerKey(low[..i])
      invariant toasts == Warnings(warned)
    {
      notified, warned, toasts := Visit(low, i, notified, warned, toasts);
    }
    assert low[..|low|] == low;
  }

  /** One turn of the `forEach`: warn about `low[i]` unless its key has
      been warned about already. */
  method Visit(low: seq<Json>, i: nat, notified: set<string>, ghost warned: seq<Json>, toasts: seq<Toast>)
    returns (notified': set<string>, ghost warned': seq<Json>, toasts': seq<Toast>)
    requires i < |low|
    requires notified == KeySet(low[..i]) && warned == FirstPerKey(low[..i]) && toasts == Warnings(warned)
    ensures notified' == KeySet(low[..i + 1]) && warned' == FirstPerKey(low[..i + 1]) && toasts' == Warnings(warned')
  {
    KeySetStep(low, i);
    FirstPerKeyStep(low, i);
    var key := CourseKey(low[i]);
    if key !in notified {
      WarningsSnoc(warned, low[i]);
      notified', warned', toasts' := notified + {key}, warned + [low[i]], toasts + [Warning(low[i])];
    } else {
      notified', warned', toasts' := notified, warned, toasts;
    }
  }

  /** `checkLowAttendance(list)`: the new state and the warnings. A list
      that is not an array is ignored; the flag is raised only when some
      course is low. */
  function Check(s: HomeState, list: Json): (HomeState, seq<Toast>)
  {
    if !list.Arr? then (s, [])
    else
      var low := LowCourses(list.items);
      if low == [] then (s, [])
      else (s.(isNotificationShowed := true), Warnings(FirstPerKey(low)))
  }

  /** A warning is raised for a course exactly when some low course has its
      key, and no key is warned about twice. */
  lemma WarnedExactlyOnce(s: HomeState, courses: seq<Json>)
    ensures var (t, ts) := Check(s, Arr(courses));
      var warned := FirstPerKey(LowCourses(courses));
      && ts == Warnings(warned)
      && (t.isNotificationShowed <==> s.isNotificationShowed || exists c :: c in courses && IsLow(c))
      && KeySet(warned) == KeySet(LowCourses(courses))
      && forall i, j :: 0 <= i < j < |warned| ==> CourseKey(warned[i]) != CourseKey(warned[j])
  {
    var low := LowCourses(courses);
    OneWarningPerKey(low);
    if low != [] {
      assert low[0] in courses && IsLow(low[0]);
    }
  }

  /** A percentage given as an integer, in text or as a number, is low
      exactly when it is below 75, except a numeric 0: the truthiness test
      comes first and drops it, while the text "0" is kept. */
  lemma LowByPercent(course: Json, n: int)
    requires IsTruthy(course)
    requires Get(course, "attendancePercent") in {Some(Str(IntToString(n))), Some(Num(n))}
    ensures IsLow(course) <==> n < 75 && Get(course, "attendancePercent") != Some(Num(0))
  {
    IntToStringEdges(n);
    ParseFloatOfIntString(n);
    assert ToString(Get(course, "attendancePercent")) == IntToString(n);
  }

  /** A course whose percentage is missing or falsy is never low. */
  lemma FalsyPercentNotLow(course: Json)
    requires Get(course, "attendancePercent") in {None, Some(Null), Some(Num(0)), Some(Str(""))}
    ensures !IsLow(course)
  {
  }

  /** A margin given as an integer, in text or as a number, is the number
      of classes the warning asks for. */
  lemma RequiredByMargin(course: Json, k: int)
    requires Get(course, "margin") in {Some(Str(IntToString(k))), Some(Num(k))}
    ensures Required(course) == k
    ensures WarningText(course)[..9] == "You need " <==> k > 0
  {
    ParseIntOfIntString(k);
    assert ToString(Get(course, "margin")) == IntToString(k);
  }

  // ---------------------------------------------------------------------
  // Loading the profile

  datatype Result = Fetched(courses: Json) | Rejected(error: Error)

  /** How the `try` block ends: with `response.data.userInfo.courses`, or
      the error. */
  function Courses(response: Response): (r: Result)
    ensures r.Fetched? <==> (response.Ok? && IsTruthy(response.body)
      && Truthy(Get(response.body, "userInfo")) && Truthy(Get(Get(response.body, "userInfo").value, "courses")))
    ensures r.Fetched? ==> IsTruthy(r.courses)
  {
    match response
    case Failed(e) => Rejected(e)
    case Ok(body) =>
      if !IsTruthy(body) || !Truthy(Get(body, "userInfo")) then Rejected(Thrown(CoursesMessage))
      else
        var courses := Get(Get(body, "userInfo").value, "courses");
        if !Truthy(courses) then Rejected(Thrown(CoursesMessage)) else Fetched(courses.value)
  }

  /** `getUserData`: the new state and the toasts, given whether the token
      and username cookies are set and the proxy's answer. */
  function UserData(s: HomeState, hasToken: bool, hasUsername: bool, response: Response): (HomeState, seq<Toast>)
  {
    if !hasToken || !hasUsername then (s.(error := Str(MissingMessage)), [Failure(Str(AuthFailedText))])
    else
      var s1 := s.(isLoading := true, error := Null);
      match Courses(response)
      case Fetched(courses) =>
        Check(s1.(attendanceList := courses, isLoading := false, isNotificationShowed := false), courses)
      case Rejected(e) =>
        match CatchMessage(e, FailedMessage)
        case Some(m) => (s1.(error := m, isLoading := false), [Failure(m)])
        /* `error.response.data.error` on a `null` body throws inside the
           catch block: nothing after it runs. */
        case None => (s1, [])
  }

  /** Without credentials nothing is requested and nothing but the error
      changes. */
  lemma NoCredentials(s: HomeState, hasToken: bool, hasUsername: bool, response: Response)
    requires !hasToken || !hasUsername
    ensures var (t, ts) := UserData(s, hasToken, hasUsername, response);
      t == s.(error := Str(MissingMessage)) && ts == [Failure(Str(AuthFailedText))]
  {
  }

  /** A fetched course list replaces the old one, and the warnings are
      raised anew whatever was shown before. */
  lemma FetchedCourses(s: HomeState, response: Response)
    requires Courses(response).Fetched?
    ensures var courses := Courses(response).courses;
      var (t, ts) := UserData(s, true, true, response);
      && t.attendanceList == courses && !t.isLoading && t.error == Null
      && (t.isNotificationShowed <==> courses.Arr? && LowCourses(courses.items) != [])
      && ts == (if t.isNotificationShowed then Warnings(FirstPerKey(LowCourses(courses.items))) else [])
  {
  }

  /** A failure keeps the old list. The error shown is the body's `error`,
      else the exception's message, else the default; an HTTP error with a
      `null` body leaves the page loading. */
  lemma FailureKeepsList(s: HomeState, response: Response)
    requires Courses(response).Rejected?
    ensures var e := Courses(response).error;
      var (t, ts) := UserData(s, true, true, response);
      && t.attendanceList == s.attendanceList
      && (e.HttpError? && e.body.Null? ==> t.isLoading && t.error == Null && ts == [])
      && (!(e.HttpError? && e.body.Null?) ==> !t.isLoading && IsTruthy(t.error) && ts == [Failure(t.error)])
  {
  }

  // ---------------------------------------------------------------------
  // The component

  class Page {
    var attendanceList: Json
    var isLoading: bool
    var error: Json
    var isNotificationShowed: bool

    constructor ()
      ensures State() == Initial
    {
      attendanceList, isLoading, error, isNotificationShowed := Arr([]), false, Null, false;
    }

    function State(): HomeState
      reads this
    {
      HomeState(attendanceList, isLoading, error, isNotificationShowed)
    }

    /** `checkLowAttendance`: the filter, then one warning per course key,
        tracked in a set as the source does. */
    method CheckLowAttendance(list: Json) returns (toasts: seq<Toast>)
      modifies this
      ensures (State(), toasts) == Check(old(State()), list)
    {
      toasts := [];
      if !list.Arr? {
        return;
      }
      var low := LowCourses(list.items);
      if |low| > 0 {
        toasts := WarnOncePerKey(low);
        isNotificationShowed := true;
      }
    }

    /** `getUserData`, with the proxy's answer given. */
    method GetUserData(jar: CookieJar, response: Response) returns (toasts: seq<Toast>)
      modifies this
      ensures (State(), toasts) == UserData(old(State()), old(jar.Has("token")), old(jar.Has("username")), response)
    {
      if !jar.Has("token") || !jar.Has("username") {
        error := Str(MissingMessage);
        return [Failure(Str(AuthFailedText))];
      }
      isLoading, error := true, Null;
      var result := Courses(response);
      match result {
        case Fetched(courses) =>
          attendanceList, isLoading, isNotificationShowed := courses, false, false;
          toasts := CheckLowAttendance(courses);
        case Rejected(e) =>
          var m := CatchMessage(e, FailedMessage);
          toasts := [];
          if m.Some? {
            toasts := [Failure(m.value)];
            error, isLoading := m.value, false;
          }
      }
    }

    /** `componentDidMount`: the welcome for this user and day, at most
        once, then the profile. */
    method ComponentDidMount(storage: LocalStorage, jar: CookieJar, today: string, response: Response)
      returns (toasts: seq<Toast>)
      requires storage.Valid()
      modifies this, storage
      ensures storage.Valid()
      ensures var key := WelcomeKey(old(jar.Get("username")), today);
        var welcome := ShowsWelcome(old(storage.items), key);
        var (s, ts) := UserData(old(State()), old(jar.Has("token")), old(jar.Has("username")), response);
        && storage.items == (if welcome then old(storage.items)[key := "true"] else old(storage.items))
        && State() == s
        && toasts == (if welcome then [Info(WelcomeText)] else []) + ts
    {
      var key := WelcomeKey(jar.Get("username"), today);
      var welcome: seq<Toast> := [];
      if !(key in storage.items && storage.items[key] != "") {
        welcome := [Info(WelcomeText)];
        WelcomeKeyIsNoCache(jar.Get("username"), today);
        storage.SetItem(key, "true");
      }
      var ts := GetUserData(jar, response);
      toasts := welcome + ts;
    }
  }
}
