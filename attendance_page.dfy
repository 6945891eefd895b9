/** `AttendancePage`: the list of courses with their attendance, loaded from
    the profile the proxy returns, one `AttendanceBlock` card per course. */
module AttendancePage {
  import opened JsValues
  import opened Http
  import opened WebStorage
  import opened ListPage
  import AttendanceBlock

  const InvalidMessage: string := "Invalid response format - no attendance data found"
  const FailedMessage: string := "Failed to fetch attendance data. Please try again."

  /** `getAttendanceDetails`: the list is `userInfo.courses`. */
  function Fetch(s: ListState, hasToken: bool, response: Response): ListState
  {
    Load(s, hasToken, response, "courses", InvalidMessage, FailedMessage)
  }

  /** A profile without courses is an error with this page's message, and
      the courses shown before stay. */
  lemma MissingCourses(s: ListState, profile: Json)
    requires IsTruthy(profile) && !Truthy(Get(profile, "courses"))
    ensures Fetch(s, true, Ok(Obj([("userInfo", profile)]))) == s.(isLoading := false, error := Str(InvalidMessage))
  {
  }

  /** One card per course, in order; `None` where a card throws. */
  function Cards(courses: seq<Json>): (r: Option<seq<AttendanceBlock.Card>>)
    ensures r.Some? <==> forall i :: 0 <= i < |courses| ==> AttendanceBlock.Block(courses[i]).Some?
    ensures r.Some? ==>
      |r.value| == |courses| && forall i :: 0 <= i < |courses| ==> r.value[i] == AttendanceBlock.Block(courses[i]).value
  {
    if courses == [] then Some([])
    else
      match AttendanceBlock.Block(courses[0])
      case None => None
      case Some(c) =>
        match Cards(courses[1..])
        case None => None
        case Some(cs) => Some([c] + cs)
  }

  /** After the courses are loaded, the page shows one card per course
      exactly when every course renders, and the empty note when there is
      none. */
  lemma CoursesRender(s: ListState, response: Response, courses: seq<Json>)
    requires Field(response, "courses", InvalidMessage) == Fetched(Arr(courses))
    ensures var t := Fetch(s, true, response);
      var v := Render(t);
      && t.list == Arr(courses) && !t.isLoading && t.error == Null
      && (v.emptyNote <==> courses == [])
      && (Null !in courses ==> v.entries == Some(courses))
      && (Cards(courses).Some? ==> Null !in courses && |Cards(courses).value| == |courses|)
  {
  }

  class Page {
    var attendanceList: Json
    var isLoading: bool
    var error: Json

    constructor ()
      ensures State() == Initial
    {
      attendanceList, isLoading, error := Arr([]), false, Null;
    }

    function State(): ListState
      reads this
    {
      ListState(attendanceList, isLoading, error)
    }

    /** `getAttendanceDetails`, with the proxy's answer given. */
    method GetAttendanceDetails(jar: CookieJar, response: Response)
      modifies this
      ensures State() == Fetch(old(State()), old(jar.Has("token")), response)
    {
      if !jar.Has("token") {
        error := Str(NoTokenMessage);
        return;
      }
      isLoading, error := true, Null;
      var result := Field(response, "courses", InvalidMessage);
      match result {
        case Fetched(list) =>
          attendanceList, isLoading := list, false;
        case Rejected(e) =>
          var m := CatchMessage(e, FailedMessage);
          if m.Some? {
            error, isLoading := m.value, false;
          }
      }
    }
  }
}
