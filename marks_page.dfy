/** `MarksPage`: the test results of each course, loaded from the profile
    the proxy returns, one `MarksGraphBlock` card per course. */
module MarksPage {
  import opened JsValues
  import opened Http
  import opened WebStorage
  import opened ListPage
  import MarksGraphBlock

  const InvalidMessage: string := "Invalid response: Missing test performance data"
  const FailedMessage: string := "Failed to fetch marks data. Please try again."

  /** `getMarksData`: the list is `userInfo.testPerformances`. */
  function Fetch(s: ListState, hasToken: bool, response: Response): ListState
  {
    Load(s, hasToken, response, "testPerformances", InvalidMessage, FailedMessage)
  }

  /** `${each.courseCode || 'course'}-${index}`: the React key of a card. */
  function CardKey(each: Json, index: nat): (k: string)
    ensures !Truthy(Get(each, "courseCode")) ==> k == "course-" + NatToString(index)
  {
    JsonToString(Or(Get(each, "courseCode"), Str("course"))) + "-" + NatToString(index)
  }

  /** Cards of different positions have different keys when their course
      codes are strings without a dash. */
  lemma CardKeysDiffer(a: Json, b: Json, i: nat, j: nat)
    requires i != j
    requires Get(a, "courseCode").Some? && Get(a, "courseCode").value.Str? && Truthy(Get(a, "courseCode"))
    requires Get(b, "courseCode").Some? && Get(b, "courseCode").value.Str? && Truthy(Get(b, "courseCode"))
    requires !Contains(Get(a, "courseCode").value.s, "-") && !Contains(Get(b, "courseCode").value.s, "-")
    ensures CardKey(a, i) != CardKey(b, j)
  {
    var ca := Get(a, "courseCode").value.s;
    var cb := Get(b, "courseCode").value.s;
    var ka := CardKey(a, i);
    var kb := CardKey(b, j);
    assert ka == ca + "-" + NatToString(i) && kb == cb + "-" + NatToString(j);
    if ka == kb {
      if |ca| < |cb| {
        DashInside(ca, cb, NatToString(i), NatToString(j));
      } else if |cb| < |ca| {
        DashInside(cb, ca, NatToString(j), NatToString(i));
      } else {
        assert ka[|ca| + 1..] == NatToString(i) && kb[|cb| + 1..] == NatToString(j);
        NatToStringInjective(i, j);
      }
    }
  }

  /** Two keys `x-p` and `y-q` with a shorter `x` agree only when `y` holds
      a dash. */
  lemma DashInside(x: string, y: string, p: string, q: string)
    requires |x| < |y| && x + "-" + p == y + "-" + q
    ensures Contains(y, "-")
  {
    var k := x + "-" + p;
    assert y[|x|..|x| + 1] == k[|x|..|x| + 1] == "-";
    assert OccursAt(y, "-", |x|);
  }

  /** One card per course, in order; `None` where a card throws. */
  function Cards(courses: seq<Json>): (r: Option<seq<MarksGraphBlock.Card>>)
    ensures r.Some? <==> forall i :: 0 <= i < |courses| ==> MarksGraphBlock.Block(courses[i]).Some?
    ensures r.Some? ==>
      |r.value| == |courses| && forall i :: 0 <= i < |courses| ==> r.value[i] == MarksGraphBlock.Block(courses[i]).value
  {
    if courses == [] then Some([])
    else
      match MarksGraphBlock.Block(courses[0])
      case None => None
      case Some(c) =>
        match Cards(courses[1..])
        case None => None
        case Some(cs) => Some([c] + cs)
  }

  /** After the test records are loaded the page shows them, one card per
      record when every record renders, and the empty note when there is
      none. */
  lemma RecordsRender(s: ListState, response: Response, records: seq<Json>)
    requires Field(response, "testPerformances", InvalidMessage) == Fetched(Arr(records))
    ensures var t := Fetch(s, true, response);
      var v := Render(t);
      && t.list == Arr(records) && !t.isLoading && t.error == Null
      && (v.emptyNote <==> records == [])
      && (Null !in records ==> v.entries == Some(records))
      && (Cards(records).Some? ==> Null !in records && |Cards(records).value| == |records|)
  {
  }

  class Page {
    var marksList: Json
    var isLoading: bool
    var error: Json

    constructor ()
      ensures State() == Initial
    {
      marksList, isLoading, error := Arr([]), false, Null;
    }

    function State(): ListState
      reads this
    {
      ListState(marksList, isLoading, error)
    }

    /** `getMarksData`, with the proxy's answer given. */
    method GetMarksData(jar: CookieJar, response: Response)
      modifies this
      ensures State() == Fetch(old(State()), old(jar.Has("token")), response)
    {
      if !jar.Has("token") {
        error := Str(NoTokenMessage);
        return;
      }
      isLoading, error := true, Null;
      var result := Field(response, "testPerformances", InvalidMessage);
      match result {
        case Fetched(list) =>
          marksList, isLoading := list, false;
        case Rejected(e) =>
          var m := CatchMessage(e, FailedMessage);
          if m.Some? {
            error, isLoading := m.value, false;
          }
      }
    }
  }
}
