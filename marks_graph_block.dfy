/** `MarksGraphBlock`: the card of one course on the marks page: a chart of
    the percentage of each test, and the marks of each test as `got/total`. */
module MarksGraphBlock {
  import opened JsValues

  /** One point of the chart: the test's name and its `percentage`. */
  datatype Point = Point(name: string, percentage: Value)

  /** One line of the marks listing. */
  datatype Row = Row(name: string, got: Value, total: Value)

  /** What the card shows below its header. */
  datatype Body = NoMarks | Marks(chart: seq<Point>, rows: seq<Row>)

  /** What the card renders: its header and its body. */
  datatype Card = Card(courseName: Value, courseCode: Value, courseType: Value, body: Body)

  /** `Object.entries(tests).map(([name, values]) => ...)` for the chart;
      `None` where an entry is `null` and reading its `percentage` throws. */
  function Chart(entries: seq<(string, Json)>): (r: Option<seq<Point>>)
    ensures r.Some? <==> forall i :: 0 <= i < |entries| ==> !entries[i].1.Null?
    ensures r.Some? ==> |r.value| == |entries| && forall i :: 0 <= i < |entries| ==>
      r.value[i] == Point(entries[i].0, Get(entries[i].1, "percentage"))
  {
    if entries == [] then Some([])
    else if entries[0].1.Null? then None
    else
      match Chart(entries[1..])
      case None => None
      case Some(ps) => Some([Point(entries[0].0, Get(entries[0].1, "percentage"))] + ps)
  }

  /** The listing; a `null` entry throws here too. */
  function Rows(entries: seq<(string, Json)>): (r: Option<seq<Row>>)
    ensures r.Some? <==> forall i :: 0 <= i < |entries| ==> !entries[i].1.Null?
    ensures r.Some? ==> |r.value| == |entries| && forall i :: 0 <= i < |entries| ==>
      r.value[i] == Row(entries[i].0, Get(entries[i].1, "got"), Get(entries[i].1, "total"))
  {
    if entries == [] then Some([])
    else if entries[0].1.Null? then None
    else
      match Rows(entries[1..])
      case None => None
      case Some(rs) => Some([Row(entries[0].0, Get(entries[0].1, "got"), Get(entries[0].1, "total"))] + rs)
  }

  /** The card for `marksData`. Destructuring `null`, or `Object.entries`
      of a missing or `null` `tests`, throws. */
  function Block(marksData: Json): Option<Card>
  {
    if marksData.Null? then None
    else
      var tests := Get(marksData, "tests");
      match Entries(tests)
      case None => None
      case Some(es) =>
        match Chart(es)
        case None => None
        case Some(chart) =>
          var header := Card(Get(marksData, "courseName"), Get(marksData, "courseCode"), Get(marksData, "courseType"), NoMarks);
          if |FieldKeys(es)| == 0 then Some(header)
          else
            match Rows(es)
            case None => None
            case Some(rows) => Some(header.(body := Marks(chart, rows)))
  }

  /** The card renders exactly when `marksData` is not `null`, `tests` can
      be enumerated and none of its entries is `null`; then "no marks"
      shows exactly when there is no test, and otherwise the chart and
      the listing show the tests in the same order. */
  lemma BlockShape(marksData: Json)
    ensures var es := Entries(Get(marksData, "tests"));
      && (Block(marksData).Some? <==>
            !marksData.Null? && es.Some? && forall i :: 0 <= i < |es.value| ==> !es.value[i].1.Null?)
      && (Block(marksData).Some? ==> var b := Block(marksData).value.body;
            && (b.NoMarks? <==> es.value == [])
            && (b.Marks? ==>
                  |b.chart| == |b.rows| == |es.value|
                  && forall i :: 0 <= i < |b.chart| ==> b.chart[i].name == b.rows[i].name == es.value[i].0))
  {
    var es := Entries(Get(marksData, "tests"));
    if !marksData.Null? && es.Some? {
      var c := Chart(es.value);
      var r := Rows(es.value);
      assert c.Some? <==> r.Some?;
    }
  }

  /** For tests given as an object with distinct names, each chart point
      carries the `percentage` read from the test of that name. */
  lemma ChartReadsTests(marksData: Json, fields: seq<(string, Json)>, i: nat)
    requires Block(marksData).Some? && Block(marksData).value.body.Marks?
    requires Get(marksData, "tests") == Some(Obj(fields))
    requires i < |fields| && (i == 0 || fields[i].0 !in FieldKeys(fields[..i]))
    ensures var p := Block(marksData).value.body.chart[i];
      && Get(Obj(fields), p.name) == Some(fields[i].1)
      && p.percentage == Get(fields[i].1, "percentage")
  {
    EntriesReadBack(Obj(fields), i);
  }

  /** A test list given as an array is charted with the indices as
      names. */
  lemma ArrayTests(marksData: Json, xs: seq<Json>)
    requires !marksData.Null? && Get(marksData, "tests") == Some(Arr(xs)) && xs != []
    requires forall i :: 0 <= i < |xs| ==> !xs[i].Null?
    ensures Block(marksData).Some? && Block(marksData).value.body.Marks?
    ensures forall i :: 0 <= i < |xs| ==> Block(marksData).value.body.chart[i].name == NatToString(i)
  {
    var es := Entries(Get(marksData, "tests")).value;
    assert |FieldKeys(es)| == |xs|;
  }

  /** A number as `tests` has no tests. */
  lemma ScalarTests(marksData: Json, n: int)
    requires !marksData.Null? && Get(marksData, "tests") == Some(Num(n))
    ensures Block(marksData).Some? && Block(marksData).value.body == NoMarks
  {
  }
}
