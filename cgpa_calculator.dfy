/** `CGPACalculator`: a list of courses, each with its credits (the text of
    a number input) and its grade, and the credit-weighted average of the
    grade points. */
module CgpaCalculator {
  import opened JsValues
  import opened JsNumbers

  datatype Course = Course(credits: string, grade: string)

  const EmptyCourse: Course := Course("", "")

  /** The result shown: `0` when no credits count, else the average (shown
      with two decimals). */
  datatype Cgpa = NoCredits | Average(value: real)

  /** The grade-point table. */
  function GradePoints(grade: string): (p: Option<nat>)
    ensures p.Some? ==> p.value <= 10
    ensures p.Some? <==> grade in {"O", "A+", "A", "B+", "B", "C", "F", "Ab", "I"}
  {
    match grade
    case "O" => Some(10)
    case "A+" => Some(9)
    case "A" => Some(8)
    case "B+" => Some(7)
    case "B" => Some(6)
    case "C" => Some(5)
    case "F" => Some(0)
    case "Ab" => Some(0)
    case "I" => Some(0)
    case _ => None
  }

  /** The values of the table, grade by grade. */
  lemma GradeTable()
    ensures GradePoints("O") == Some(10) && GradePoints("A+") == Some(9) && GradePoints("A") == Some(8)
    ensures GradePoints("B+") == Some(7) && GradePoints("B") == Some(6) && GradePoints("C") == Some(5)
    ensures GradePoints("F") == Some(0) && GradePoints("Ab") == Some(0) && GradePoints("I") == Some(0)
  {
  }

  /** The credits of a course and the grade points of its grade. */
  type Weight = (real, nat)

  /** What a course adds to the totals: its credits and its grade points,
      when `parseFloat(credits)` is a number and the grade is in the table. */
  function Contribution(c: Course): Option<Weight>
  {
    match (ParseFloatString(c.credits), GradePoints(c.grade))
    case (Finite(credits), Some(points)) => Some((credits, points))
    case _ => None
  }

  /** The contributions of the courses, in list order. */
  function Weights(cs: seq<Course>): (ws: seq<Option<Weight>>)
    ensures |ws| == |cs| && forall i :: 0 <= i < |cs| ==> ws[i] == Contribution(cs[i])
  {
    if cs == [] then [] else Weights(cs[..|cs| - 1]) + [Contribution(cs[|cs| - 1])]
  }

  /** A course's grade points, `credits * gradePoints[grade]`, lie
      between 0 and 10 times its credits. */
  lemma ProductBounded(credits: real, points: nat)
    requires credits >= 0.0 && points <= 10
    ensures 0.0 <= credits * points as real <= 10.0 * credits
  {
    assert credits * points as real <= credits * 10.0;
  }

  /** The totals of credits and of credits times points, summed in order. */
  function Tally(ws: seq<Option<Weight>>): (real, real)
  {
    if ws == [] then (0.0, 0.0) else Add(Tally(ws[..|ws| - 1]), ws[|ws| - 1])
  }

  /** One step of the `forEach`. */
  function Add(totals: (real, real), w: Option<Weight>): (real, real)
  {
    if w.Some? then (totals.0 + w.value.0, totals.1 + w.value.0 * w.value.1 as real) else totals
  }

  lemma TallyStep(ws: seq<Option<Weight>>, i: nat)
    requires i < |ws|
    ensures Tally(ws[..i + 1]) == Add(Tally(ws[..i]), ws[i])
  {
    assert ws[..i + 1][..i] == ws[..i];
  }

  /** `totalCredits > 0 ? totalGradePoints / totalCredits : 0` */
  function Outcome(totals: (real, real)): Cgpa
  {
    if totals.0 > 0.0 then Average(totals.1 / totals.0) else NoCredits
  }

  function Result(cs: seq<Course>): Cgpa
  {
    Outcome(Tally(Weights(cs)))
  }

  /** Every contribution has non-negative credits. */
  predicate Bounded(ws: seq<Option<Weight>>)
  {
    forall i :: 0 <= i < |ws| && ws[i].Some? ==> ws[i].value.0 >= 0.0
  }

  lemma {:induction false} TallyBounded(ws: seq<Option<Weight>>)
    requires Bounded(ws)
    requires forall i :: 0 <= i < |ws| && ws[i].Some? ==> ws[i].value.1 <= 10
    ensures 0.0 <= Tally(ws).1 <= 10.0 * Tally(ws).0
  {
    if ws != [] {
      var before := ws[..|ws| - 1];
      assert forall i :: 0 <= i < |before| ==> before[i] == ws[i];
      TallyBounded(before);
      var last := ws[|ws| - 1];
      if last.Some? {
        var (credits, points) := last.value;
        ProductBounded(credits, points);
        assert Tally(ws) == Add(Tally(before), last);
        assert Add(Tally(before), last).1 == Tally(before).1 + credits * points as real;
      }
    }
  }

  lemma AverageBounded(points: real, credits: real)
    requires credits > 0.0 && 0.0 <= points <= 10.0 * credits
    ensures 0.0 <= points / credits <= 10.0
  {
    assert points / credits <= (10.0 * credits) / credits;
  }

  /** The credits of every course that counts are non-negative. */
  predicate NonNegativeCredits(cs: seq<Course>)
  {
    forall i :: 0 <= i < |cs| && Contribution(cs[i]).Some? ==> Contribution(cs[i]).value.0 >= 0.0
  }

  /** With non-negative credits the result lies between 0 and 10. */
  lemma ResultBounded(cs: seq<Course>)
    requires NonNegativeCredits(cs)
    ensures Result(cs).Average? ==> 0.0 <= Result(cs).value <= 10.0
  {
    var ws := Weights(cs);
    forall i | 0 <= i < |ws| && ws[i].Some?
      ensures ws[i].value.0 >= 0.0
    {
      assert ws[i] == Contribution(cs[i]);
    }
    TallyBounded(ws);
    var totals := Tally(ws);
    if totals.0 > 0.0 {
      AverageBounded(totals.1, totals.0);
    }
  }

  /** A course whose credits are the text of an integer and whose grade
      is in the table counts with those credits: `parseFloat(String(n))
      === n`. */
  lemma CreditsOf(n: int, grade: string, points: nat)
    requires GradePoints(grade) == Some(points)
    ensures Contribution(Course(IntToString(n), grade)) == Some((n as real, points))
  {
    ParseFloatOfIntString(n);
  }

  /** The result of two courses, summed in order. */
  lemma TwoCourses(c0: Course, c1: Course)
    ensures Result([c0, c1]) == Outcome(Add(Add((0.0, 0.0), Contribution(c0)), Contribution(c1)))
  {
    var ws := Weights([c0, c1]);
    var first := ws[..1];
    assert first[..0] == [] && first[0] == ws[0];
    assert Tally(first) == Add(Tally([]), ws[0]);
  }

  /** Credits `x` graded O and `1 - x` graded F: one credit in all, and
      `10x` grade points. */
  lemma NegativeTotals(x: real)
    ensures Outcome(Add(Add((0.0, 0.0), Some((x, 10))), Some((1.0 - x, 0)))) == Average(10.0 * x)
  {
  }

  /** A negative credit, which the number input accepts, takes the result
      out of that range: credits `x < 0` graded O and `1 - x` graded F
      average to `10x`, below 0. The text of any negative integer is such
      a credit (`CreditsOf`). */
  lemma NegativeCreditLeavesRange(o: Course, f: Course, x: real)
    requires x < 0.0 && Contribution(o) == Some((x, 10)) && Contribution(f) == Some((1.0 - x, 0))
    ensures Result([o, f]) == Average(10.0 * x) && 10.0 * x < 0.0
  {
    TwoCourses(o, f);
    NegativeTotals(x);
  }

  /** Credits `a` graded O and `b` graded A. */
  lemma WeightedTotals(a: real, b: real)
    requires a + b > 0.0
    ensures Outcome(Add(Add((0.0, 0.0), Some((a, 10))), Some((b, 8)))) == Average((10.0 * a + 8.0 * b) / (a + b))
  {
  }

  /** Two courses with credits `a` and `b`, graded O and A, average to
      `(10a + 8b) / (a + b)`. */
  lemma WeightedAverage(o: Course, f: Course, a: real, b: real)
    requires a + b > 0.0 && Contribution(o) == Some((a, 10)) && Contribution(f) == Some((b, 8))
    ensures Result([o, f]) == Average((10.0 * a + 8.0 * b) / (a + b))
  {
    TwoCourses(o, f);
    WeightedTotals(a, b);
  }

  /** A course that does not count, an empty one included, leaves the
      result as it was. */
  lemma NonContributingKeepsResult(cs: seq<Course>, c: Course)
    requires Contribution(c).None?
    ensures Result(cs + [c]) == Result(cs)
  {
    WeightsSnoc(cs, c);
    TallyNone(Weights(cs));
  }

  lemma WeightsSnoc(cs: seq<Course>, c: Course)
    ensures Weights(cs + [c]) == Weights(cs) + [Contribution(c)]
  {
    assert (cs + [c])[..|cs|] == cs;
  }

  lemma TallyNone(ws: seq<Option<Weight>>)
    ensures Tally(ws + [None]) == Tally(ws)
  {
    assert (ws + [None])[..|ws|] == ws;
  }

  lemma EmptyCourseCountsNot()
    ensures Contribution(EmptyCourse).None?
  {
    assert TrimStart("") == "";
    assert Unsigned("") == (false, "");
  }

  /** `courses.splice(index, 1)`: a negative index counts from the end, and
      an index past the end removes nothing. */
  function Splice(xs: seq<Course>, index: int): (r: seq<Course>)
    ensures |r| == if xs != [] && index < |xs| then |xs| - 1 else |xs|
  {
    var start := if index < 0 then (if |xs| + index > 0 then |xs| + index else 0)
                 else (if index < |xs| then index else |xs|);
    if start < |xs| then xs[..start] + xs[start + 1..] else xs
  }

  /** Removing row `i` drops exactly that course and keeps the others in
      order; rows offer removal only from the second on, so the first course
      always stays. */
  lemma SpliceRemovesOne(xs: seq<Course>, i: int)
    requires 0 <= i < |xs|
    ensures Splice(xs, i) == xs[..i] + xs[i + 1..]
    ensures forall k :: 0 <= k < i ==> Splice(xs, i)[k] == xs[k]
    ensures forall k :: i <= k < |xs| - 1 ==> Splice(xs, i)[k] == xs[k + 1]
    ensures i > 0 ==> Splice(xs, i)[0] == xs[0]
  {
  }

  class Calculator {
    var courses: seq<Course>
    var cgpa: Option<Cgpa>

    constructor ()
      ensures courses == [EmptyCourse] && cgpa == None
    {
      courses, cgpa := [EmptyCourse], None;
    }

    /** `handleCreditsChange`: only the credits of course `index` change; an
        index with no course throws and changes nothing. */
    method HandleCreditsChange(index: int, value: string)
      modifies this
      ensures courses == if 0 <= index < |old(courses)| then old(courses)[index := old(courses)[index].(credits := value)] else old(courses)
      ensures cgpa == old(cgpa)
    {
      if 0 <= index < |courses| {
        courses := courses[index := courses[index].(credits := value)];
      }
    }

    /** `handleGradeChange` */
    method HandleGradeChange(index: int, value: string)
      modifies this
      ensures courses == if 0 <= index < |old(courses)| then old(courses)[index := old(courses)[index].(grade := value)] else old(courses)
      ensures cgpa == old(cgpa)
    {
      if 0 <= index < |courses| {
        courses := courses[index := courses[index].(grade := value)];
      }
    }

    /** `addCourse`: one empty course at the end. */
    method AddCourse()
      modifies this
      ensures courses == old(courses) + [EmptyCourse]
      ensures cgpa == old(cgpa)
    {
      courses := courses + [EmptyCourse];
    }

    /** `removeCourse` */
    method RemoveCourse(index: int)
      modifies this
      ensures courses == Splice(old(courses), index)
      ensures cgpa == old(cgpa)
    {
      var start := if index < 0 then (if |courses| + index > 0 then |courses| + index else 0)
                   else (if index < |courses| then index else |courses|);
      if start < |courses| {
        courses := courses[..start] + courses[start + 1..];
      }
    }

    /** `calculateCGPA`: the result of the current courses. */
    method CalculateCgpa()
      modifies this
      ensures courses == old(courses)
      ensures cgpa == Some(Result(courses))
    {
      var totalCredits, totalGradePoints := Totals(Weights(courses));
      cgpa := Some(if totalCredits > 0.0 then Average(totalGradePoints / totalCredits) else NoCredits);
    }
  }

  /** The `forEach` of `calculateCGPA`, over the contributions of the
      courses in list order: each one that counts adds its credits, and its
      credits times its grade points. */
  method Totals(ws: seq<Option<Weight>>) returns (totalCredits: real, totalGradePoints: real)
    ensures (totalCredits, totalGradePoints) == Tally(ws)
  {
    totalCredits, totalGradePoints := 0.0, 0.0;
    for i := 0 to |ws|
      invariant (totalCredits, totalGradePoints) == Tally(ws[..i])
    {
      TallyStep(ws, i);
      if ws[i].Some? {
        var (credits, points) := ws[i].value;
        assert Add(Tally(ws[..i]), ws[i]).1 == totalGradePoints + credits * points as real;
        totalCredits := totalCredits + credits;
        totalGradePoints := totalGradePoints + credits * points as real;
      }
    }
    assert ws[..|ws|] == ws;
  }

  /** Adding an empty course does not change the result. */
  lemma AddCourseKeepsResult(cs: seq<Course>)
    ensures Result(cs + [EmptyCourse]) == Result(cs)
  {
    EmptyCourseCountsNot();
    NonContributingKeepsResult(cs, EmptyCourse);
  }
}
