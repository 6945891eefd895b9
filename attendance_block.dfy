/** `AttendanceBlock`: the card of one course on the attendance page. */
module AttendanceBlock {
  import opened JsValues
  import opened JsNumbers

  const Green: string := "#00fd00"
  const Red: string := "#ce0000"
  const BarGreen: string := "#00fd00"
  const BarRed: string := "red"

  /** What the card shows. The big figure is the margin when `required` is
      exactly the number 0, and the classes still required otherwise. */
  datatype Card = Card(
    title: Value,
    shortCode: string,
    category: Value,
    figure: Value,
    caption: string,
    figureColour: string,
    percent: Value,
    barWidth: string,
    barColour: string,
    present: Value,
    absent: Value,
    conducted: Value)

  /** `courseCode.substring(0, 8)` */
  function ShortCode(code: string): (r: string)
    ensures |r| == if |code| < 8 then |code| else 8
    ensures r == code[..|r|]
  {
    if |code| < 8 then code else code[..8]
  }

  /** The card for `attendanceDetails`; `None` where rendering throws:
      destructuring `null`, or a `courseCode` that is not a string and so
      has no `substring`. */
  function Block(details: Json): (r: Option<Card>)
    ensures r.Some? <==> !details.Null? && Get(details, "courseCode").Some? && Get(details, "courseCode").value.Str?
    ensures r.Some? ==> r.value.shortCode == ShortCode(Get(details, "courseCode").value.s)
    ensures r.Some? ==> && r.value.title == Get(details, "courseTitle") && r.value.category == Get(details, "category")
                        && r.value.percent == Get(details, "attendancePercent")
                        && r.value.present == Get(details, "hoursPresent") && r.value.absent == Get(details, "hoursAbsent")
                        && r.value.conducted == Get(details, "hoursConducted")
  {
    if details.Null? then None
    else
      match Get(details, "courseCode")
      case Some(Str(code)) =>
        var percent := Get(details, "attendancePercent");
        var margin := Get(details, "required") == Some(Num(0));
        Some(Card(
          Get(details, "courseTitle"),
          ShortCode(code),
          Get(details, "category"),
          if margin then Get(details, "margin") else Get(details, "required"),
          if margin then "Margin" else "Required",
          if margin then Green else Red,
          percent,
          ToString(percent) + "%",
          if AtLeast(ToNumber(percent), 75.0) then BarGreen else BarRed,
          Get(details, "hoursPresent"),
          Get(details, "hoursAbsent"),
          Get(details, "hoursConducted")))
      case _ => None
  }

  /** The card shows the margin, in green, exactly when `required === 0`;
      otherwise it shows `required` in red. The strict comparison means a
      text "0" counts as classes required. */
  lemma MarginOrRequired(details: Json)
    requires Block(details).Some?
    ensures var c := Block(details).value;
      && (c.caption == "Margin" <==> Get(details, "required") == Some(Num(0)))
      && (c.caption == "Margin" ==> c.figure == Get(details, "margin") && c.figureColour == Green)
      && (c.caption != "Margin" ==> c.caption == "Required" && c.figure == Get(details, "required") && c.figureColour == Red)
  {
  }

  lemma TextZeroIsRequired(details: Json)
    requires Block(details).Some? && Get(details, "required") == Some(Str("0"))
    ensures Block(details).value.caption == "Required"
    ensures Block(details).value.figure == Some(Str("0"))
  {
  }

  /** A percentage given as an integer, in text or as a number, fills the
      bar in green exactly when it is at least 75; a missing one is red. */
  lemma BarColour(details: Json, n: int)
    requires Block(details).Some?
    requires var p := Get(details, "attendancePercent"); p == Some(Str(IntToString(n))) || p == Some(Num(n))
    ensures Block(details).value.barColour == (if n >= 75 then BarGreen else BarRed)
    ensures Block(details).value.barWidth == IntToString(n) + "%"
  {
    var p := Get(details, "attendancePercent");
    StringToNumberOfIntString(n);
    assert ToNumber(p) == Finite(n as real);
    assert ToString(p) == IntToString(n);
    var c := Block(details).value;
    assert c.barColour == (if AtLeast(ToNumber(p), 75.0) then BarGreen else BarRed);
    assert c.barWidth == ToString(p) + "%";
  }

  lemma MissingPercentIsRed(details: Json)
    requires Block(details).Some? && Get(details, "attendancePercent").None?
    ensures Block(details).value.barColour == BarRed
    ensures Block(details).value.barWidth == "undefined%"
  {
  }

  /** The short code is the course code cut to eight characters. */
  lemma ShortCodeOf(details: Json, code: string)
    requires !details.Null? && Get(details, "courseCode") == Some(Str(code))
    ensures Block(details).Some?
    ensures |code| <= 8 ==> Block(details).value.shortCode == code
    ensures |code| > 8 ==> Block(details).value.shortCode == code[..8]
  {
  }
}
