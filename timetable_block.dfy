/** `TimeTableBlock`: one timetable slot, given as an object with a single
    entry from the slot key `"start - end"` to the slot's details. The key
    is split back into its start and end times. */
module TimeTableBlock {
  import opened JsValues

  /** `parts.join(sep)`. */
  function Join(parts: seq<string>, sep: string): (s: string)
    requires parts != []
    ensures parts[0] <= s
  {
    if |parts| == 1 then parts[0] else parts[0] + sep + Join(parts[1..], sep)
  }

  /** `s.split(sep)`: the pieces between the occurrences of `sep`, found
      left to right without overlap. Joined with `sep` they give back `s`,
      none of them holds `sep`, and there is more than one exactly when `s`
      holds `sep`. */
  function Split(s: string, sep: string): (parts: seq<string>)
    requires sep != []
    ensures |parts| >= 1
    ensures Join(parts, sep) == s
    ensures forall k :: 0 <= k < |parts| ==> !Contains(parts[k], sep)
    ensures |parts| == 1 <==> !Contains(s, sep)
    ensures |parts| > 1 ==> Find(s, sep) == Some(|parts[0]|) && parts[1..] == Split(s[|parts[0]| + |sep|..], sep)
    decreases |s|
  {
    match Find(s, sep)
    case None => [s]
    case Some(i) =>
      var rest := Split(s[i + |sep|..], sep);
      SplitStep(s, sep, i, rest);
      [s[..i]] + rest
  }

  /** One step of `Split`: the piece before the first `sep`, followed by
      the pieces of the rest. */
  lemma SplitStep(s: string, sep: string, i: nat, rest: seq<string>)
    requires sep != [] && Find(s, sep) == Some(i)
    requires |rest| >= 1 && Join(rest, sep) == s[i + |sep|..]
    requires forall k :: 0 <= k < |rest| ==> !Contains(rest[k], sep)
    ensures var parts := [s[..i]] + rest;
      && Join(parts, sep) == s
      && (forall k :: 0 <= k < |parts| ==> !Contains(parts[k], sep))
  {
    FirstPieceHasNoSep(s, sep, i);
    var parts := [s[..i]] + rest;
    assert parts[1..] == rest;
    assert s[i..i + |sep|] == sep;
    assert s == s[..i] + s[i..i + |sep|] + s[i + |sep|..];
    assert forall k :: 1 <= k < |parts| ==> parts[k] == rest[k - 1];
  }

  /** The text before the first `sep` holds no `sep`. */
  lemma FirstPieceHasNoSep(s: string, sep: string, i: nat)
    requires sep != [] && Find(s, sep) == Some(i)
    ensures !Contains(s[..i], sep)
  {
    var p := s[..i];
    if Find(p, sep).Some? {
      var j := Find(p, sep).value;
      assert p[j..j + |sep|] == s[j..j + |sep|];
      assert OccursAt(s, sep, j);
    }
  }

  /** The separator of a slot key. */
  const Dash: string := " - "

  /** What one block displays. `endTime` is `undefined` when the key has
      no " - "; the three details are shown as read. */
  datatype SlotView = SlotView(
    startTime: string,
    endTime: Option<string>,
    name: Value,
    kind: Value,
    room: Value)

  /** The block for `timeTableDetails`, given by its entries. `None` where
      the component throws: no entry at all, or `null` details. */
  function Block(details: seq<(string, Json)>): (r: Option<SlotView>)
    ensures r.Some? <==> details != [] && !details[0].1.Null?
    ensures r.Some? ==> Split(details[0].0, Dash)[0] == r.value.startTime
    ensures r.Some? ==> !Contains(r.value.startTime, Dash)
    ensures r.Some? ==> (r.value.endTime.None? <==> !Contains(details[0].0, Dash))
    ensures r.Some? && r.value.endTime.None? ==> r.value.startTime == details[0].0
    ensures r.Some? && r.value.endTime.Some? ==>
      r.value.startTime + Dash + r.value.endTime.value <= details[0].0 && !Contains(r.value.endTime.value, Dash)
    ensures r.Some? && r.value.endTime.Some? ==>
      Find(details[0].0, Dash) == Some(|r.value.startTime|) && r.value.endTime.value == Split(details[0].0, Dash)[1]
    ensures r.Some? ==> (r.value.name == Get(details[0].1, "subject_name")
      && r.value.kind == Get(details[0].1, "subject_type")
      && r.value.room == Get(details[0].1, "room_code"))
  {
    if details == [] then None
    else
      var key := details[0].0;
      var slot := details[0].1;
      if slot.Null? then None
      else
        var parts := Split(key, Dash);
        assert |parts| > 1 ==> Find(key, Dash) == Some(|parts[0]|);
        Some(SlotView(parts[0], if |parts| > 1 then Some(parts[1]) else None,
          Get(slot, "subject_name"), Get(slot, "subject_type"), Get(slot, "room_code")))
  }

  /** Only the first entry is read: entries after it change nothing. */
  lemma BlockReadsFirstEntry(details: seq<(string, Json)>, more: seq<(string, Json)>)
    requires details != []
    ensures Block(details + more) == Block(details)
  {
    assert (details + more)[0] == details[0];
  }

  // ---------------------------------------------------------------------
  // Round trip with the key the timetable page builds

  predicate EndsWith(s: string, suffix: string)
  {
    |suffix| <= |s| && s[|s| - |suffix|..] == suffix
  }

  /** `a + " - " + b` has its first " - " right after `a` when `a` has no
      " - " and does not end in " -". */
  lemma FindAfter(a: string, b: string)
    requires !Contains(a, Dash) && !EndsWith(a, " -")
    ensures Find(a + Dash + b, Dash) == Some(|a|)
  {
    var s := a + Dash + b;
    assert OccursAt(s, Dash, |a|) by {
      assert s[|a|..|a| + 3] == Dash;
    }
    var r := Find(s, Dash);
    if r.Some? && r.value < |a| {
      NoEarlierDash(a, b, r.value);
    }
  }

  lemma NoEarlierDash(a: string, b: string, i: nat)
    requires !Contains(a, Dash) && !EndsWith(a, " -") && i < |a|
    ensures !OccursAt(a + Dash + b, Dash, i)
  {
    var s := a + Dash + b;
    if i + 3 <= |a| {
      assert s[i..i + 3] == a[i..i + 3];
      assert !OccursAt(a, Dash, i);
    } else if i + 1 == |a| {
      assert s[i + 1] == (a + Dash)[|a|] == ' ';
      assert s[i..i + 3][1] == s[i + 1];
    } else {
      var t := a[|a| - 2..];
      assert s[i..i + 3] == t + " ";
      assert (t + " ")[..2] == t && Dash[..2] == " -";
    }
  }

  /** Splitting `a + " - " + b` gives back `a` and `b` exactly when `b` has
      no " - " and `a` neither has one nor ends in " -". */
  lemma SplitJoin(a: string, b: string)
    ensures Split(a + Dash + b, Dash) == [a, b] <==> !Contains(a, Dash) && !EndsWith(a, " -") && !Contains(b, Dash)
  {
    if !Contains(a, Dash) && !EndsWith(a, " -") && !Contains(b, Dash) {
      SplitJoinWhen(a, b);
    } else if Split(a + Dash + b, Dash) == [a, b] {
      SplitJoinOnlyWhen(a, b);
    }
  }

  lemma SplitJoinWhen(a: string, b: string)
    requires !Contains(a, Dash) && !EndsWith(a, " -") && !Contains(b, Dash)
    ensures Split(a + Dash + b, Dash) == [a, b]
  {
    var s := a + Dash + b;
    FindAfter(a, b);
    assert s[..|a|] == a;
    assert s[|a| + 3..] == b;
  }

  lemma SplitJoinOnlyWhen(a: string, b: string)
    requires Split(a + Dash + b, Dash) == [a, b]
    ensures !Contains(a, Dash) && !EndsWith(a, " -") && !Contains(b, Dash)
  {
    var s := a + Dash + b;
    var parts := Split(s, Dash);
    assert !Contains(parts[0], Dash) && !Contains(parts[1], Dash);
    if EndsWith(a, " -") {
      assert OccursAt(s, Dash, |a| - 2) by {
        assert s[|a| - 2..|a| + 1] == a[|a| - 2..] + " ";
      }
      assert false;
    }
  }

  /** The condition on `a` is needed: a start time ending in " -" moves the
      split point. */
  lemma SplitJoinCounterexample()
    ensures Split("9 -" + Dash + "10", Dash) == ["9", "- 10"]
  {
    var s := "9 -" + Dash + "10";
    assert s == "9 - - 10";
    assert !OccursAt(s, Dash, 0) by { assert s[0] == '9'; }
    assert OccursAt(s, Dash, 1) by { assert s[1..4] == Dash; }
    assert Find(s, Dash) == Some(1);
    var rest := s[4..];
    assert rest == "- 10";
    assert !OccursAt(rest, Dash, 0) by { assert rest[0] == '-'; }
    assert !OccursAt(rest, Dash, 1) by { assert rest[2] == '1'; }
    assert Find(rest, Dash) == None;
    assert Split(rest, Dash) == [rest];
    assert s[..1] == "9";
  }
}
