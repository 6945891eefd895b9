/** `JSON.stringify` and `JSON.parse` for the values this model stores in
    `localStorage`. `Serialize` writes compact JSON text; `Decode` reads it
    back, and `DecodeSerialize` proves that it reads back exactly the value
    that was written, which is what every cache read in the frontend relies
    on. */
module JsonText {
  import opened JsValues

  // ---------------------------------------------------------------------
  // Writing

  /** String contents with `"` and `\` escaped. */
  function Escape(s: string): string
  {
    if s == [] then []
    else (if s[0] == '"' || s[0] == '\\' then ['\\', s[0]] else [s[0]]) + Escape(s[1..])
  }

  function Quote(s: string): string
  {
    "\"" + Escape(s) + "\""
  }

  /** `JSON.stringify(j)` */
  function Serialize(j: Json): string
  {
    match j
    case Null => "null"
    case Bool(b) => if b then "true" else "false"
    case Num(n) => IntToString(n)
    case Str(s) => Quote(s)
    case Arr(xs) => "[" + SerializeItems(xs) + "]"
    case Obj(fs) => "{" + SerializeFields(fs) + "}"
  }

  function SerializeItems(xs: seq<Json>): string
  {
    if xs == [] then ""
    else if |xs| == 1 then Serialize(xs[0])
    else Serialize(xs[0]) + "," + SerializeItems(xs[1..])
  }

  function SerializeField(f: (string, Json)): string
  {
    Quote(f.0) + ":" + Serialize(f.1)
  }

  function SerializeFields(fs: seq<(string, Json)>): string
  {
    if fs == [] then ""
    else if |fs| == 1 then SerializeField(fs[0])
    else SerializeField(fs[0]) + "," + SerializeFields(fs[1..])
  }

  // ---------------------------------------------------------------------
  // Reading: each parser returns the value and the text after it.

  /** The body of a string literal up to its closing quote. */
  function ParseStringBody(s: string): (r: Option<(string, string)>)
    ensures r.Some? ==> |r.value.1| < |s|
  {
    if s == [] then None
    else if s[0] == '"' then Some(([], s[1..]))
    else if s[0] == '\\' then
      if |s| < 2 then None
      else (
        match ParseStringBody(s[2..])
        case None => None
        case Some(p) => Some(([s[1]] + p.0, p.1)))
    else
      match ParseStringBody(s[1..])
      case None => None
      case Some(p) => Some(([s[0]] + p.0, p.1))
  }

  function ParseValue(s: string): (r: Option<(Json, string)>)
    ensures r.Some? ==> |r.value.1| < |s|
    decreases |s|, 0
  {
    if s == [] then None
    else if s[0] == 'n' then
      if |s| >= 4 && s[..4] == "null" then Some((Null, s[4..])) else None
    else if s[0] == 't' then
      if |s| >= 4 && s[..4] == "true" then Some((Bool(true), s[4..])) else None
    else if s[0] == 'f' then
      if |s| >= 5 && s[..5] == "false" then Some((Bool(false), s[5..])) else None
    else if s[0] == '"' then (
      match ParseStringBody(s[1..])
      case None => None
      case Some(p) => Some((Str(p.0), p.1)))
    else if s[0] == '-' then
      var k := DigitPrefix(s[1..]);
      if k == 0 then None else Some((Num(-(DigitsValue(s[1..][..k]) as int)), s[1..][k..]))
    else if IsDigit(s[0]) then
      var k := DigitPrefix(s);
      Some((Num(DigitsValue(s[..k])), s[k..]))
    else if s[0] == '[' then
      if |s| >= 2 && s[1] == ']' then Some((Arr([]), s[2..]))
      else (
        match ParseItems(s[1..])
        case None => None
        case Some(p) => Some((Arr(p.0), p.1)))
    else if s[0] == '{' then
      if |s| >= 2 && s[1] == '}' then Some((Obj([]), s[2..]))
      else (
        match ParseFields(s[1..])
        case None => None
        case Some(p) => Some((Obj(p.0), p.1)))
    else None
  }

  /** `value (',' value)* ']'` */
  function ParseItems(s: string): (r: Option<(seq<Json>, string)>)
    ensures r.Some? ==> |r.value.1| < |s|
    decreases |s|, 1
  {
    match ParseValue(s)
    case None => None
    case Some(p) =>
      var rest := p.1;
      if rest == [] then None
      else if rest[0] == ']' then Some(([p.0], rest[1..]))
      else if rest[0] == ',' then (
        match ParseItems(rest[1..])
        case None => None
        case Some(q) => Some(([p.0] + q.0, q.1)))
      else None
  }

  /** `"key" ':' value` */
  function ParseField(s: string): (r: Option<((string, Json), string)>)
    ensures r.Some? ==> |r.value.1| < |s|
    decreases |s|, 1
  {
    if s == [] || s[0] != '"' then None
    else
      match ParseStringBody(s[1..])
      case None => None
      case Some(k) =>
        var rest := k.1;
        if rest == [] || rest[0] != ':' then None
        else (
          match ParseValue(rest[1..])
          case None => None
          case Some(v) => Some(((k.0, v.0), v.1)))
  }

  /** `field (',' field)* '}'` */
  function ParseFields(s: string): (r: Option<(seq<(string, Json)>, string)>)
    ensures r.Some? ==> |r.value.1| < |s|
    decreases |s|, 2
  {
    match ParseField(s)
    case None => None
    case Some(p) =>
      var rest := p.1;
      if rest == [] then None
      else if rest[0] == '}' then Some(([p.0], rest[1..]))
      else if rest[0] == ',' then (
        match ParseFields(rest[1..])
        case None => None
        case Some(q) => Some(([p.0] + q.0, q.1)))
      else None
  }

  /** `JSON.parse(text)`; `None` where it would throw. */
  function Decode(text: string): Option<Json>
  {
    match ParseValue(text)
    case Some(p) => if p.1 == [] then Some(p.0) else None
    case None => None
  }

  // ---------------------------------------------------------------------
  // Round trip

  /** What may follow a value inside serialized text. */
  predicate Delimited(rest: string)
  {
    rest == [] || rest[0] == ',' || rest[0] == ']' || rest[0] == '}'
  }

  lemma {:induction false} ParseEscaped(t: string, rest: string)
    ensures ParseStringBody(Escape(t) + "\"" + rest) == Some((t, rest))
  {
    if t == [] {
      assert Escape(t) + "\"" + rest == ['"'] + rest;
    } else {
      var tail := Escape(t[1..]) + "\"" + rest;
      ParseEscaped(t[1..], rest);
      var head := if t[0] == '"' || t[0] == '\\' then ['\\', t[0]] else [t[0]];
      assert Escape(t) == head + Escape(t[1..]);
      var s := head + tail;
      assert Escape(t) + "\"" + rest == s;
      assert s[|head|..] == tail;
      assert ParseStringBody(s) == Some(([t[0]] + t[1..], rest));
      assert [t[0]] + t[1..] == t;
    }
  }

  lemma ParseQuoted(t: string, rest: string)
    ensures ParseValue(Quote(t) + rest) == Some((Str(t), rest))
  {
    var s := Quote(t) + rest;
    assert s[0] == '"';
    assert s[1..] == Escape(t) + "\"" + rest;
    ParseEscaped(t, rest);
  }

  /** A run of digits followed by a delimiter is read as that whole run. */
  lemma {:induction false} DigitRun(d: string, rest: string)
    requires IsDigits(d) && Delimited(rest)
    ensures DigitPrefix(d + rest) == |d| && (d + rest)[..|d|] == d && (d + rest)[|d|..] == rest
  {
    var s := d + rest;
    if d == [] {
      assert s == rest;
    } else {
      assert s[0] == d[0] && IsDigit(s[0]);
      assert s[1..] == d[1..] + rest;
      DigitRun(d[1..], rest);
      assert DigitPrefix(s) == 1 + DigitPrefix(s[1..]);
    }
  }

  lemma ParseNatural(n: nat, rest: string)
    requires Delimited(rest)
    ensures ParseValue(NatToString(n) + rest) == Some((Num(n), rest))
  {
    var d := NatToString(n);
    NatToStringDigits(n);
    DigitRun(d, rest);
    var s := d + rest;
    assert s[0] == d[0] && IsDigit(s[0]);
  }

  lemma ParseNegative(n: nat, rest: string)
    requires Delimited(rest) && n > 0
    ensures ParseValue("-" + NatToString(n) + rest) == Some((Num(-(n as int)), rest))
  {
    var d := NatToString(n);
    NatToStringDigits(n);
    var s := "-" + d + rest;
    assert s[1..] == d + rest;
    DigitRun(d, rest);
  }

  lemma ParseInteger(n: int, rest: string)
    requires Delimited(rest)
    ensures ParseValue(IntToString(n) + rest) == Some((Num(n), rest))
  {
    if n < 0 {
      ParseNegative(-n, rest);
    } else {
      ParseNatural(n, rest);
    }
  }

  /** Every serialized value starts with a character that opens a value. */
  lemma SerializeStart(j: Json)
    ensures var s := Serialize(j); |s| > 0 && s[0] != ']' && s[0] != '}' && s[0] != ','
  {
    if j.Num? {
      if j.n < 0 { } else { NatToStringDigits(j.n); }
    }
  }

  lemma {:induction false} ParseSerialize(j: Json, rest: string)
    requires Delimited(rest)
    ensures ParseValue(Serialize(j) + rest) == Some((j, rest))
    decreases j, 2
  {
    match j
    case Null =>
      assert (Serialize(j) + rest)[..4] == "null";
    case Bool(b) =>
      if b { assert (Serialize(j) + rest)[..4] == "true"; }
      else { assert (Serialize(j) + rest)[..5] == "false"; }
    case Num(n) =>
      ParseInteger(n, rest);
    case Str(t) =>
      ParseQuoted(t, rest);
    case Arr(xs) =>
      ParseArray(xs, rest);
    case Obj(fs) =>
      ParseObject(fs, rest);
  }

  lemma {:induction false} ParseArray(xs: seq<Json>, rest: string)
    requires Delimited(rest)
    ensures ParseValue(Serialize(Arr(xs)) + rest) == Some((Arr(xs), rest))
    decreases xs, 2
  {
    var s := Serialize(Arr(xs)) + rest;
    assert s == "[" + (SerializeItems(xs) + "]" + rest);
    assert s[1..] == SerializeItems(xs) + "]" + rest;
    if xs == [] {
      assert s[1] == ']';
      assert s[2..] == rest;
    } else {
      ItemsStart(xs);
      ParseSerializeItems(xs, rest);
    }
  }

  lemma {:induction false} ParseObject(fs: seq<(string, Json)>, rest: string)
    requires Delimited(rest)
    ensures ParseValue(Serialize(Obj(fs)) + rest) == Some((Obj(fs), rest))
    decreases fs, 2
  {
    var s := Serialize(Obj(fs)) + rest;
    assert s == "{" + (SerializeFields(fs) + "}" + rest);
    assert s[1..] == SerializeFields(fs) + "}" + rest;
    if fs == [] {
      assert s[1] == '}';
      assert s[2..] == rest;
    } else {
      assert SerializeFields(fs)[0] == '"';
      ParseSerializeFields(fs, rest);
    }
  }

  lemma ItemsStart(xs: seq<Json>)
    requires xs != []
    ensures |SerializeItems(xs)| > 0 && SerializeItems(xs)[0] != ']'
  {
    var first := Serialize(xs[0]);
    SerializeStart(xs[0]);
    if |xs| > 1 {
      var tail := [','] + SerializeItems(xs[1..]);
      assert SerializeItems(xs) == first + tail;
      assert (first + tail)[0] == first[0];
    }
  }

  lemma {:induction false} ParseSerializeItems(xs: seq<Json>, rest: string)
    requires xs != []
    ensures ParseItems(SerializeItems(xs) + "]" + rest) == Some((xs, rest))
    decreases xs, 1
  {
    var s := SerializeItems(xs) + "]" + rest;
    if |xs| == 1 {
      var close := [']'] + rest;
      assert s == Serialize(xs[0]) + close;
      ParseSerialize(xs[0], close);
      assert close[1..] == rest;
      assert [xs[0]] == xs;
    } else {
      var tail := SerializeItems(xs[1..]) + "]" + rest;
      var next := [','] + tail;
      assert s == Serialize(xs[0]) + next;
      ParseSerialize(xs[0], next);
      ParseSerializeItems(xs[1..], rest);
      ItemsStep(xs[0], xs[1..], Serialize(xs[0]), tail, rest);
      assert [xs[0]] + xs[1..] == xs;
    }
  }

  /** An item followed by a comma and further items parses as one list. */
  lemma ItemsStep(x: Json, ys: seq<Json>, head: string, tail: string, rest: string)
    requires ParseValue(head + ([','] + tail)) == Some((x, [','] + tail))
    requires ParseItems(tail) == Some((ys, rest))
    ensures ParseItems(head + ([','] + tail)) == Some(([x] + ys, rest))
  {
    assert ([','] + tail)[1..] == tail;
  }

  lemma {:induction false} ParseSerializeField(f: (string, Json), rest: string)
    requires Delimited(rest)
    ensures ParseField(SerializeField(f) + rest) == Some((f, rest))
    decreases f, 1
  {
    var value := Serialize(f.1) + rest;
    var after := [':'] + value;
    var body := Escape(f.0) + "\"" + after;
    var s := SerializeField(f) + rest;
    assert s == ['"'] + body;
    assert s[1..] == body;
    ParseEscaped(f.0, after);
    assert after[1..] == value;
    ParseSerialize(f.1, rest);
  }

  lemma {:induction false} ParseSerializeFields(fs: seq<(string, Json)>, rest: string)
    requires fs != []
    ensures ParseFields(SerializeFields(fs) + "}" + rest) == Some((fs, rest))
    decreases fs, 1
  {
    var s := SerializeFields(fs) + "}" + rest;
    if |fs| == 1 {
      var close := ['}'] + rest;
      assert s == SerializeField(fs[0]) + close;
      ParseSerializeField(fs[0], close);
      assert close[1..] == rest;
      assert [fs[0]] == fs;
    } else {
      var tail := SerializeFields(fs[1..]) + "}" + rest;
      var next := [','] + tail;
      assert s == SerializeField(fs[0]) + next;
      ParseSerializeField(fs[0], next);
      ParseSerializeFields(fs[1..], rest);
      FieldsStep(fs[0], fs[1..], SerializeField(fs[0]), tail, rest);
      assert [fs[0]] + fs[1..] == fs;
    }
  }

  /** A field followed by a comma and further fields parses as one list. */
  lemma FieldsStep(f: (string, Json), gs: seq<(string, Json)>, head: string, tail: string, rest: string)
    requires ParseField(head + ([','] + tail)) == Some((f, [','] + tail))
    requires ParseFields(tail) == Some((gs, rest))
    ensures ParseFields(head + ([','] + tail)) == Some(([f] + gs, rest))
  {
    assert ([','] + tail)[1..] == tail;
  }

  /** `JSON.parse(JSON.stringify(j))` gives back `j`. */
  lemma DecodeSerialize(j: Json)
    ensures Decode(Serialize(j)) == Some(j)
  {
    ParseSerialize(j, []);
    assert Serialize(j) + [] == Serialize(j);
  }

  /** Serialized text is never empty, so a cached entry is always truthy. */
  lemma SerializeNonEmpty(j: Json)
    ensures Serialize(j) != ""
  {
    SerializeStart(j);
  }
}
