/** The string-to-number conversions the frontend applies to values read
    from API bodies: `parseInt`, `parseFloat` and `Number(...)`, which is
    also what `>`, `>=` and `<` apply to a non-number operand. Numbers are
    exact reals here; floating-point rounding is not modelled. */
module JsNumbers {
  import opened JsValues

  /** A JavaScript number. */
  datatype Number = NaN | Finite(r: real) | Infinite(positive: bool)

  // ---------------------------------------------------------------------
  // White space

  /** JavaScript white space and line terminators: the characters `\s`
      matches and `trim`, `parseInt` and `parseFloat` skip. */
  predicate IsSpace(c: char)
  {
    c in {' ', '\t', '\n', '\U{000B}', '\U{000C}', '\r', '\U{00A0}', '\U{1680}',
          '\U{2028}', '\U{2029}', '\U{202F}', '\U{205F}', '\U{3000}', '\U{FEFF}'}
    || '\U{2000}' <= c <= '\U{200A}'
  }

  /** `s` without its leading white space. */
  function TrimStart(s: string): (t: string)
    ensures |t| <= |s| && t == s[|s| - |t|..]
    ensures t != [] ==> !IsSpace(t[0])
  {
    if s != [] && IsSpace(s[0]) then TrimStart(s[1..]) else s
  }

  /** `s` without its trailing white space. */
  function TrimEnd(s: string): (t: string)
    ensures |t| <= |s| && t == s[..|t|]
    ensures t != [] ==> !IsSpace(t[|t| - 1])
  {
    if s != [] && IsSpace(s[|s| - 1]) then TrimEnd(s[..|s| - 1]) else s
  }

  // ---------------------------------------------------------------------
  // Digits in radix 2, 8 and 16

  /** The value of `c` as a digit in `radix`, if it is one. */
  function DigitIn(c: char, radix: nat): Option<nat>
  {
    var v :=
      if '0' <= c <= '9' then c as int - '0' as int
      else if 'a' <= c <= 'z' then c as int - 'a' as int + 10
      else if 'A' <= c <= 'Z' then c as int - 'A' as int + 10
      else 36;
    if v < radix then Some(v) else None
  }

  predicate AllIn(s: string, radix: nat)
  {
    forall i :: 0 <= i < |s| ==> DigitIn(s[i], radix).Some?
  }

  /** Length of the longest prefix of `s` made of digits in `radix`. */
  function RadixPrefix(s: string, radix: nat): (k: nat)
    ensures k <= |s| && AllIn(s[..k], radix)
    ensures k < |s| ==> DigitIn(s[k], radix).None?
  {
    if s == [] || DigitIn(s[0], radix).None? then 0
    else
      var k := 1 + RadixPrefix(s[1..], radix);
      assert s[..k] == [s[0]] + s[1..][..k - 1];
      k
  }

  /** Value of a run of digits in `radix`, most significant first. */
  function RadixValue(s: string, radix: nat): nat
    requires AllIn(s, radix)
  {
    if s == [] then 0
    else RadixValue(s[..|s| - 1], radix) * radix + DigitIn(s[|s| - 1], radix).value
  }

  // ---------------------------------------------------------------------
  // Decimal literals

  /** `x * 10^e`, one power of ten at a time. */
  function Scale(x: real, e: int): real
    decreases if e < 0 then -e else e
  {
    if e == 0 then x
    else if e > 0 then 10.0 * Scale(x, e - 1)
    else Scale(x, e + 1) / 10.0
  }

  /** An exponent part `e[+-]digits` at the start of `s`: its value and
      its length, or `(0, 0)` when `s` does not start with one. */
  function ScanExponent(s: string): (r: (int, nat))
    ensures r.1 <= |s|
  {
    if s == [] || (s[0] != 'e' && s[0] != 'E') then (0, 0)
    else
      var signed := |s| > 1 && (s[1] == '+' || s[1] == '-');
      var start := if signed then 2 else 1;
      var k := DigitPrefix(s[start..]);
      if k == 0 then (0, 0)
      else
        var v: int := DigitsValue(s[start..][..k]);
        (if signed && s[1] == '-' then -v else v, start + k)
  }

  /** The longest prefix of `s` that is an unsigned decimal literal
      (`digits [. digits] [exponent]` with a digit before or after the
      point), as its value and its length. */
  function ScanDecimal(s: string): (r: Option<(real, nat)>)
    ensures r.Some? ==> 0 < r.value.1 <= |s|
  {
    var i := DigitPrefix(s);
    var hasPoint := i < |s| && s[i] == '.';
    var f := if hasPoint then DigitPrefix(s[i + 1..]) else 0;
    if i == 0 && f == 0 then None
    else
      var fraction := if hasPoint then Scale(DigitsValue(s[i + 1..][..f]) as real, -f) else 0.0;
      var end := if hasPoint then i + 1 + f else i;
      var e := ScanExponent(s[end..]);
      Some((Scale(DigitsValue(s[..i]) as real + fraction, e.0), end + e.1))
  }

  /** `s` without a leading sign, and whether that sign was `-`. */
  function Unsigned(t: string): (r: (bool, string))
    ensures r.1 == if t != [] && (t[0] == '-' || t[0] == '+') then t[1..] else t
  {
    if t != [] && (t[0] == '-' || t[0] == '+') then (t[0] == '-', t[1..]) else (false, t)
  }

  // ---------------------------------------------------------------------
  // The conversions

  /** `parseInt(s)` with no radix argument; `None` is `NaN`. */
  function ParseIntString(s: string): Option<int>
  {
    ParseIntTrimmed(TrimStart(s))
  }

  /** `parseInt` once leading white space is gone. */
  function ParseIntTrimmed(t: string): Option<int>
  {
    var (negative, u) := Unsigned(t);
    if |u| >= 2 && u[0] == '0' && (u[1] == 'x' || u[1] == 'X') then
      var d := u[2..];
      var k := RadixPrefix(d, 16);
      if k == 0 then None
      else Some(if negative then 0 - RadixValue(d[..k], 16) else RadixValue(d[..k], 16))
    else
      var k := DigitPrefix(u);
      if k == 0 then None
      else Some(if negative then 0 - DigitsValue(u[..k]) else DigitsValue(u[..k]))
  }

  /** `parseInt(v)`: the argument is converted to a string first. */
  function ParseInt(v: Value): Option<int>
  {
    ParseIntString(ToString(v))
  }

  /** `parseFloat(s)` */
  function ParseFloatString(s: string): Number
  {
    var (negative, u) := Unsigned(TrimStart(s));
    if |u| >= 8 && u[..8] == "Infinity" then Infinite(!negative)
    else
      match ScanDecimal(u)
      case None => NaN
      case Some(p) => Finite(if negative then -p.0 else p.0)
  }

  /** `parseFloat(v)` */
  function ParseFloat(v: Value): Number
  {
    ParseFloatString(ToString(v))
  }

  /** `Number(s)` for a string: the whole trimmed text must be a literal,
      and the empty string is `0`. */
  function StringToNumber(s: string): Number
  {
    var t := TrimEnd(TrimStart(s));
    if t == [] then Finite(0.0)
    else if |t| > 2 && t[0] == '0' && t[1] in "xXoObB" then
      var radix := if t[1] in "xX" then 16 else if t[1] in "oO" then 8 else 2;
      var d := t[2..];
      if AllIn(d, radix) then Finite(RadixValue(d, radix) as real) else NaN
    else
      var (negative, u) := Unsigned(t);
      if u == "Infinity" then Infinite(!negative)
      else
        match ScanDecimal(u)
        case Some(p) => if p.1 == |u| then Finite(if negative then -p.0 else p.0) else NaN
        case None => NaN
  }

  /** `Number(v)`: `undefined` is `NaN`, `null` is `0`, arrays and objects
      go through their string form. */
  function ToNumber(v: Value): Number
  {
    match v
    case None => NaN
    case Some(j) =>
      match j
      case Null => Finite(0.0)
      case Bool(b) => Finite(if b then 1.0 else 0.0)
      case Num(n) => Finite(n as real)
      case Str(s) => StringToNumber(s)
      case _ => StringToNumber(JsonToString(j))
  }

  /** `x >= bound` for a number `x`; comparisons with `NaN` are false. */
  predicate AtLeast(x: Number, bound: real)
  {
    match x
    case NaN => false
    case Finite(r) => r >= bound
    case Infinite(positive) => positive
  }

  /** `x > bound` */
  predicate Above(x: Number, bound: real)
  {
    match x
    case NaN => false
    case Finite(r) => r > bound
    case Infinite(positive) => positive
  }

  /** `x < bound` */
  predicate Below(x: Number, bound: real)
  {
    match x
    case NaN => false
    case Finite(r) => r < bound
    case Infinite(positive) => !positive
  }

  // ---------------------------------------------------------------------
  // Properties

  lemma DigitPrefixAll(d: string)
    requires IsDigits(d)
    ensures DigitPrefix(d) == |d| && d[..|d|] == d
  {
  }

  /** A number's decimal form starts and ends with a non-space. */
  lemma IntToStringEdges(n: int)
    ensures var s := IntToString(n);
      s != [] && !IsSpace(s[0]) && !IsSpace(s[|s| - 1])
      && TrimStart(s) == s && TrimEnd(s) == s
  {
    NatToStringDigits(if n < 0 then -n else n);
  }

  /** `parseInt(String(n)) === n` */
  lemma ParseIntOfIntString(n: int)
    ensures ParseIntString(IntToString(n)) == Some(n)
  {
    var m: nat := if n < 0 then -n else n;
    var d := NatToString(m);
    NatToStringDigits(m);
    IntToStringEdges(n);
    DigitPrefixAll(d);
    if n < 0 {
      assert Unsigned(IntToString(n)) == (true, d);
    } else {
      assert Unsigned(IntToString(n)) == (false, d);
    }
    assert !(|d| >= 2 && d[0] == '0');
  }

  /** `parseFloat(String(n)) === n` */
  lemma ParseFloatOfIntString(n: int)
    ensures ParseFloatString(IntToString(n)) == Finite(n as real)
  {
    var m: nat := if n < 0 then -n else n;
    var d := NatToString(m);
    NatToStringDigits(m);
    IntToStringEdges(n);
    DigitPrefixAll(d);
    if n < 0 {
      assert Unsigned(IntToString(n)) == (true, d);
    } else {
      assert Unsigned(IntToString(n)) == (false, d);
    }
    assert ScanDecimal(d) == Some((m as real, |d|));
  }

  /** `Number(String(n)) === n` */
  lemma StringToNumberOfIntString(n: int)
    ensures StringToNumber(IntToString(n)) == Finite(n as real)
  {
    var m: nat := if n < 0 then -n else n;
    var d := NatToString(m);
    NatToStringDigits(m);
    IntToStringEdges(n);
    DigitPrefixAll(d);
    if n < 0 {
      assert Unsigned(IntToString(n)) == (true, d);
    } else {
      assert Unsigned(IntToString(n)) == (false, d);
    }
    assert ScanDecimal(d) == Some((m as real, |d|));
  }

  /** `parseInt` skips any amount of leading white space. */
  lemma {:induction false} ParseIntSkipsSpace(w: string, s: string)
    requires forall i :: 0 <= i < |w| ==> IsSpace(w[i])
    ensures ParseIntString(w + s) == ParseIntString(s)
  {
    TrimStartSpace(w, s);
  }

  lemma {:induction false} TrimStartSpace(w: string, s: string)
    requires forall i :: 0 <= i < |w| ==> IsSpace(w[i])
    ensures TrimStart(w + s) == TrimStart(s)
  {
    if w != [] {
      assert (w + s)[1..] == w[1..] + s;
      TrimStartSpace(w[1..], s);
    } else {
      assert w + s == s;
    }
  }
}
