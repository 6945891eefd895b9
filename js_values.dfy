/** JavaScript values as the frontend and the proxy see them once a body
    has been decoded from JSON, with the few operators the code applies to
    them: truthiness, `||`, property reads, property assignment,
    `Object.keys` / `Object.entries` and string conversion. */
module JsValues {

  datatype Option<+T> = None | Some(value: T)

  /** A JSON value. Numbers are integers in this model; object fields are
      kept in insertion order, as `Object.keys` reports them. */
  datatype Json =
    | Null
    | Bool(b: bool)
    | Num(n: int)
    | Str(s: string)
    | Arr(items: seq<Json>)
    | Obj(fields: seq<(string, Json)>)

  /** The result of reading a property: `None` is JavaScript's `undefined`. */
  type Value = Option<Json>

  // ---------------------------------------------------------------------
  // Truthiness and `||`

  predicate IsTruthy(j: Json)
  {
    match j
    case Null => false
    case Bool(b) => b
    case Num(n) => n != 0
    case Str(s) => s != ""
    case Arr(_) => true
    case Obj(_) => true
  }

  /** `!!v`: `undefined`, `null`, `false`, `0` and `""` are falsy. */
  predicate Truthy(v: Value)
  {
    v.Some? && IsTruthy(v.value)
  }

  /** `v || fallback` */
  function Or(v: Value, fallback: Json): Json
  {
    if Truthy(v) then v.value else fallback
  }

  // ---------------------------------------------------------------------
  // Decimal digits

  predicate IsDigit(c: char)
  {
    '0' <= c <= '9'
  }

  predicate IsDigits(s: string)
  {
    forall i :: 0 <= i < |s| ==> IsDigit(s[i])
  }

  function DigitChar(d: nat): (c: char)
    requires d < 10
    ensures IsDigit(c)
  {
    ('0' as int + d) as char
  }

  function DigitValue(c: char): nat
    requires IsDigit(c)
  {
    c as int - '0' as int
  }

  /** Value of a run of decimal digits, most significant first. */
  function DigitsValue(s: string): nat
    requires IsDigits(s)
  {
    if s == [] then 0 else DigitsValue(s[..|s| - 1]) * 10 + DigitValue(s[|s| - 1])
  }

  /** Length of the longest prefix of `s` made of decimal digits. */
  function DigitPrefix(s: string): (k: nat)
    ensures k <= |s| && IsDigits(s[..k])
    ensures k < |s| ==> !IsDigit(s[k])
  {
    if s == [] || !IsDigit(s[0]) then 0
    else
      var k := 1 + DigitPrefix(s[1..]);
      assert s[..k] == [s[0]] + s[1..][..k - 1];
      k
  }

  /** `String(n)` for a non-negative integer. */
  function NatToString(n: nat): string
  {
    if n < 10 then [DigitChar(n)] else NatToString(n / 10) + [DigitChar(n % 10)]
  }

  /** `String(n)` for an integer. */
  function IntToString(n: int): string
  {
    if n < 0 then "-" + NatToString(-n) else NatToString(n)
  }

  /** `NatToString` writes a non-empty run of digits whose value is `n`,
      with no leading zero. */
  lemma {:induction false} NatToStringDigits(n: nat)
    ensures var s := NatToString(n);
      && |s| > 0 && IsDigits(s) && DigitsValue(s) == n
      && (s[0] == '0' ==> n == 0)
  {
    if n >= 10 {
      NatToStringDigits(n / 10);
      var s := NatToString(n);
      assert s[..|s| - 1] == NatToString(n / 10);
    }
  }

  lemma NatToStringInjective(m: nat, n: nat)
    requires NatToString(m) == NatToString(n)
    ensures m == n
  {
    NatToStringDigits(m);
    NatToStringDigits(n);
  }

  /** The array index a property name denotes: a canonical decimal numeral. */
  function CanonicalIndex(key: string): Option<nat>
  {
    if key != [] && IsDigits(key) && (key[0] != '0' || key == "0")
    then Some(DigitsValue(key)) else None
  }

  lemma CanonicalIndexOfNat(n: nat)
    ensures CanonicalIndex(NatToString(n)) == Some(n)
  {
    NatToStringDigits(n);
  }

  // ---------------------------------------------------------------------
  // Property access

  /** The value stored under `key` in an object's field list (the first
      occurrence; objects built by this model never repeat a key). */
  function Lookup(fields: seq<(string, Json)>, key: string): Value
  {
    if fields == [] then None
    else if fields[0].0 == key then Some(fields[0].1)
    else Lookup(fields[1..], key)
  }

  function FieldKeys(fields: seq<(string, Json)>): (ks: seq<string>)
    ensures |ks| == |fields|
    ensures forall i :: 0 <= i < |fields| ==> ks[i] == fields[i].0
  {
    if fields == [] then [] else [fields[0].0] + FieldKeys(fields[1..])
  }

  lemma {:induction false} LookupPresent(fields: seq<(string, Json)>, key: string)
    ensures Lookup(fields, key).Some? <==> key in FieldKeys(fields)
  {
    if fields != [] {
      LookupPresent(fields[1..], key);
    }
  }

  /** `j[key]` for a non-null `j`: an object's own field, an array's or a
      string's index or `length`; every other read is `undefined`.
      (On `null` JavaScript throws; callers test for `null` first.) */
  function Get(j: Json, key: string): Value
  {
    match j
    case Obj(fs) => Lookup(fs, key)
    case Arr(xs) =>
      if key == "length" then Some(Num(|xs|))
      else (
        match CanonicalIndex(key)
        case Some(i) => if i < |xs| then Some(xs[i]) else None
        case None => None)
    case Str(s) =>
      if key == "length" then Some(Num(|s|))
      else (
        match CanonicalIndex(key)
        case Some(i) => if i < |s| then Some(Str([s[i]])) else None
        case None => None)
    case _ => None
  }

  /** `v?.key` */
  function Member(v: Value, key: string): Value
  {
    if v.None? || v.value.Null? then None else Get(v.value, key)
  }

  /** `obj[key] = v`: an existing field is overwritten where it stands, a
      new one is appended. */
  function Put(fields: seq<(string, Json)>, key: string, v: Json): seq<(string, Json)>
  {
    if fields == [] then [(key, v)]
    else if fields[0].0 == key then [(key, v)] + fields[1..]
    else [fields[0]] + Put(fields[1..], key, v)
  }

  /** After `obj[key] = v`, `obj[key]` is `v`, every other property reads as
      before, and the key order is kept, with a new key last. */
  lemma {:induction false} PutLookup(fields: seq<(string, Json)>, key: string, v: Json)
    ensures var r := Put(fields, key, v);
      && Lookup(r, key) == Some(v)
      && (forall k :: k != key ==> Lookup(r, k) == Lookup(fields, k))
      && FieldKeys(r) == if key in FieldKeys(fields) then FieldKeys(fields) else FieldKeys(fields) + [key]
  {
    if fields != [] && fields[0].0 != key {
      var r := Put(fields, key, v);
      PutLookup(fields[1..], key, v);
      assert r[0] == fields[0] && r[1..] == Put(fields[1..], key, v);
      assert FieldKeys(fields) == [fields[0].0] + FieldKeys(fields[1..]);
      assert FieldKeys(r) == [fields[0].0] + FieldKeys(r[1..]);
    } else if fields != [] {
      var r := Put(fields, key, v);
      assert r[1..] == fields[1..];
      assert FieldKeys(r) == [key] + FieldKeys(fields[1..]);
    }
  }

  /** Assigning a property that none of the first fields has leaves
      those fields in place. */
  lemma {:induction false} PutAfter(a: seq<(string, Json)>, b: seq<(string, Json)>, key: string, w: Json)
    requires forall i :: 0 <= i < |a| ==> a[i].0 != key
    ensures Put(a + b, key, w) == a + Put(b, key, w)
  {
    if a == [] {
      assert a + b == b;
    } else {
      var t, p := a + b, Put(b, key, w);
      assert t[0] == a[0] && t[1..] == a[1..] + b;
      PutAfter(a[1..], b, key, w);
      assert [a[0]] + a[1..] == a;
      assert [a[0]] + (a[1..] + p) == ([a[0]] + a[1..]) + p;
    }
  }

  /** Assigning a property the object does not have appends it. */
  lemma PutFresh(fields: seq<(string, Json)>, key: string, v: Json)
    requires key !in FieldKeys(fields)
    ensures Put(fields, key, v) == fields + [(key, v)]
  {
    PutAfter(fields, [], key, v);
    assert fields + [] == fields;
  }

  /** Assigning the property that was appended last replaces it there. */
  lemma PutLast(fields: seq<(string, Json)>, key: string, v: Json, w: Json)
    requires key !in FieldKeys(fields)
    ensures Put(fields + [(key, v)], key, w) == fields + [(key, w)]
  {
    PutAfter(fields, [(key, v)], key, w);
  }

  /** `Object.entries(v)`; `None` where JavaScript throws (`undefined`, `null`). */
  function Entries(v: Value): Option<seq<(string, Json)>>
  {
    match v
    case None => None
    case Some(j) =>
      match j
      case Null => None
      case Obj(fs) => Some(fs)
      case Arr(xs) => Some(seq(|xs|, i requires 0 <= i < |xs| => (NatToString(i), xs[i])))
      case Str(s) => Some(seq(|s|, i requires 0 <= i < |s| => (NatToString(i), Str([s[i]]))))
      case _ => Some([])
  }

  /** `Object.keys(v)`; `None` where JavaScript throws. */
  function Keys(v: Value): Option<seq<string>>
  {
    match Entries(v)
    case None => None
    case Some(es) => Some(FieldKeys(es))
  }

  /** Every key `Object.keys` reports reads back the value `Object.entries`
      pairs it with. */
  lemma EntriesReadBack(j: Json, i: nat)
    requires Entries(Some(j)).Some? && i < |Entries(Some(j)).value|
    requires j.Obj? ==> i == 0 || Entries(Some(j)).value[i].0 !in FieldKeys(j.fields[..i])
    ensures Get(j, Entries(Some(j)).value[i].0) == Some(Entries(Some(j)).value[i].1)
  {
    match j
    case Obj(fs) => LookupAt(fs, i);
    case Arr(xs) => CanonicalIndexOfNat(i); NatToStringDigits(i);
    case Str(s) => CanonicalIndexOfNat(i); NatToStringDigits(i);
    case _ =>
  }

  lemma {:induction false} LookupAt(fields: seq<(string, Json)>, i: nat)
    requires i < |fields|
    requires i == 0 || fields[i].0 !in FieldKeys(fields[..i])
    ensures Lookup(fields, fields[i].0) == Some(fields[i].1)
  {
    if i > 0 {
      assert fields[0].0 == FieldKeys(fields[..i])[0];
      assert FieldKeys(fields[1..][..i - 1]) == FieldKeys(fields[..i])[1..];
      LookupAt(fields[1..], i - 1);
    }
  }

  // ---------------------------------------------------------------------
  // Searching strings

  /** `sep` occurs in `s` at position `i`. */
  predicate OccursAt(s: string, sep: string, i: nat)
  {
    i + |sep| <= |s| && s[i..i + |sep|] == sep
  }

  /** The first position of `sep` in `s` (`s.indexOf(sep)`). */
  function Find(s: string, sep: string): (r: Option<nat>)
    requires sep != []
    ensures r.Some? ==> OccursAt(s, sep, r.value)
    ensures r.Some? ==> forall i: nat :: i < r.value ==> !OccursAt(s, sep, i)
    ensures r.None? ==> forall i: nat :: !OccursAt(s, sep, i)
  {
    if |s| < |sep| then None
    else if s[..|sep|] == sep then Some(0)
    else
      assert !OccursAt(s, sep, 0);
      match Find(s[1..], sep)
      case None =>
        assert forall k: nat :: !OccursAt(s, sep, k) by {
          forall k: nat ensures !OccursAt(s, sep, k) {
            if k > 0 { OccursShift(s, sep, k - 1); }
          }
        }
        None
      case Some(i) =>
        assert OccursAt(s, sep, i + 1) by { OccursShift(s, sep, i); }
        assert forall k: nat :: k < i + 1 ==> !OccursAt(s, sep, k) by {
          forall k: nat | k < i + 1 ensures !OccursAt(s, sep, k) {
            if k > 0 { OccursShift(s, sep, k - 1); }
          }
        }
        Some(i + 1)
  }

  lemma OccursShift(s: string, sep: string, k: nat)
    requires s != []
    ensures OccursAt(s[1..], sep, k) == OccursAt(s, sep, k + 1)
  {
    if k + 1 + |sep| <= |s| {
      assert s[1..][k..k + |sep|] == s[k + 1..k + 1 + |sep|];
    }
  }

  /** `s.includes(sep)` for a non-empty `sep`. */
  predicate Contains(s: string, sep: string)
    requires sep != []
  {
    Find(s, sep).Some?
  }

  // ---------------------------------------------------------------------
  // String conversion (template literals, `String(v)`)

  /** `String(v)`, as a template literal `${v}` renders it. */
  function ToString(v: Value): string
  {
    match v
    case None => "undefined"
    case Some(j) => JsonToString(j)
  }

  function JsonToString(j: Json): string
  {
    match j
    case Null => "null"
    case Bool(b) => if b then "true" else "false"
    case Num(n) => IntToString(n)
    case Str(s) => s
    case Arr(xs) => JoinItems(xs)
    case Obj(_) => "[object Object]"
  }

  /** `xs.join(",")`, where `null` elements print as the empty string. */
  function JoinItems(xs: seq<Json>): string
  {
    if xs == [] then ""
    else
      var head := if xs[0].Null? then "" else JsonToString(xs[0]);
      if |xs| == 1 then head else head + "," + JoinItems(xs[1..])
  }
}
