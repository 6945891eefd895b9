/** The browser state the pages share: `localStorage`, which caches three
    API payloads as JSON text, and the cookies `js-cookie` reads and writes. */
module WebStorage {
  import opened JsValues
  import opened JsonText

  /** The cache keys. */
  const TimetableKey: string := "timetableData"
  const PlannerKey: string := "plannerData"
  const StudentKey: string := "studentData"

  const CacheKeys: set<string> := {TimetableKey, PlannerKey, StudentKey}

  /** The shape a timetable payload must have to be displayed. */
  predicate TimetableShaped(j: Json)
  {
    j.Obj? && Truthy(Get(j, "timetable"))
  }

  /** What each page stores under its cache key. */
  predicate Fits(key: string, j: Json)
  {
    && (key == TimetableKey ==> TimetableShaped(j))
    && (key == StudentKey ==> IsTruthy(j))
  }

  /** `window.localStorage`: string keys mapped to string values. */
  class LocalStorage {
    var items: map<string, string>

    /** What every cache reader relies on: a non-empty timetable cache reads
        back as an object with a truthy `timetable`, a non-empty profile cache
        as a truthy value, and a non-empty planner cache as some value. The
        pages write nothing else under these keys. */
    ghost predicate Valid()
      reads this
    {
      forall key :: key in CacheKeys && Cached(key) ==> Decode(items[key]).Some? && Fits(key, Decode(items[key]).value)
    }

    /** A storage that holds no cache entry, such as a fresh one, is
        valid. */
    constructor (items: map<string, string>)
      ensures this.items == items
      ensures (forall key :: key in CacheKeys ==> key !in items || items[key] == "") ==> Valid()
    {
      this.items := items;
    }

    /** `!!localStorage.getItem(key)` */
    predicate Cached(key: string)
      reads this
    {
      key in items && items[key] != ""
    }

    /** `JSON.parse(localStorage.getItem(key))` for a cache entry. */
    function Load(key: string): (j: Json)
      reads this
      requires Valid() && key in CacheKeys && Cached(key)
      ensures Decode(items[key]) == Some(j)
      ensures Fits(key, j)
    {
      Decode(items[key]).value
    }

    /** The cached payload, if `localStorage.getItem(key)` is truthy. */
    function CacheOf(key: string): (c: Option<Json>)
      reads this
      requires Valid() && key in CacheKeys
      ensures c.Some? <==> Cached(key)
      ensures c.Some? ==> Decode(items[key]) == Some(c.value) && Fits(key, c.value)
    {
      if Cached(key) then Some(Load(key)) else None
    }

    /** `localStorage.setItem(key, value)` */
    method SetItem(key: string, value: string)
      modifies this
      ensures items == old(items)[key := value]
    {
      items := items[key := value];
    }

    /** `localStorage.setItem(key, JSON.stringify(j))`: the entry reads back
        as `j`, and every other entry is unchanged. */
    method Store(key: string, j: Json)
      requires Valid() && Fits(key, j)
      modifies this
      ensures Valid()
      ensures items == old(items)[key := Serialize(j)]
      ensures Decode(items[key]) == Some(j)
      ensures Cached(key)
    {
      DecodeSerialize(j);
      SerializeNonEmpty(j);
      SetItem(key, Serialize(j));
    }
  }

  /** `Cookies.get(name)` over the cookies `cookies`: the stored text, or
      `undefined`. */
  function Cookie(cookies: map<string, string>, name: string): (v: Value)
    ensures v.Some? <==> name in cookies
    ensures v.Some? ==> v.value == Str(cookies[name])
  {
    if name in cookies then Some(Str(cookies[name])) else None
  }

  /** The names in `names`. */
  function NameSet(names: seq<string>): set<string>
  {
    set n | n in names
  }

  lemma NameSetSnoc(names: seq<string>, name: string)
    ensures NameSet(names + [name]) == NameSet(names) + {name}
  {
  }

  /** The cookies `js-cookie` manages: name to (decoded) value. */
  class CookieJar {
    var cookies: map<string, string>

    constructor (cookies: map<string, string>)
      ensures this.cookies == cookies
    {
      this.cookies := cookies;
    }

    /** `Cookies.get(name)`: the value, or `undefined`. */
    function Get(name: string): (v: Value)
      reads this
      ensures v.Some? <==> name in cookies
      ensures v.Some? ==> v.value == Str(cookies[name])
    {
      Cookie(cookies, name)
    }

    /** `!!Cookies.get(name)` */
    predicate Has(name: string)
      reads this
    {
      name in cookies && cookies[name] != ""
    }

    /** `Cookies.set(name, value)`: `js-cookie` stores `String(value)`. */
    method Set(name: string, value: Value)
      modifies this
      ensures cookies == old(cookies)[name := ToString(value)]
    {
      cookies := cookies[name := ToString(value)];
    }

    /** `Cookies.remove(name)` */
    method Remove(name: string)
      modifies this
      ensures cookies == old(cookies) - {name}
    {
      cookies := cookies - {name};
    }

    /** `Cookies.remove(name)` for each of `names`, in order. */
    method RemoveEach(names: seq<string>)
      modifies this
      ensures cookies == old(cookies) - NameSet(names)
    {
      for i := 0 to |names|
        invariant cookies == old(cookies) - NameSet(names[..i])
      {
        assert names[..i + 1] == names[..i] + [names[i]];
        NameSetSnoc(names[..i], names[i]);
        Remove(names[i]);
      }
      assert names[..|names|] == names;
    }
  }
}
