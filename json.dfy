/** The parsed JSON document as the document library (ArduinoJson) hands it
    to the deserializers, and the three library behaviours they rely on:
    reading a member or element, converting a value with `.as<T>()`, and
    building a filter document by subscript assignment. The parser itself is
    not modelled; what filtering does to a parsed document is modelled by
    `Filter`, which the lemmas about filters assume the parser applies. */
module Json {
  import opened Wrappers
  import opened Ints

  /** A JSON value. Integers and floats are kept apart, as the library keeps
      them; an object is a map, so the order of its members is not kept. */
  datatype Json =
    | Null
    | Boolean(b: bool)
    | Integer(i: int)
    | Float(x: real)
    | Text(s: string)
    | Array(elems: seq<Json>)
    | Object(members: map<string, Json>)

  /** The library's `DeserializationError` codes. */
  datatype DeserializationError = Ok | EmptyInput | IncompleteInput | InvalidInput | NoMemory | TooDeep

  /** A code that makes `if (error)` true: every code except Ok. */
  type ParseError = e: DeserializationError | e != Ok witness InvalidInput

  /** `v[key]`: the member, or null when `v` is no object or has no such key. */
  function Get(v: Json, key: string): Json
  {
    if v.Object? && key in v.members then v.members[key] else Null
  }

  /** `v[index]`: the element, or null when `v` is no array or too short. */
  function At(v: Json, index: nat): Json
  {
    if v.Array? && index < |v.elems| then v.elems[index] else Null
  }

  /** What a range-for over `v.as<JsonArray>()` visits: the elements of an
      array, and nothing for any other value. */
  function Elements(v: Json): seq<Json>
  {
    if v.Array? then v.elems else []
  }

  /** C's conversion of a float to an integer: truncation toward zero. */
  function TruncateTowardZero(x: real): (n: int)
    ensures 0.0 <= x ==> n as real <= x < n as real + 1.0
    ensures x < 0.0 ==> n as real - 1.0 < x <= n as real
  {
    if 0.0 <= x then x.Floor else -((-x).Floor)
  }

  /** The integer `.as<T>()` of an integral `T` starts from: an integer as it
      is, a float truncated toward zero, a boolean as 1 or 0, and nothing for
      other kinds (texts are not parsed as numbers here). */
  function IntegralValue(v: Json): Option<int>
  {
    match v
    case Integer(i) => Some(i)
    case Float(x) => Some(TruncateTowardZero(x))
    case Boolean(b) => Some(if b then 1 else 0)
    case _ => None
  }

  /** `.as<T>()` for an integral `T` whose values are `lo <= n < limit`: the
      number when `T` can hold it, 0 when it cannot or when the value is no
      number (missing members read as null, and so as 0). */
  function AsIntIn(v: Json, lo: int, limit: int): (n: int)
    requires lo <= 0 < limit
    ensures lo <= n < limit
    ensures IntegralValue(v).None? ==> n == 0
    ensures IntegralValue(v).Some? && lo <= IntegralValue(v).value < limit ==> n == IntegralValue(v).value
    ensures IntegralValue(v).Some? && !(lo <= IntegralValue(v).value < limit) ==> n == 0
  {
    match IntegralValue(v)
    case Some(n) => if lo <= n < limit then n else 0
    case None => 0
  }

  /** `.as<int64_t>()`. */
  function AsInt64(v: Json): Int64
  {
    AsIntIn(v, INT64_MIN, INT64_LIMIT) as Int64
  }

  /** `.as<int>()`, with the ESP32's 32-bit `int`. */
  function AsInt32(v: Json): Int32
  {
    AsIntIn(v, INT32_MIN, INT32_LIMIT) as Int32
  }

  /** `.as<float>()`, with `float` taken as a real number (no rounding): a
      number as it is, a boolean as 1 or 0, and 0 for anything else (texts
      are not parsed as numbers here). */
  function AsFloat(v: Json): real
  {
    match v
    case Integer(i) => i as real
    case Float(x) => x
    case Boolean(b) => if b then 1.0 else 0.0
    case _ => 0.0
  }

  /** `.as<const char *>()` stored into a `String`: the text of a string
      value; any other value gives a null pointer, which reads as "". */
  function AsText(v: Json): string
  {
    if v.Text? then v.s else ""
  }

  /** One subscript of an assignment `doc[s0][s1]...[sn] = value`. */
  datatype Step = Key(key: string) | Index(index: nat)

  /** `n` elements: those of `es`, then as many nulls as it takes. */
  function PadTo(es: seq<Json>, n: nat): (r: seq<Json>)
    ensures |r| == if |es| < n then n else |es|
    ensures forall k :: 0 <= k < |es| ==> r[k] == es[k]
    ensures forall k :: |es| <= k < |r| ==> r[k] == Null
  {
    if n <= |es| then es else es + seq(n - |es|, _ => Null)
  }

  /** The document after `v[s0]...[sn] = value`. A null node on the path
      becomes the container its subscript asks for (an object for a key, an
      array for an index, padded with nulls up to that index); a node that is
      neither null nor a container of that kind cannot be subscripted, and
      the assignment then leaves the document as it was. */
  function SetPath(v: Json, path: seq<Step>, value: Json): Json
    decreases |path|
  {
    if path == [] then value
    else match path[0]
      case Key(k) =>
        if v.Null? then Object(map[k := SetPath(Null, path[1..], value)])
        else if v.Object? then Object(v.members[k := SetPath(Get(v, k), path[1..], value)])
        else v
      case Index(i) =>
        if v.Null? || v.Array? then
          var es := PadTo(Elements(v), i + 1);
          Array(es[i := SetPath(es[i], path[1..], value)])
        else v
  }

  /** A filter node lets a value through when it is truthy. */
  predicate Allows(f: Json)
  {
    match f
    case Null => false
    case Boolean(b) => b
    case Integer(i) => i != 0
    case Float(x) => x != 0.0
    case _ => true
  }

  /** The filter for the member `key`: `true` passes on to every member;
      otherwise the filter's own `key` entry, or its "*" entry when that is
      null. */
  function MemberFilter(f: Json, key: string): Json
  {
    if f == Boolean(true) then f
    else if Get(f, key) != Null then Get(f, key)
    else Get(f, "*")
  }

  /** The filter for every element of an array: the filter's first element
      (or, failing that, its "*" entry). */
  function ElementFilter(f: Json): Json
  {
    if f == Boolean(true) then f
    else if At(f, 0) != Null then At(f, 0)
    else Get(f, "*")
  }

  /** What the parser keeps of `v` under filter `f`: `true` keeps all of it;
      an object filter keeps an object's members whose member filter is
      truthy, each filtered again; an array filter keeps an array's elements
      when its element filter is truthy, each filtered again, and none
      otherwise; anything else reads as null. */
  function Filter(f: Json, v: Json): Json
    decreases v
  {
    if f == Boolean(true) then v
    else match v
      case Object(m) =>
        if f.Object? then
          Object(map k | k in m && Allows(MemberFilter(f, k)) :: Filter(MemberFilter(f, k), m[k]))
        else Null
      case Array(es) =>
        if f.Array? then
          var ef := ElementFilter(f);
          Array(if Allows(ef) then seq(|es|, i requires 0 <= i < |es| => Filter(ef, es[i])) else [])
        else Null
      case _ => Null
  }

  /** Reading a member through an object filter: the member, filtered by
      the filter's entry for it, when that entry is truthy; null when it is
      not, or when the document is no object; the member unchanged when the
      entry is `true`. */
  lemma {:induction false} GetFiltered(f: Json, v: Json, key: string)
    requires f.Object?
    ensures !v.Object? ==> Filter(f, v) == Null
    ensures Allows(MemberFilter(f, key)) ==> Get(Filter(f, v), key) == Filter(MemberFilter(f, key), Get(v, key))
    ensures !Allows(MemberFilter(f, key)) ==> Get(Filter(f, v), key) == Null
    ensures MemberFilter(f, key) == Boolean(true) ==> Get(Filter(f, v), key) == Get(v, key)
  {
    if v.Object? {
      var m := v.members;
      var r := Filter(f, v);
      assert r == Object(map k | k in m && Allows(MemberFilter(f, k)) :: Filter(MemberFilter(f, k), m[k]));
      if key in m && Allows(MemberFilter(f, key)) {
        assert Get(r, key) == Filter(MemberFilter(f, key), m[key]);
      } else {
        assert key !in r.members;
      }
    }
  }
}
