/** The JavaScript values the client receives from `response.json()` and
    passes around untyped, with the coercions it applies to them:
    truthiness, `String(v)`, property access, `a || b` and `a ?? b`.
    Numbers are modelled as integers. */
module Json {
  import opened Text

  datatype Json =
    | JUndefined
    | JNull
    | JBool(b: bool)
    | JNum(n: int)
    | JStr(s: string)
    | JArr(items: seq<Json>)
    | JObj(fields: map<string, Json>)

  /** JavaScript truthiness: `undefined`, `null`, `false`, `0` and `""` are
      falsy; every array and object is truthy, even an empty one. */
  predicate Truthy(v: Json) {
    match v
    case JUndefined => false
    case JNull => false
    case JBool(b) => b
    case JNum(n) => n != 0
    case JStr(s) => s != ""
    case JArr(_) => true
    case JObj(_) => true
  }

  /** `v == null`: null or undefined, the values `??` and `?.` skip. */
  predicate IsNullish(v: Json) {
    v.JUndefined? || v.JNull?
  }

  /** Property access `v[key]` on a value that is not null or undefined:
      an object's own field, the `length` of a string or an array, and
      `undefined` for everything else. Callers guard the null case, which
      JavaScript turns into a TypeError. */
  function Get(v: Json, key: string): (r: Json)
    ensures v.JObj? && key in v.fields ==> r == v.fields[key]
    ensures v.JObj? && key !in v.fields ==> r == JUndefined
    ensures !v.JObj? && key != "length" ==> r == JUndefined
  {
    match v
    case JObj(fields) => if key in fields then fields[key] else JUndefined
    case JStr(s) => if key == "length" then JNum(|s|) else JUndefined
    case JArr(items) => if key == "length" then JNum(|items|) else JUndefined
    case _ => JUndefined
  }

  /** Optional chaining `v?.key`: `undefined` on null or undefined. */
  function OptGet(v: Json, key: string): (r: Json)
    ensures IsNullish(v) ==> r == JUndefined
    ensures !IsNullish(v) ==> r == Get(v, key)
  {
    if IsNullish(v) then JUndefined else Get(v, key)
  }

  /** `a === b` on freshly parsed values: primitives compare by value,
      while two arrays or objects are never the same reference. */
  predicate StrictEq(a: Json, b: Json) {
    a == b && !a.JArr? && !a.JObj?
  }

  /** `v >= bound` with a number on the right, for the values a `length`
      can be: numbers, booleans and null convert, `undefined` converts to
      NaN and compares false. */
  predicate AtLeast(v: Json, bound: int) {
    match v
    case JNum(n) => n >= bound
    case JBool(b) => (if b then 1 else 0) >= bound
    case JNull => 0 >= bound
    case _ => false
  }

  /** `a || b`. */
  function Or(a: Json, b: Json): (r: Json)
    ensures Truthy(a) ==> r == a
    ensures !Truthy(a) ==> r == b
  {
    if Truthy(a) then a else b
  }

  /** `a ?? b`. */
  function Coalesce(a: Json, b: Json): (r: Json)
    ensures !IsNullish(a) ==> r == a
    ensures IsNullish(a) ==> r == b
  {
    if IsNullish(a) then b else a
  }

  /** `String(v)`. In an array's rendering (`Array.prototype.join`) null
      and undefined elements become empty strings. */
  function ToStr(v: Json): string
    decreases v, 1
  {
    match v
    case JUndefined => "undefined"
    case JNull => "null"
    case JBool(b) => if b then "true" else "false"
    case JNum(n) => IntToString(n)
    case JStr(s) => s
    case JArr(items) => JoinFrom(items, 0)
    case JObj(_) => "[object Object]"
  }

  /** The comma-joined rendering of `items[i..]`. */
  function JoinFrom(items: seq<Json>, i: nat): string
    requires i <= |items|
    decreases JArr(items), 0, |items| - i
  {
    if i == |items| then ""
    else
      var head := if IsNullish(items[i]) then "" else ToStr(items[i]);
      if i + 1 == |items| then head else head + "," + JoinFrom(items, i + 1)
  }

  /** `String(v).trim()`, computed per kind of value: only strings and
      arrays can carry white space at their ends. */
  function TrimmedStr(v: Json): (r: string)
    ensures Trim(r) == r
  {
    match v
    case JStr(s) => TrimIdempotent(s); Trim(s)
    case JArr(items) => TrimIdempotent(JoinFrom(items, 0)); Trim(JoinFrom(items, 0))
    case JNum(n) => TrimUnpadded(IntToString(n)); IntToString(n)
    case _ => TrimUnpadded(ToStr(v)); ToStr(v)
  }

  /** The per-kind computation is `String(v).trim()`. */
  lemma TrimmedStrIsTrimOfToStr(v: Json)
    ensures TrimmedStr(v) == Trim(ToStr(v))
  {
    match v
    case JStr(s) =>
    case JArr(items) =>
    case JNum(n) => TrimUnpadded(IntToString(n));
    case _ => TrimUnpadded(ToStr(v));
  }

  /** `String(v)` leaves a string unchanged. */
  lemma ToStrOfString(s: string)
    ensures ToStr(JStr(s)) == s
  {
  }
}
