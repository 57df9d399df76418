/** JSON values as the front end receives them from `JSON.parse`, with the
    JavaScript coercions the pages apply to them: optional chaining (`v?.k`),
    plain property access (`v.k`, which throws on null), nullish coalescing (`??`),
    truthiness (`||`, `!`), `String(v)` and `Number(v)`.
    A missing property (`undefined`) is `None`; JSON `null` is `Some(JNull)`.
    Numbers are integers. */
module Json {
  import opened Base
  import opened Text

  datatype Json =
    | JNull
    | JBool(b: bool)
    | JNum(n: int)
    | JStr(s: string)
    | JArr(items: seq<Json>)
    | JObj(fields: map<string, Json>)

  /** A JavaScript value read from parsed JSON: `None` is `undefined`. */
  type Val = Option<Json>

  /** `v?.key`: the property of an object, `undefined` for anything else. */
  function Get(v: Val, key: string): (r: Val)
    ensures r.Some? ==> v.Some? && v.value.JObj? && key in v.value.fields
  {
    match v
    case Some(JObj(fields)) => if key in fields then Some(fields[key]) else None
    case _ => None
  }

  /** The message V8 gives the TypeError raised by reading a property of null. */
  function NullAccessError(key: string): string {
    "Cannot read properties of null (reading '" + key + "')"
  }

  /** `v.key` without optional chaining: throws when `v` is null or undefined. */
  function Member(v: Val, key: string): (r: Result<Val>)
    ensures r.Err? <==> Nullish(v)
    ensures r.Ok? ==> r.value == Get(v, key)
  {
    if v == Some(JNull) then Err(NullAccessError(key))
    else if v.None? then Err("Cannot read properties of undefined (reading '" + key + "')")
    else Ok(Get(v, key))
  }

  /** `v == null` (loose equality): null or undefined. */
  predicate Nullish(v: Val) {
    v.None? || v == Some(JNull)
  }

  /** `a ?? b`. */
  function Coalesce(a: Val, b: Val): (r: Val)
    ensures !Nullish(a) ==> r == a
    ensures Nullish(a) ==> r == b
  {
    if Nullish(a) then b else a
  }

  /** `keys[i]` is the first listed property of `v` that is neither null nor undefined. */
  predicate FirstPresent(v: Val, keys: seq<string>, i: int) {
    0 <= i < |keys| && !Nullish(Get(v, keys[i])) && forall j :: 0 <= j < i ==> Nullish(Get(v, keys[j]))
  }

  /** `v?.k1 ?? v?.k2 ?? … ?? d`: the first listed property that is neither null nor
      undefined, else `d`. */
  function CoalesceKeys(v: Val, keys: seq<string>, d: Val): (r: Val)
    ensures (forall i :: 0 <= i < |keys| ==> Nullish(Get(v, keys[i]))) ==> r == d
    ensures forall i :: FirstPresent(v, keys, i) ==> r == Get(v, keys[i])
    decreases |keys|
  {
    if keys == [] then d
    else
      var rest := CoalesceKeys(v, keys[1..], d);
      var r := Coalesce(Get(v, keys[0]), rest);
      forall i | FirstPresent(v, keys, i)
        ensures r == Get(v, keys[i])
      {
        if i > 0 {
          assert keys[1..][i - 1] == keys[i];
          assert FirstPresent(v, keys[1..], i - 1) by {
            forall j | 0 <= j < i - 1 ensures Nullish(Get(v, keys[1..][j])) {
              assert keys[1..][j] == keys[j + 1];
            }
          }
        }
      }
      assert (forall i :: 0 <= i < |keys| ==> Nullish(Get(v, keys[i]))) ==> r == d by {
        if forall i :: 0 <= i < |keys| ==> Nullish(Get(v, keys[i])) {
          assert forall i :: 0 <= i < |keys[1..]| ==> keys[1..][i] == keys[i + 1];
        }
      }
      r
  }

  /** JavaScript truthiness of a JSON value. */
  predicate Truthy(v: Val) {
    match v
    case None => false
    case Some(JNull) => false
    case Some(JBool(b)) => b
    case Some(JNum(n)) => n != 0
    case Some(JStr(s)) => s != []
    case Some(JArr(_)) => true
    case Some(JObj(_)) => true
  }

  /** `a || b`. */
  function Or(a: Val, b: Val): (r: Val)
    ensures Truthy(a) ==> r == a
    ensures !Truthy(a) ==> r == b
  {
    if Truthy(a) then a else b
  }

  /** `v?.k1 || v?.k2 || … || d`: the first listed property that is truthy, else `d`. */
  function OrKeys(v: Val, keys: seq<string>, d: Val): (r: Val)
    ensures (forall i :: 0 <= i < |keys| ==> !Truthy(Get(v, keys[i]))) ==> r == d
    ensures forall i :: (0 <= i < |keys| && Truthy(Get(v, keys[i])) &&
                         (forall j :: 0 <= j < i ==> !Truthy(Get(v, keys[j])))) ==> r == Get(v, keys[i])
    decreases |keys|
  {
    if keys == [] then d
    else
      var rest := OrKeys(v, keys[1..], d);
      assert forall i :: 1 <= i < |keys| ==> keys[1..][i - 1] == keys[i];
      Or(Get(v, keys[0]), rest)
  }

  predicate IsArray(v: Val) {
    v.Some? && v.value.JArr?
  }

  /** `String(j)` for a JSON value. Arrays print as their elements joined with ","
      (null elements print as ""), objects as "[object Object]". */
  function JsonToStr(j: Json): string
    decreases j
  {
    match j
    case JNull => "null"
    case JBool(b) => if b then "true" else "false"
    case JNum(n) => IntToStr(n)
    case JStr(s) => s
    case JObj(_) => "[object Object]"
    case JArr(items) =>
      JoinComma(seq(|items|, i requires 0 <= i < |items| =>
        assert items[i] in items;
        if items[i] == JNull then "" else JsonToStr(items[i])))
  }

  function JoinComma(parts: seq<string>): string {
    if parts == [] then ""
    else if |parts| == 1 then parts[0]
    else parts[0] + "," + JoinComma(parts[1..])
  }

  /** `String(v)`. */
  function ToStr(v: Val): (r: string)
    ensures v.Some? && v.value.JStr? ==> r == v.value.s
    ensures v.Some? && v.value.JNum? ==> r == IntToStr(v.value.n)
  {
    match v
    case None => "undefined"
    case Some(j) => JsonToStr(j)
  }

  /** `Number(v)` when the result is a finite integer; `None` stands for NaN
      (and for the fractional and exponent forms the model leaves out). */
  function ToNumber(v: Val): (r: Option<int>)
    ensures v.Some? && v.value.JNum? ==> r == Some(v.value.n)
    ensures v == Some(JNull) ==> r == Some(0)
    ensures v.None? ==> r.None?
  {
    match v
    case None => None
    case Some(JNull) => Some(0)
    case Some(JBool(b)) => Some(if b then 1 else 0)
    case Some(JNum(n)) => Some(n)
    case Some(JStr(s)) => ParseNumber(s)
    case Some(JArr(_)) => ParseNumber(ToStr(v))
    case Some(JObj(_)) => None
  }

  /** The message of `new Error(v || fallback)`. */
  function MessageOr(v: Val, fallback: string): (r: string)
    ensures Truthy(v) ==> r == ToStr(v)
    ensures !Truthy(v) ==> r == fallback
  {
    if Truthy(v) then ToStr(v) else fallback
  }

  /** A truthy string message is non-empty. */
  lemma TruthyStringNonEmpty(v: Val)
    requires Truthy(v) && v.value.JStr?
    ensures ToStr(v) != []
  {
  }
}
