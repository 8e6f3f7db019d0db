/**
 * JSON values as `JSON.parse` produces them, and the handful of JavaScript
 * operations the recommendations route applies to them: property access, object
 * spread (`{...v}`), adding a property, truthiness and conversion to a string.
 */
module JsonValue {
  import opened Wrappers

  /** A parsed JSON value. Numbers are kept as reals; IEEE-754 rounding is not modelled. */
  datatype Json =
    | JNull
    | JBool(b: bool)
    | JNumber(n: real)
    | JString(s: string)
    | JArray(items: seq<Json>)
    | JObject(members: seq<Member>)

  /** One own property of an object, in the object's property order. */
  datatype Member = Member(key: string, value: Json)

  /** The property names of `ms`, in order. */
  function Keys(ms: seq<Member>): seq<string>
  {
    if ms == [] then [] else [ms[0].key] + Keys(ms[1..])
  }

  /** The value of property `key` among `ms` (the first one, should a key repeat), or `undefined`. */
  function Lookup(ms: seq<Member>, key: string): (r: Option<Json>)
    ensures r.None? <==> key !in Keys(ms)
    ensures r.Some? ==> Member(key, r.value) in ms
  {
    if ms == [] then None
    else if ms[0].key == key then Some(ms[0].value)
    else Lookup(ms[1..], key)
  }

  /**
   * `v.key` for a key that is neither an array index nor `length`: an own
   * property of an object, `undefined` for any other truthy value. (On `null`
   * the access throws; callers handle that case before asking.)
   */
  function Prop(v: Json, key: string): (r: Option<Json>)
    ensures r.Some? ==> v.JObject? && Member(key, r.value) in v.members
    ensures v.JObject? && key in Keys(v.members) ==> r.Some?
  {
    if v.JObject? then Lookup(v.members, key) else None
  }

  /**
   * `{...ms, [key]: v}`: an existing property keeps its position and takes the
   * new value (PutKeys), a new one goes last.
   */
  function Put(ms: seq<Member>, key: string, v: Json): (r: seq<Member>)
    ensures Lookup(r, key) == Some(v)
  {
    if ms == [] then [Member(key, v)]
    else if ms[0].key == key then [Member(key, v)] + ms[1..]
    else
      var tail := Put(ms[1..], key, v);
      assert ([ms[0]] + tail)[1..] == tail;
      [ms[0]] + tail
  }

  /** Putting a present key keeps the key order; putting a new key appends it. */
  lemma {:induction false} PutKeys(ms: seq<Member>, key: string, v: Json)
    ensures key in Keys(ms) ==> Keys(Put(ms, key, v)) == Keys(ms)
    ensures key !in Keys(ms) ==> Keys(Put(ms, key, v)) == Keys(ms) + [key]
  {
    if ms != [] {
      var r := Put(ms, key, v);
      if ms[0].key == key {
        assert r[1..] == ms[1..];
      } else {
        assert r[1..] == Put(ms[1..], key, v);
        PutKeys(ms[1..], key, v);
      }
    }
  }

  /** Putting `key` leaves every other property as it was. */
  lemma {:induction false} PutKeepsOthers(ms: seq<Member>, key: string, v: Json, other: string)
    requires other != key
    ensures Lookup(Put(ms, key, v), other) == Lookup(ms, other)
  {
    if ms != [] && ms[0].key != key {
      PutKeepsOthers(ms[1..], key, v, other);
      assert Put(ms, key, v)[1..] == Put(ms[1..], key, v);
    } else if ms != [] {
      assert Put(ms, key, v)[1..] == ms[1..];
    }
  }

  /** The decimal numeral of `n`, as JavaScript writes an array index used as a property key. */
  function IndexKey(n: nat): (r: string)
    ensures |r| >= 1
    ensures forall k :: 0 <= k < |r| ==> '0' <= r[k] <= '9'
  {
    var d := ['0' + (n % 10) as char];
    if n < 10 then d else IndexKey(n / 10) + d
  }

  /**
   * The own enumerable properties that `{...v}` copies: an object's members; an
   * array's elements and a string's characters under their index keys; nothing
   * for `null`, booleans and numbers.
   */
  function Spread(v: Json): (r: seq<Member>)
    ensures v.JObject? ==> r == v.members
    ensures v.JArray? ==> |r| == |v.items| && forall k :: 0 <= k < |r| ==> r[k] == Member(IndexKey(k), v.items[k])
    ensures v.JString? ==> |r| == |v.s| && forall k :: 0 <= k < |r| ==> r[k] == Member(IndexKey(k), JString([v.s[k]]))
    ensures v.JNull? || v.JBool? || v.JNumber? ==> r == []
  {
    match v
    case JObject(ms) => ms
    case JArray(items) => seq(|items|, k requires 0 <= k < |items| => Member(IndexKey(k), items[k]))
    case JString(s) => seq(|s|, k requires 0 <= k < |s| => Member(IndexKey(k), JString([s[k]])))
    case _ => []
  }

  /**
   * JavaScript truthiness of a possibly undefined value: `undefined`, `null`,
   * `false`, `0` and `""` are falsy; every array and object, even an empty one,
   * is truthy.
   */
  predicate Truthy(v: Option<Json>): (t: bool)
    ensures v.None? || v == Some(JNull) ==> !t
    ensures v.Some? && (v.value.JArray? || v.value.JObject?) ==> t
  {
    match v
    case None => false
    case Some(JNull) => false
    case Some(JBool(b)) => b
    case Some(JNumber(n)) => n != 0.0
    case Some(JString(s)) => s != ""
    case Some(_) => true
  }

  /**
   * ECMAScript ToString (as in a template literal or `encodeURIComponent`'s
   * argument) of a possibly undefined value; `numeral` stands for Number::toString.
   */
  function ToJsString(v: Option<Json>, numeral: real -> string): (r: string)
    ensures v.None? ==> r == "undefined"
    ensures v.Some? && v.value.JString? ==> r == v.value.s
    ensures v.Some? && v.value.JObject? ==> r == "[object Object]"
  {
    match v
    case None => "undefined"
    case Some(j) => JsonToString(j, numeral)
  }

  function JsonToString(j: Json, numeral: real -> string): string
  {
    match j
    case JNull => "null"
    case JBool(b) => if b then "true" else "false"
    case JNumber(n) => numeral(n)
    case JString(s) => s
    case JArray(items) => JoinElements(items, numeral)
    case JObject(_) => "[object Object]"
  }

  /** `Array.prototype.join` with the default separator: null elements become "". */
  function JoinElements(items: seq<Json>, numeral: real -> string): string
    decreases items
  {
    if items == [] then ""
    else
      var head := if items[0].JNull? then "" else JsonToString(items[0], numeral);
      if |items| == 1 then head else head + "," + JoinElements(items[1..], numeral)
  }
}
