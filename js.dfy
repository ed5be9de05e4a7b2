/**
 * The small part of JavaScript's value semantics the bot relies on: JSON
 * values as they live in the in-memory documents, truthiness, the `||`
 * fallback operator, optional chaining (`o?.k`), object spread (`{...o}`)
 * and `Math.floor(Math.random() * n)`.
 *
 * JavaScript's `undefined` is never a value here: a property that holds
 * `undefined` reads exactly like a missing one and is dropped by
 * `JSON.stringify`, so the model represents it by absence (`None`, or a key
 * that is not in the map).
 */
module Js {

  datatype Option<+T> = None | Some(value: T)

  /** A JSON value. Numbers are integers: every number the core stores is a
      count, an amount, a bound or a millisecond timestamp. */
  datatype Json =
    | JNull
    | JBool(b: bool)
    | JInt(n: int)
    | JStr(s: string)
    | JArr(items: seq<Json>)
    | JObj(fields: map<string, Json>)

  /** A JavaScript object, as stored in the documents. */
  type Object = map<string, Json>

  /** JavaScript truthiness of a present value (`undefined` is falsy too):
      the falsy values are exactly `undefined`, `null`, `false`, `0` and `""`;
      every array and object is truthy, empty or not. */
  predicate Truthy(v: Option<Json>): (b: bool)
    ensures !b <==> v == None || v == Some(JNull) || v == Some(JBool(false))
                    || v == Some(JInt(0)) || v == Some(JStr(""))
  {
    match v
    case None => false
    case Some(j) =>
      match j
      case JNull => false
      case JBool(b) => b
      case JInt(n) => n != 0
      case JStr(s) => s != ""
      case JArr(_) => true
      case JObj(_) => true
  }

  /** `a || b`: the left operand when it is truthy, else the right one. */
  function Or(a: Option<Json>, b: Option<Json>): (r: Option<Json>)
    ensures Truthy(a) ==> r == a
    ensures !Truthy(a) ==> r == b
    ensures Truthy(r) <==> Truthy(a) || Truthy(b)
  {
    if Truthy(a) then a else b
  }

  /** `o?.k`: the property `k` of an object, and `undefined` for a missing
      property or for anything that is not an object. */
  function Prop(o: Option<Json>, k: string): (r: Option<Json>)
    ensures r.Some? <==> o.Some? && o.value.JObj? && k in o.value.fields
    ensures r.Some? ==> r.value == o.value.fields[k]
  {
    if o.Some? && o.value.JObj? && k in o.value.fields then Some(o.value.fields[k]) else None
  }

  /** `obj[k]` on an object that is known to exist. */
  function Get(o: Object, k: string): (r: Option<Json>)
    ensures r.Some? <==> k in o
    ensures r.Some? ==> r.value == o[k]
  {
    if k in o then Some(o[k]) else None
  }

  /** `m[k]` when the key is present, else an empty table: what `{ ...m[k] }`
      spreads, or what a freshly created table holds. */
  function EntryOrEmpty<K, L, V>(m: map<K, map<L, V>>, k: K): (t: map<L, V>)
    ensures k in m ==> t == m[k]
    ensures k !in m ==> t == map[]
  {
    if k in m then m[k] else map[]
  }

  /** The own properties that `{...o}` copies: those of an object, and none
      for `null`, `undefined`, booleans and numbers. (Strings and arrays
      contribute index keys in JavaScript; the model reads them as objects
      with no properties.) */
  function Spread(o: Option<Json>): (r: Object)
    ensures o.Some? && o.value.JObj? ==> r == o.value.fields
    ensures !(o.Some? && o.value.JObj?) ==> r == map[]
  {
    if o.Some? && o.value.JObj? then o.value.fields else map[]
  }

  /** `{...o, k: v}` for an object literal property whose value may be
      `undefined`: a present value is written, `undefined` drops the key. */
  function Put(o: Object, k: string, v: Option<Json>): (r: Object)
    ensures v.Some? ==> k in r && r[k] == v.value
    ensures v.None? ==> k !in r
    ensures forall j :: j != k ==> (j in r <==> j in o)
    ensures forall j :: j in o && j != k ==> r[j] == o[j]
  {
    if v.Some? then o[k := v.value] else o - {k}
  }

  /** `Math.floor(rand * n)` where `rand` is a draw of `Math.random()`. */
  function RandomBelow(rand: real, n: int): (r: int)
    requires 0.0 <= rand < 1.0
    ensures n > 0 ==> 0 <= r < n
    ensures n <= 0 ==> n <= r <= 0
  {
    ScaledDrawBounds(rand, n);
    (rand * n as real).Floor
  }

  lemma ScaledDrawBounds(rand: real, n: int)
    requires 0.0 <= rand < 1.0
    ensures n > 0 ==> 0.0 <= rand * n as real < n as real
    ensures n <= 0 ==> n as real <= rand * n as real <= 0.0
  {
    var x := n as real;
    if n > 0 {
      assert (1.0 - rand) * x > 0.0;
    } else if n < 0 {
      assert (1.0 - rand) * (-x) >= 0.0;
    }
  }
}
