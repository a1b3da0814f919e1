/**
 * JSON values as the scraper, the ad store and the sync engine handle them.
 *
 * JavaScript's `undefined` is not a JSON value: it is modelled as absence,
 * `None` for a single value and a missing key for an object.  Numbers are
 * integers (floating point is not part of this model).
 */
module JsonValue {
  import opened Wrappers

  datatype Json =
    | Null
    | Bool(b: bool)
    | Num(n: int)
    | Str(s: string)
    | Arr(items: seq<Json>)
    | Obj(fields: map<string, Json>)

  /** A JSON object: what `JSON.parse` returns for a `{...}` document. */
  type Object = map<string, Json>

  /** `o[key]`, with a missing key read as undefined. */
  function Lookup(o: Object, key: string): (v: Option<Json>)
    ensures v.Some? <==> key in o
    ensures v.Some? ==> v.value == o[key]
  {
    if key in o then Some(o[key]) else None
  }

  /** Two objects that agree on every key are the same object. */
  lemma {:induction false} ObjectExtensionality(a: Object, b: Object)
    requires forall k :: Lookup(a, k) == Lookup(b, k)
    ensures a == b
  {
    assert a.Keys == b.Keys by {
      forall k ensures k in a <==> k in b {
        assert Lookup(a, k).Some? == Lookup(b, k).Some?;
      }
    }
    forall k | k in a ensures a[k] == b[k] {
      assert Lookup(a, k) == Lookup(b, k);
    }
  }

  /** JavaScript truthiness of a possibly undefined value. */
  predicate Truthy(v: Option<Json>) {
    match v
    case None => false
    case Some(Null) => false
    case Some(Bool(b)) => b
    case Some(Num(n)) => n != 0
    case Some(Str(s)) => s != ""
    case Some(Arr(_)) => true  // even `[]`
    case Some(Obj(_)) => true  // even `{}`
  }

  /**
   * The optional property access `v?.key`.  The keys the core reads
   * (`data`, `node`, `id`, `edges`, ...) are never properties of a string,
   * a number, a boolean or an array, so only an object yields a value.
   */
  function Member(v: Option<Json>, key: string): (r: Option<Json>)
    ensures r.Some? <==> v.Some? && v.value.Obj? && key in v.value.fields
    ensures r.Some? ==> r.value == v.value.fields[key]
  {
    match v
    case Some(Obj(f)) => Lookup(f, key)
    case _ => None
  }

  /** The optional chain `v?.k0?.k1?...`. */
  function Path(v: Option<Json>, keys: seq<string>): Option<Json>
    decreases |keys|
  {
    if keys == [] then v else Path(Member(v, keys[0]), keys[1..])
  }

  /** A path through an undefined value stays undefined. */
  lemma {:induction false} PathOfNone(keys: seq<string>)
    ensures Path(None, keys) == None
    decreases |keys|
  {
    if keys != [] {
      PathOfNone(keys[1..]);
    }
  }

  /** A value that `===` compares by content rather than by reference. */
  predicate Primitive(v: Option<Json>) {
    v.None? || !(v.value.Arr? || v.value.Obj?)
  }

  /**
   * `a === b` where the two sides come from different `JSON.parse` calls
   * (or one from the store and one from the live feed): primitives and
   * undefined compare by value, while arrays and objects are distinct
   * references and never compare equal.
   */
  predicate StrictEq(a: Option<Json>, b: Option<Json>) {
    Primitive(a) && a == b
  }

  /** The decimal text of a natural number. */
  function NatText(n: nat): (t: string)
    ensures |t| > 0
    ensures forall i :: 0 <= i < |t| ==> '0' <= t[i] <= '9'
  {
    var d := [(('0' as int) + n % 10) as char];
    if n < 10 then d else NatText(n / 10) + d
  }

  /**
   * The string conversion `${v}` of a template literal, as used to build a
   * file name from an ad's archive id.
   */
  function Text(v: Option<Json>): string {
    match v
    case None => "undefined"
    case Some(j) => JsonText(j)
  }

  function JsonText(j: Json): string {
    match j
    case Null => "null"
    case Bool(b) => if b then "true" else "false"
    case Num(n) => if n < 0 then "-" + NatText(-n) else NatText(n)
    case Str(s) => s
    case Arr(items) => JoinItems(items)
    case Obj(_) => "[object Object]"
  }

  /** `Array.prototype.join(",")`: null elements become empty text. */
  function JoinItems(items: seq<Json>): string
    decreases items
  {
    if items == [] then ""
    else
      var first := if items[0].Null? then "" else JsonText(items[0]);
      if |items| == 1 then first else first + "," + JoinItems(items[1..])
  }
}
