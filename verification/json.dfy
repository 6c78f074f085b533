/** JSON values as both planes exchange them, with the JavaScript readings the
    source applies to them: truthiness, property access, and object spread. */
module Json {
  import opened Wrappers
  import Strings

  datatype Json =
    | JNull
    | JBool(b: bool)
    | JNum(n: real)
    | JStr(s: string)
    | JArr(items: seq<Json>)
    | JObj(fields: map<string, Json>)

  /** JavaScript truthiness (`!!x`); Python's `bool(x)` agrees on JSON values
      except that an empty list or dict is falsy there (see PyTruthy). */
  predicate Truthy(j: Json)
  {
    match j
    case JNull => false
    case JBool(b) => b
    case JNum(n) => n != 0.0
    case JStr(s) => s != ""
    case _ => true
  }

  /** Python truthiness of a JSON value. */
  predicate PyTruthy(j: Json)
  {
    match j
    case JNull => false
    case JBool(b) => b
    case JNum(n) => n != 0.0
    case JStr(s) => s != ""
    case JArr(xs) => xs != []
    case JObj(m) => m != map[]
  }

  /** An optional value (None = `undefined`) that is truthy. */
  predicate Present(o: Option<Json>) { o.Some? && Truthy(o.value) }

  /** `x.k` on a JSON value: the own property of an object, `undefined`
      (None) otherwise. */
  function Get(j: Json, k: string): (r: Option<Json>)
    ensures r.Some? <==> j.JObj? && k in j.fields
  {
    if j.JObj? && k in j.fields then Some(j.fields[k]) else None
  }

  function GetOpt(o: Option<Json>, k: string): Option<Json>
  {
    match o
    case None => None
    case Some(j) => Get(j, k)
  }

  /** The index properties of an array-like value: one per position, keyed
      by the position's decimal text (see IndexPropertiesMeaning). */
  function IndexProperties(xs: seq<Json>): (r: map<string, Json>)
    ensures xs == [] <==> r == map[]
  {
    if xs == [] then map[]
    else
      var r := IndexProperties(xs[..|xs| - 1])[Strings.NatToString(|xs| - 1) := xs[|xs| - 1]];
      assert Strings.NatToString(|xs| - 1) in r;
      r
  }

  /** The element at each position is the index property named by the
      position's decimal text. */
  lemma {:induction false} IndexPropertyAt(xs: seq<Json>, i: nat)
    requires i < |xs|
    ensures Strings.NatToString(i) in IndexProperties(xs)
    ensures IndexProperties(xs)[Strings.NatToString(i)] == xs[i]
  {
    var n := |xs| - 1;
    if i < n {
      IndexPropertyAt(xs[..n], i);
      Strings.NatToStringInjective(i, n);
    }
  }

  /** Every index property names a position. */
  lemma {:induction false} IndexPropertyNamesPosition(xs: seq<Json>, k: string)
    requires k in IndexProperties(xs)
    ensures exists i :: 0 <= i < |xs| && k == Strings.NatToString(i)
  {
    var n := |xs| - 1;
    if k != Strings.NatToString(n) {
      IndexPropertyNamesPosition(xs[..n], k);
    }
  }

  /** The one-character strings of a string, as its index properties hold them. */
  function Chars(s: string): (r: seq<Json>)
    ensures |r| == |s| && forall i :: 0 <= i < |s| ==> r[i] == JStr([s[i]])
  {
    seq(|s|, i requires 0 <= i < |s| => JStr([s[i]]))
  }

  /** `{...x}`: the own enumerable properties a value contributes to a
      spread. An object contributes its fields, an array its elements and a
      string its characters, each under the decimal text of its index;
      `undefined`, `null`, booleans and numbers contribute none. */
  function Spread(o: Option<Json>): (r: map<string, Json>)
    ensures o.Some? && o.value.JObj? ==> r == o.value.fields
    ensures o.Some? && o.value.JArr? ==> r == IndexProperties(o.value.items)
    ensures o.Some? && o.value.JStr? ==> r == IndexProperties(Chars(o.value.s))
    ensures o.None? || o.value.JNull? || o.value.JBool? || o.value.JNum? ==> r == map[]
    ensures r == map[] <==> o.None? || !(o.value.JObj? || o.value.JArr? || o.value.JStr?)
                            || o.value in {JObj(map[]), JArr([]), JStr([])}
  {
    match o
    case Some(JObj(m)) => m
    case Some(JArr(xs)) => IndexProperties(xs)
    case Some(JStr(s)) => IndexProperties(Chars(s))
    case _ => map[]
  }

  /** `x ?? d` on an optional JSON value: the default for undefined and null. */
  function Nullish(o: Option<Json>, d: Json): (r: Json)
    ensures o.Some? && o.value != JNull ==> r == o.value
    ensures o.None? || o.value == JNull ==> r == d
  {
    if o.None? || o.value == JNull then d else o.value
  }

  /** The string inside a JSON string, if it is one. */
  function AsString(o: Option<Json>): Option<string>
  {
    if o.Some? && o.value.JStr? then Some(o.value.s) else None
  }

  /** Overlay `b` on `a`: the keys of both, `b` winning (`{...a, ...b}`). */
  function Overlay(a: map<string, Json>, b: map<string, Json>): (r: map<string, Json>)
    ensures r.Keys == a.Keys + b.Keys
    ensures forall k :: k in b ==> r[k] == b[k]
    ensures forall k :: k in a && k !in b ==> r[k] == a[k]
  {
    map k | k in a.Keys + b.Keys :: if k in b then b[k] else a[k]
  }

  /** Overlaying is map union, the right-hand side winning. */
  lemma OverlayUnion(a: map<string, Json>, b: map<string, Json>)
    ensures Overlay(a, b) == a + b
  {
  }

  /** JSON Schema "integer": a number without fractional part. */
  predicate IsInteger(j: Json) { j.JNum? && j.n.Floor as real == j.n }

  predicate IsStringValue(j: Json) { j.JStr? }

  /** A JSON text codec: the serialiser and the parser the source calls
      (`JSON.stringify`/`JSON.parse`, `json.dumps`/`json.loads`). */
  datatype Codec = Codec(stringify: Json -> string, parse: string -> Option<Json>)
  {
    /** Parsing what was serialised gives the value back. */
    ghost predicate Lawful()
    {
      forall j :: parse(stringify(j)) == Some(j)
    }
  }
}
