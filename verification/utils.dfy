/** `enumFromSchema` (backend/src/lib/utils.js): walks a dotted path into a
    JSON Schema document and turns the `enum` array found there into a
    frozen object mapping each value's upper-cased text to the value. */
module Utils {
  import opened Wrappers
  import opened Json
  import Strings

  /** Why `enumFromSchema` throws: its two Errors, and the TypeError of a
      property read on null. */
  datatype EnumError = NotFound(message: string) | NoEnum(message: string) | ReadOfNull(key: string)

  function NotFoundMessage(path: string): string { "Path " + path + " not found in schema" }
  function NoEnumMessage(path: string): string { "Path " + path + " does not contain an enum" }

  /** The array index a property key names: canonical decimal text. */
  function IndexKey(key: string): (r: Option<nat>)
    ensures r.Some? ==> key == Strings.NatToString(r.value)
  {
    if key != [] && (forall i :: 0 <= i < |key| ==> Strings.IsDigit(key[i]))
       && Strings.NatToString(Strings.DigitsValue(key)) == key
    then Some(Strings.DigitsValue(key))
    else None
  }

  /** `current[key]`: an object's own property, an array element or string
      character by index, an array's or string's length; `undefined` (None)
      for anything else; a TypeError on null. */
  function Member(current: Json, key: string): (r: Result<Option<Json>, EnumError>)
    ensures r.Err? <==> current.JNull?
    ensures current.JObj? ==> r == Ok(if key in current.fields then Some(current.fields[key]) else None)
  {
    match current
    case JNull => Err(ReadOfNull(key))
    case JObj(fields) => Ok(if key in fields then Some(fields[key]) else None)
    case JArr(items) =>
      if key == "length" then Ok(Some(JNum(|items| as real)))
      else
        var i := IndexKey(key);
        Ok(if i.Some? && i.value < |items| then Some(items[i.value]) else None)
    case JStr(s) =>
      if key == "length" then Ok(Some(JNum(|s| as real)))
      else
        var i := IndexKey(key);
        Ok(if i.Some? && i.value < |s| then Some(JStr([s[i.value]])) else None)
    case _ => Ok(None)
  }

  /** The path loop: each key read from the current value, the walk ending
      with "not found" at the first read that yields a falsy value. */
  function Walk(current: Json, keys: seq<string>, path: string): (r: Result<Json, EnumError>)
    ensures r.Ok? ==> (keys == [] && r.value == current) || Truthy(r.value)
    decreases |keys|
  {
    if keys == [] then Ok(current)
    else match Member(current, keys[0])
      case Err(e) => Err(e)
      case Ok(next) =>
        if next.None? || !Truthy(next.value) then Err(NotFound(NotFoundMessage(path)))
        else Walk(next.value, keys[1..], path)
  }

  /** Walking a path in two parts is walking the first part, then the
      second from where the first ended; a walk that failed stays failed. */
  lemma {:induction false} WalkConcat(current: Json, p: seq<string>, q: seq<string>, path: string)
    ensures Walk(current, p, path).Err? ==> Walk(current, p + q, path) == Walk(current, p, path)
    ensures Walk(current, p, path).Ok? ==> Walk(current, p + q, path) == Walk(Walk(current, p, path).value, q, path)
    decreases |p|
  {
    if p != [] {
      assert (p + q)[0] == p[0] && (p + q)[1..] == p[1..] + q;
      var m := Member(current, p[0]);
      if m.Ok? && m.value.Some? && Truthy(m.value.value) {
        WalkConcat(m.value.value, p[1..], q, path);
      }
    } else {
      assert p + q == q;
    }
  }

  /** `String(val)`: JavaScript's conversion to text. Number formatting is
      `numText`; an array joins its elements' texts with commas, null
      elements giving the empty string. */
  function StringOf(j: Json, numText: real -> string): (r: string)
    ensures j.JStr? ==> r == j.s
    decreases j
  {
    match j
    case JNull => "null"
    case JBool(b) => if b then "true" else "false"
    case JNum(n) => numText(n)
    case JStr(s) => s
    case JArr(items) => Strings.Join(seq(|items|, i requires 0 <= i < |items| =>
                                           if items[i].JNull? then "" else StringOf(items[i], numText)), ',')
    case JObj(_) => "[object Object]"
  }

  /** The key a value gets: its text upper-cased. */
  function KeyOf(v: Json, numText: real -> string): string
  {
    Strings.UpperAscii(StringOf(v, numText))
  }

  /** Index `i` is the last value with its key. */
  predicate LastWithKey(vals: seq<Json>, key: Json -> string, i: int)
  {
    0 <= i < |vals| && forall j :: i < j < |vals| ==> key(vals[j]) != key(vals[i])
  }

  /** The `reduce`: every value is stored under its key, in order. */
  function EnumMap(vals: seq<Json>, key: Json -> string): (r: map<string, Json>)
    ensures forall i :: 0 <= i < |vals| ==> key(vals[i]) in r
    ensures forall k :: k in r ==> exists i :: 0 <= i < |vals| && key(vals[i]) == k
    decreases |vals|
  {
    if vals == [] then map[]
    else
      var init := vals[..|vals| - 1];
      assert forall i :: 0 <= i < |init| ==> init[i] == vals[i];
      EnumMap(init, key)[key(vals[|vals| - 1]) := vals[|vals| - 1]]
  }

  /** A key holds the last value that has it: of two values colliding after
      upper-casing, the later one wins. */
  lemma {:induction false} EnumMapLastWins(vals: seq<Json>, key: Json -> string, i: int)
    requires LastWithKey(vals, key, i)
    ensures EnumMap(vals, key)[key(vals[i])] == vals[i]
    decreases |vals|
  {
    if i < |vals| - 1 {
      var init := vals[..|vals| - 1];
      assert init[i] == vals[i];
      assert LastWithKey(init, key, i);
      EnumMapLastWins(init, key, i);
    }
  }

  /** The object has no more keys than the enum has values. */
  lemma {:induction false} EnumMapSize(vals: seq<Json>, key: Json -> string)
    ensures |EnumMap(vals, key)| <= |vals|
    decreases |vals|
  {
    if vals != [] {
      EnumMapSize(vals[..|vals| - 1], key);
    }
  }

  /** `enumFromSchema(schema, path)` as a value. */
  function EnumFromSchema(schema: Json, path: string, numText: real -> string): (r: Result<map<string, Json>, EnumError>)
    ensures r.Ok? ==> var w := Walk(schema, Strings.Split(path, '.'), path);
      w.Ok? && Member(w.value, "enum").Ok? && Member(w.value, "enum").value.Some? && Member(w.value, "enum").value.value.JArr?
      && r.value == EnumMap(Member(w.value, "enum").value.value.items, v => KeyOf(v, numText))
  {
    match Walk(schema, Strings.Split(path, '.'), path)
    case Err(e) => Err(e)
    case Ok(current) =>
      var e := Member(current, "enum").value;
      if e.None? || !e.value.JArr? then Err(NoEnum(NoEnumMessage(path)))
      else Ok(EnumMap(e.value.items, v => KeyOf(v, numText)))
  }

  /** The outcome: "not found" exactly when the walk fails that way, "does
      not contain an enum" exactly when the walk succeeds and `enum` is not
      an array, and otherwise every enum value under its key, the later of
      two colliding values winning. */
  lemma EnumFromSchemaOutcome(schema: Json, path: string, numText: real -> string)
    ensures var w := Walk(schema, Strings.Split(path, '.'), path);
      var r := EnumFromSchema(schema, path, numText);
      && (w.Err? ==> r == Err(w.error))
      && (w.Ok? ==> Truthy(w.value))
      && (w.Ok? && !(Get(w.value, "enum").Some? && Get(w.value, "enum").value.JArr?) && !w.value.JArr? && !w.value.JStr? ==>
            r == Err(NoEnum(NoEnumMessage(path))))
      && (r.Ok? ==> forall v :: v in Member(w.value, "enum").value.value.items ==> KeyOf(v, numText) in r.value)
  {
    var w := Walk(schema, Strings.Split(path, '.'), path);
    if w.Ok? {
      assert Strings.Split(path, '.') != [];
    }
  }

  /** The path loop of `enumFromSchema`, followed by the enum check and the
      reduce. */
  method EnumFromSchemaLoop(schema: Json, path: string, numText: real -> string) returns (r: Result<map<string, Json>, EnumError>)
    ensures r == EnumFromSchema(schema, path, numText)
  {
    var keys := Strings.Split(path, '.');
    var current := schema;
    var i := 0;
    while i < |keys|
      invariant 0 <= i <= |keys|
      invariant Walk(schema, keys, path) == Walk(current, keys[i..], path)
    {
      assert keys[i..][0] == keys[i] && keys[i..][1..] == keys[i + 1..];
      var m := Member(current, keys[i]);
      if m.Err? {
        return Err(m.error);
      }
      if m.value.None? || !Truthy(m.value.value) {
        return Err(NotFound(NotFoundMessage(path)));
      }
      current := m.value.value;
      i := i + 1;
    }
    assert keys[i..] == [];
    var e := Member(current, "enum").value;
    if e.None? || !e.value.JArr? {
      return Err(NoEnum(NoEnumMessage(path)));
    }
    r := Ok(EnumMap(e.value.items, v => KeyOf(v, numText)));
  }
}
