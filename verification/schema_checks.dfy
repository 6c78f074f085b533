/** The building blocks every generated JSON Schema checker in the source
    repeats: optional typed properties, the additional-properties key loop and
    the string-items loop. */
module SchemaChecks {
  import opened Json

  /** An optional property that, when present, is a string. */
  predicate OptString(m: map<string, Json>, k: string) { k in m ==> m[k].JStr? }

  /** An optional property that, when present, is a boolean. */
  predicate OptBool(m: map<string, Json>, k: string) { k in m ==> m[k].JBool? }

  /** An optional property that, when present, is a number. */
  predicate OptNumber(m: map<string, Json>, k: string) { k in m ==> m[k].JNum? }

  /** An optional property that, when present, is a non-array object. */
  predicate OptObject(m: map<string, Json>, k: string) { k in m ==> m[k].JObj? }

  /** An optional property that, when present, is a string from `allowed`. */
  predicate OptEnum(m: map<string, Json>, k: string, allowed: set<string>)
  {
    k in m ==> m[k].JStr? && m[k].s in allowed
  }

  predicate AllStrings(items: seq<Json>) { forall i :: 0 <= i < |items| ==> items[i].JStr? }

  /** An optional property that, when present, is an array of strings. */
  predicate OptStringArray(m: map<string, Json>, k: string)
  {
    k in m ==> m[k].JArr? && AllStrings(m[k].items)
  }

  /** The generated `for (key in data) if (!allowed) return false` loop. */
  method CheckKeys(m: map<string, Json>, allowed: set<string>) returns (ok: bool)
    ensures ok <==> m.Keys <= allowed
  {
    var remaining := m.Keys;
    while remaining != {}
      invariant remaining <= m.Keys
      invariant forall k :: k in m.Keys && k !in remaining ==> k in allowed
      decreases remaining
    {
      var k :| k in remaining;
      if k !in allowed {
        return false;
      }
      remaining := remaining - {k};
    }
    return true;
  }

  /** The generated items loop for an array of strings. */
  method CheckStrings(items: seq<Json>) returns (ok: bool)
    ensures ok <==> AllStrings(items)
  {
    var i := 0;
    while i < |items|
      invariant 0 <= i <= |items|
      invariant AllStrings(items[..i])
    {
      if !items[i].JStr? {
        return false;
      }
      i := i + 1;
    }
    assert items[..i] == items;
    return true;
  }
}
