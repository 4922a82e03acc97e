/**
 * JSON values as Python's `json.loads` hands them to the handlers: a dict is
 * a sequence of (key, value) pairs in insertion order, a list a sequence.
 * Floating-point numbers are opaque reals: nothing in the model computes with them.
 * A dict that `json.loads` builds has each key once (a repeated key keeps its last
 * value); `UniqueKeys` states this, and `Assign` preserves it.
 */
module Json {
  import opened Wrappers

  datatype Json =
    | JNull
    | JBool(b: bool)
    | JInt(i: int)
    | JFloat(x: real)
    | JStr(s: string)
    | JArr(items: seq<Json>)
    | JObj(fields: seq<(string, Json)>)

  /** The keys of a dict, in insertion order. */
  function Keys(fields: seq<(string, Json)>): (ks: seq<string>)
    ensures |ks| == |fields|
    ensures forall i :: 0 <= i < |fields| ==> ks[i] == fields[i].0
  {
    if fields == [] then [] else [fields[0].0] + Keys(fields[1..])
  }

  /** `d[key]` on a dict: the value under the first occurrence of `key`, or None (Python's KeyError). */
  function Lookup(fields: seq<(string, Json)>, key: string): (r: Option<Json>)
    ensures r.None? <==> key !in Keys(fields)
    ensures r.Some? ==> (key, r.value) in fields
  {
    if fields == [] then None
    else if fields[0].0 == key then Some(fields[0].1)
    else Lookup(fields[1..], key)
  }

  /**
   * `d[key] = value` on a dict: an existing key keeps its position and gets
   * the new value; a new key is appended.
   */
  function Assign(fields: seq<(string, Json)>, key: string, value: Json): (r: seq<(string, Json)>)
    ensures Lookup(r, key) == Some(value)
    ensures key in Keys(fields) ==> Keys(r) == Keys(fields)
    ensures key !in Keys(fields) ==> Keys(r) == Keys(fields) + [key]
  {
    if fields == [] then [(key, value)]
    else if fields[0].0 == key then [(key, value)] + fields[1..]
    else [fields[0]] + Assign(fields[1..], key, value)
  }

  /** Assigning one key leaves every other key's value as it was. */
  lemma {:induction false} AssignKeepsOthers(fields: seq<(string, Json)>, key: string, value: Json, other: string)
    requires other != key
    ensures Lookup(Assign(fields, key, value), other) == Lookup(fields, other)
  {
    if fields != [] && fields[0].0 != key {
      AssignKeepsOthers(fields[1..], key, value, other);
    }
  }

  /** The value under a key is the one at its first occurrence. */
  lemma {:induction false} LookupAt(fields: seq<(string, Json)>, i: nat, key: string)
    requires i < |fields| && fields[i].0 == key
    requires forall j :: 0 <= j < i ==> fields[j].0 != key
    ensures Lookup(fields, key) == Some(fields[i].1)
  {
    if i > 0 {
      LookupAt(fields[1..], i - 1, key);
    }
  }

  /** A Python dict: no key occurs twice. */
  ghost predicate UniqueKeys(fields: seq<(string, Json)>)
  {
    forall i, j :: 0 <= i < j < |fields| ==> fields[i].0 != fields[j].0
  }

  /** `d[key] = value` keeps a dict's keys distinct. */
  lemma AssignKeepsUniqueKeys(fields: seq<(string, Json)>, key: string, value: Json)
    requires UniqueKeys(fields)
    ensures UniqueKeys(Assign(fields, key, value))
  {
    var r := Assign(fields, key, value);
    forall i, j | 0 <= i < j < |r| ensures r[i].0 != r[j].0 {
      assert Keys(r)[i] == r[i].0 && Keys(r)[j] == r[j].0;
      if key !in Keys(fields) && j == |fields| {
        assert Keys(fields)[i] == Keys(r)[i];
      } else {
        assert Keys(fields)[i] == fields[i].0 && Keys(fields)[j] == fields[j].0;
      }
    }
  }

  /** In a dict with distinct keys, `d[key]` finds the one value stored under `key`. */
  lemma LookupUnique(fields: seq<(string, Json)>, key: string, value: Json)
    requires UniqueKeys(fields)
    ensures Lookup(fields, key) == Some(value) <==> (key, value) in fields
  {
    if (key, value) in fields {
      var i :| 0 <= i < |fields| && fields[i] == (key, value);
      LookupAt(fields, i, key);
    }
  }
}
