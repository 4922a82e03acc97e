/**
 * `remove_none` of the Textract event handler: strips every null from dict
 * values and list elements, at every depth, because the Textract response
 * parser cannot read nulls.
 */
module NullStrip {
  import opened Json

  /** No null sits as a dict value or a list element anywhere inside `j`. */
  ghost predicate NullFree(j: Json)
  {
    match j
    case JArr(items) => forall i :: 0 <= i < |items| ==> items[i] != JNull && NullFree(items[i])
    case JObj(fields) => forall i :: 0 <= i < |fields| ==> fields[i].1 != JNull && NullFree(fields[i].1)
    case _ => true
  }

  /** `remove_none(obj)`: recurse into dicts and lists, return anything else unchanged. */
  function RemoveNone(j: Json): (r: Json)
    ensures j.JArr? <==> r.JArr?
    ensures j.JObj? <==> r.JObj?
    ensures !j.JArr? && !j.JObj? ==> r == j
  {
    match j
    case JArr(items) => JArr(RemoveNoneItems(items))
    case JObj(fields) => JObj(RemoveNoneFields(fields))
    case _ => j
  }

  /** `[remove_none(item) for item in obj if item is not None]` */
  function RemoveNoneItems(items: seq<Json>): (r: seq<Json>)
    ensures |r| <= |items|
    ensures forall i :: 0 <= i < |r| ==> r[i] != JNull
  {
    if items == [] then []
    else (if items[0] == JNull then [] else [RemoveNone(items[0])]) + RemoveNoneItems(items[1..])
  }

  /** `{k: remove_none(v) for k, v in obj.items() if v is not None}` */
  function RemoveNoneFields(fields: seq<(string, Json)>): (r: seq<(string, Json)>)
    ensures |r| <= |fields|
    ensures forall i :: 0 <= i < |r| ==> r[i].1 != JNull
  {
    if fields == [] then []
    else
      assert fields[0].1 < fields[0];
      (if fields[0].1 == JNull then [] else [(fields[0].0, RemoveNone(fields[0].1))])
      + RemoveNoneFields(fields[1..])
  }

  /** The result of sanitising has no null left at any depth. */
  lemma {:induction false} RemoveNoneIsNullFree(j: Json)
    ensures NullFree(RemoveNone(j))
  {
    match j
    case JArr(items) => RemoveNoneItemsAreNullFree(items);
    case JObj(fields) => RemoveNoneFieldsAreNullFree(fields);
    case _ =>
  }

  lemma {:induction false} RemoveNoneItemsAreNullFree(items: seq<Json>)
    ensures forall i :: 0 <= i < |RemoveNoneItems(items)| ==> NullFree(RemoveNoneItems(items)[i])
  {
    if items != [] {
      RemoveNoneIsNullFree(items[0]);
      RemoveNoneItemsAreNullFree(items[1..]);
    }
  }

  lemma {:induction false} RemoveNoneFieldsAreNullFree(fields: seq<(string, Json)>)
    ensures forall i :: 0 <= i < |RemoveNoneFields(fields)| ==> NullFree(RemoveNoneFields(fields)[i].1)
  {
    if fields != [] {
      assert fields[0].1 < fields[0];
      RemoveNoneIsNullFree(fields[0].1);
      RemoveNoneFieldsAreNullFree(fields[1..]);
    }
  }

  /** The list elements that are not null, in their original order. */
  function NonNullItems(items: seq<Json>): (r: seq<Json>)
    ensures forall x :: x in r <==> x in items && x != JNull
  {
    if items == [] then []
    else (if items[0] == JNull then [] else [items[0]]) + NonNullItems(items[1..])
  }

  /** The dict entries whose value is not null, in their original order. */
  function NonNullFields(fields: seq<(string, Json)>): (r: seq<(string, Json)>)
    ensures forall e :: e in r <==> e in fields && e.1 != JNull
  {
    if fields == [] then []
    else (if fields[0].1 == JNull then [] else [fields[0]]) + NonNullFields(fields[1..])
  }

  /** Python's `map(remove_none, xs)`. */
  function MapRemoveNone(items: seq<Json>): (r: seq<Json>)
    ensures |r| == |items|
  {
    seq(|items|, i requires 0 <= i < |items| => RemoveNone(items[i]))
  }

  /** List sanitising is "drop the nulls, then sanitise what is left", order kept. */
  lemma {:induction false} RemoveNoneItemsIsFilterThenMap(items: seq<Json>)
    ensures RemoveNoneItems(items) == MapRemoveNone(NonNullItems(items))
  {
    if items != [] {
      RemoveNoneItemsIsFilterThenMap(items[1..]);
    }
  }

  /** Dict sanitising keeps exactly the non-null entries, in order, each value sanitised. */
  lemma {:induction false} RemoveNoneFieldsIsFilterThenMap(fields: seq<(string, Json)>)
    ensures |RemoveNoneFields(fields)| == |NonNullFields(fields)|
    ensures forall i :: 0 <= i < |RemoveNoneFields(fields)| ==>
      RemoveNoneFields(fields)[i] == (NonNullFields(fields)[i].0, RemoveNone(NonNullFields(fields)[i].1))
  {
    if fields != [] {
      RemoveNoneFieldsIsFilterThenMap(fields[1..]);
    }
  }

  /** The surviving keys of a sanitised dict are the keys of its non-null entries, in order. */
  lemma {:induction false} RemoveNoneFieldsKeys(fields: seq<(string, Json)>)
    ensures Keys(RemoveNoneFields(fields)) == Keys(NonNullFields(fields))
  {
    RemoveNoneFieldsIsFilterThenMap(fields);
  }

  /** A tree without nulls inside is left as it is. */
  lemma {:induction false} NullFreeIsFixed(j: Json)
    requires NullFree(j)
    ensures RemoveNone(j) == j
  {
    match j
    case JArr(items) => NullFreeItemsAreFixed(items);
    case JObj(fields) => NullFreeFieldsAreFixed(fields);
    case _ =>
  }

  lemma {:induction false} NullFreeItemsAreFixed(items: seq<Json>)
    requires forall i :: 0 <= i < |items| ==> items[i] != JNull && NullFree(items[i])
    ensures RemoveNoneItems(items) == items
  {
    if items != [] {
      NullFreeIsFixed(items[0]);
      NullFreeItemsAreFixed(items[1..]);
    }
  }

  lemma {:induction false} NullFreeFieldsAreFixed(fields: seq<(string, Json)>)
    requires forall i :: 0 <= i < |fields| ==> fields[i].1 != JNull && NullFree(fields[i].1)
    ensures RemoveNoneFields(fields) == fields
  {
    if fields != [] {
      assert fields[0].1 < fields[0];
      NullFreeIsFixed(fields[0].1);
      NullFreeFieldsAreFixed(fields[1..]);
    }
  }

  /** Sanitising twice is sanitising once. */
  lemma RemoveNoneIdempotent(j: Json)
    ensures RemoveNone(RemoveNone(j)) == RemoveNone(j)
  {
    RemoveNoneIsNullFree(j);
    NullFreeIsFixed(RemoveNone(j));
  }

  /** An example: `[{"a":1,"b":null},null,{"c":2}]` strips to `[{"a":1},{"c":2}]`. */
  lemma StripExample()
    ensures RemoveNone(JArr([JObj([("a", JInt(1)), ("b", JNull)]), JNull, JObj([("c", JInt(2))])]))
         == JArr([JObj([("a", JInt(1))]), JObj([("c", JInt(2))])])
  {
    var a := JObj([("a", JInt(1)), ("b", JNull)]);
    var c := JObj([("c", JInt(2))]);
    assert RemoveNoneFields([("b", JNull)]) == [];
    assert RemoveNone(a) == JObj([("a", JInt(1))]);
    assert RemoveNoneFields([("c", JInt(2))]) == [("c", JInt(2))];
    assert RemoveNone(c) == c;
    assert RemoveNoneItems([c]) == [c];
    assert RemoveNoneItems([JNull, c]) == [c];
  }
}
