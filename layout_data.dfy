/**
 * `document_to_layout_data` of the Textract output parser: one JSON item per
 * layout region, keyed purely by position, page by page.
 */
module LayoutData {
  import opened Wrappers
  import opened Json

  datatype BBox = BBox(x: real, y: real, width: real, height: real)

  /**
   * A layout region as the textractor document exposes it; `content` is what its
   * `to_markdown()` returns, which is not modelled.
   */
  datatype Layout = Layout(layoutType: string, bbox: BBox, confidence: real, metadata: Json, content: string, id: string)

  /** `document.pages`, each page reduced to its `layouts`. */
  type Document = seq<seq<Layout>>

  /** The dict built for one layout at page index `page` and layout index `order`. */
  function Item(layout: Layout, page: nat, order: nat): (r: Json)
    ensures r.JObj? && |r.fields| == 8
  {
    JObj([
      ("type", JStr(layout.layoutType)),
      ("bbox", BoxJson(layout.bbox)),
      ("confidence", JFloat(layout.confidence)),
      ("metadata", layout.metadata),
      ("content", JStr(layout.content)),
      ("id", JStr(layout.id)),
      ("page", JInt(page)),
      ("order", JInt(order))])
  }

  function BoxJson(b: BBox): Json
  {
    JObj([("x", JFloat(b.x)), ("y", JFloat(b.y)), ("width", JFloat(b.width)), ("height", JFloat(b.height))])
  }

  /** An item's `page` is the page index it was built for. */
  lemma ItemPageField(layout: Layout, page: nat, order: nat)
    ensures Lookup(Item(layout, page, order).fields, "page") == Some(JInt(page))
  {
    var f := Item(layout, page, order).fields;
    assert f[0].0 == "type" && f[1].0 == "bbox" && f[2].0 == "confidence" && f[3].0 == "metadata"
      && f[4].0 == "content" && f[5].0 == "id" && f[6].0 == "page" && f[7].0 == "order";
    LookupAt(f, 6, "page");
  }

  /** An item's `order` is the layout index it was built for. */
  lemma ItemOrderField(layout: Layout, page: nat, order: nat)
    ensures Lookup(Item(layout, page, order).fields, "order") == Some(JInt(order))
  {
    var f := Item(layout, page, order).fields;
    assert f[0].0 == "type" && f[1].0 == "bbox" && f[2].0 == "confidence" && f[3].0 == "metadata"
      && f[4].0 == "content" && f[5].0 == "id" && f[6].0 == "page" && f[7].0 == "order";
    LookupAt(f, 7, "order");
  }

  /** An item's `id` is the layout's id. */
  lemma ItemIdField(layout: Layout, page: nat, order: nat)
    ensures Lookup(Item(layout, page, order).fields, "id") == Some(JStr(layout.id))
  {
    var f := Item(layout, page, order).fields;
    assert f[0].0 == "type" && f[1].0 == "bbox" && f[2].0 == "confidence" && f[3].0 == "metadata"
      && f[4].0 == "content" && f[5].0 == "id" && f[6].0 == "page" && f[7].0 == "order";
    LookupAt(f, 5, "id");
  }

  /** An item's `type` is the layout's type. */
  lemma ItemTypeField(layout: Layout, page: nat, order: nat)
    ensures Lookup(Item(layout, page, order).fields, "type") == Some(JStr(layout.layoutType))
  {
    var f := Item(layout, page, order).fields;
    assert f[0].0 == "type" && f[1].0 == "bbox" && f[2].0 == "confidence" && f[3].0 == "metadata"
      && f[4].0 == "content" && f[5].0 == "id" && f[6].0 == "page" && f[7].0 == "order";
    LookupAt(f, 0, "type");
  }

  /** An item's `bbox` holds the layout's x, y, width and height. */
  lemma ItemBoxField(layout: Layout, page: nat, order: nat)
    ensures Lookup(Item(layout, page, order).fields, "bbox") == Some(BoxJson(layout.bbox))
  {
    var f := Item(layout, page, order).fields;
    assert f[0].0 == "type" && f[1].0 == "bbox" && f[2].0 == "confidence" && f[3].0 == "metadata"
      && f[4].0 == "content" && f[5].0 == "id" && f[6].0 == "page" && f[7].0 == "order";
    LookupAt(f, 1, "bbox");
  }

  /** An item's `confidence` is the layout's. */
  lemma ItemConfidenceField(layout: Layout, page: nat, order: nat)
    ensures Lookup(Item(layout, page, order).fields, "confidence") == Some(JFloat(layout.confidence))
  {
    var f := Item(layout, page, order).fields;
    assert f[0].0 == "type" && f[1].0 == "bbox" && f[2].0 == "confidence" && f[3].0 == "metadata"
      && f[4].0 == "content" && f[5].0 == "id" && f[6].0 == "page" && f[7].0 == "order";
    LookupAt(f, 2, "confidence");
  }

  /** An item's `metadata` is the layout's. */
  lemma ItemMetadataField(layout: Layout, page: nat, order: nat)
    ensures Lookup(Item(layout, page, order).fields, "metadata") == Some(layout.metadata)
  {
    var f := Item(layout, page, order).fields;
    assert f[0].0 == "type" && f[1].0 == "bbox" && f[2].0 == "confidence" && f[3].0 == "metadata"
      && f[4].0 == "content" && f[5].0 == "id" && f[6].0 == "page" && f[7].0 == "order";
    LookupAt(f, 3, "metadata");
  }

  /** An item has no `body` key: reading `message['body']` raises KeyError. */
  lemma ItemHasNoBody(layout: Layout, page: nat, order: nat)
    ensures Lookup(Item(layout, page, order).fields, "body") == None
  {
    var f := Item(layout, page, order).fields;
    assert f[0].0 == "type" && f[1].0 == "bbox" && f[2].0 == "confidence" && f[3].0 == "metadata"
      && f[4].0 == "content" && f[5].0 == "id" && f[6].0 == "page" && f[7].0 == "order";
    forall i | 0 <= i < |f| ensures Keys(f)[i] != "body" {
      assert Keys(f)[i] == f[i].0;
    }
  }

  /** An item's key is (page, order), independent of the layout's content. */
  lemma ItemKey(layout: Layout, page: nat, order: nat)
    ensures KeyOf(Item(layout, page, order)) == (page, order)
  {
    ItemPageField(layout, page, order);
    ItemOrderField(layout, page, order);
  }

  /** The items of one page, in layout order. */
  function PageItems(layouts: seq<Layout>, page: nat): (r: seq<Json>)
    ensures |r| == |layouts|
  {
    seq(|layouts|, o requires 0 <= o < |layouts| => Item(layouts[o], page, o))
  }

  /** The whole output list: the pages' items one after the other. */
  function LayoutItems(doc: Document): seq<Json>
  {
    if doc == [] then [] else LayoutItems(doc[..|doc| - 1]) + PageItems(doc[|doc| - 1], |doc| - 1)
  }

  /** The number of layouts over all pages. */
  function TotalLayouts(doc: Document): nat
  {
    if doc == [] then 0 else TotalLayouts(doc[..|doc| - 1]) + |doc[|doc| - 1]|
  }

  /** The (page, order) key of an output item. */
  function KeyOf(item: Json): (int, int)
  {
    if item.JObj? && Lookup(item.fields, "page").Some? && Lookup(item.fields, "page").value.JInt?
       && Lookup(item.fields, "order").Some? && Lookup(item.fields, "order").value.JInt?
    then (Lookup(item.fields, "page").value.i, Lookup(item.fields, "order").value.i)
    else (-1, -1)
  }

  predicate KeyBefore(a: (int, int), b: (int, int))
  {
    a.0 < b.0 || (a.0 == b.0 && a.1 < b.1)
  }

  /** The output has one item per layout. */
  lemma {:induction false} LayoutItemsLength(doc: Document)
    ensures |LayoutItems(doc)| == TotalLayouts(doc)
  {
    if doc != [] {
      LayoutItemsLength(doc[..|doc| - 1]);
    }
  }

  /**
   * The item for layout `o` of page `p` sits right after the items of the pages
   * before it, and is built from that layout with key (p, o).
   */
  lemma {:induction false} ItemPosition(doc: Document, p: nat, o: nat)
    requires p < |doc| && o < |doc[p]|
    ensures TotalLayouts(doc[..p]) + o < |LayoutItems(doc)|
    ensures LayoutItems(doc)[TotalLayouts(doc[..p]) + o] == Item(doc[p][o], p, o)
  {
    var init := doc[..|doc| - 1];
    LayoutItemsLength(init);
    if p == |doc| - 1 {
      assert doc[..p] == init;
    } else {
      assert init[..p] == doc[..p];
      ItemPosition(init, p, o);
    }
  }

  /** Each output position holds the item of one layout, right after the pages before it. */
  lemma {:induction false} Locate(doc: Document, i: nat) returns (p: nat, o: nat)
    requires i < |LayoutItems(doc)|
    ensures p < |doc| && o < |doc[p]|
    ensures i == TotalLayouts(doc[..p]) + o
    ensures LayoutItems(doc)[i] == Item(doc[p][o], p, o)
  {
    var init := doc[..|doc| - 1];
    LayoutItemsLength(init);
    if i < |LayoutItems(init)| {
      p, o := Locate(init, i);
      assert init[..p] == doc[..p];
    } else {
      p, o := |doc| - 1, i - |LayoutItems(init)|;
      assert doc[..p] == init;
    }
  }

  /** A later page starts after every layout of an earlier page. */
  lemma {:induction false} PagesDoNotOverlap(doc: Document, a: nat, b: nat)
    requires a < b <= |doc|
    ensures TotalLayouts(doc[..a]) + |doc[a]| <= TotalLayouts(doc[..b])
    decreases b
  {
    assert doc[..b][..b - 1] == doc[..b - 1];
    if a < b - 1 {
      PagesDoNotOverlap(doc, a, b - 1);
    }
  }

  /** Items come in strictly increasing (page, order), so no two share a key. */
  lemma KeysStrictlyIncrease(doc: Document, i: nat, j: nat)
    requires i < j < |LayoutItems(doc)|
    ensures KeyBefore(KeyOf(LayoutItems(doc)[i]), KeyOf(LayoutItems(doc)[j]))
  {
    var p1, o1 := Locate(doc, i);
    var p2, o2 := Locate(doc, j);
    ItemKey(doc[p1][o1], p1, o1);
    ItemKey(doc[p2][o2], p2, o2);
    if p2 < p1 {
      PagesDoNotOverlap(doc, p2, p1);
    } else if p1 < p2 {
      PagesDoNotOverlap(doc, p1, p2);
    }
  }

  /**
   * `document_to_layout_data`: two nested enumerate loops appending to `output`.
   */
  method DocumentToLayoutData(doc: Document) returns (output: seq<Json>)
    ensures output == LayoutItems(doc)
  {
    output := [];
    var p := 0;
    while p < |doc|
      invariant 0 <= p <= |doc|
      invariant output == LayoutItems(doc[..p])
    {
      var page := doc[p];
      var o := 0;
      while o < |page|
        invariant 0 <= o <= |page|
        invariant output == LayoutItems(doc[..p]) + PageItems(page, p)[..o]
      {
        output := output + [Item(page[o], p, o)];
        o := o + 1;
      }
      assert doc[..p + 1][..p] == doc[..p];
      assert PageItems(page, p)[..o] == PageItems(page, p);
      p := p + 1;
    }
    assert doc[..p] == doc;
  }
}
