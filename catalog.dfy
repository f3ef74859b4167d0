/** The product catalogue the shipping page loads before it reads any order:
    every BOM table with its cost rolled up from its line items, and every
    custom combination (bundle) with its volume and cost rolled up from the
    BOM tables it is made of. Database reads are replaced by maps of the
    documents that exist. */
module Catalog {
  import opened Js
  import opened Seqs

  /** A line item as stored in a BOM document. A shared line normally holds a
      reference to a shared-material document in unitCost. */
  datatype StoredLine = StoredLine(isShared: Value, unitCost: Value, quantity: Value, isTaxed: Value)

  /** The shared-material documents that exist, by reference path, each
      given by its unitCost field. */
  type Materials = map<string, Value>

  /** The unit cost of a line. Only a shared line dereferences a reference;
      a reference to a missing document costs nothing, and so does a
      reference on a line that is not shared, since parseFloat of a
      reference is NaN. */
  function UnitCostOf(rt: Runtime, mats: Materials, line: StoredLine): real {
    if Truthy(line.isShared) && line.unitCost.Ref? then
      (if line.unitCost.path in mats then NumOr0(rt, mats[line.unitCost.path]) else 0.0)
    else NumOr0(rt, line.unitCost)
  }

  /** The cost of a line: quantity times unit cost, plus 5% of that when taxed. */
  function LineCost(rt: Runtime, mats: Materials, line: StoredLine): real {
    var itemCost := NumOr0(rt, line.quantity) * UnitCostOf(rt, mats, line);
    itemCost + (if Truthy(line.isTaxed) then itemCost * 0.05 else 0.0)
  }

  /** A line costs its quantity times its unit cost, times 1.05 exactly when
      it is taxed. */
  lemma LineCostSpec(rt: Runtime, mats: Materials, line: StoredLine)
    ensures Truthy(line.isTaxed) ==>
      LineCost(rt, mats, line) == 1.05 * NumOr0(rt, line.quantity) * UnitCostOf(rt, mats, line)
    ensures !Truthy(line.isTaxed) ==>
      LineCost(rt, mats, line) == NumOr0(rt, line.quantity) * UnitCostOf(rt, mats, line)
  {
  }

  /** A shared line whose material document is missing contributes nothing. */
  lemma MissingMaterialIsFree(rt: Runtime, mats: Materials, line: StoredLine)
    requires Truthy(line.isShared) && line.unitCost.Ref? && line.unitCost.path !in mats
    ensures LineCost(rt, mats, line) == 0.0
  {
  }

  /** Lines whose quantity and unit cost are not negative cost nothing negative. */
  lemma LineCostNonNegative(rt: Runtime, mats: Materials, line: StoredLine)
    requires NumOr0(rt, line.quantity) >= 0.0 && UnitCostOf(rt, mats, line) >= 0.0
    ensures LineCost(rt, mats, line) >= 0.0
  {
  }

  function LineCostIn(rt: Runtime, mats: Materials): StoredLine -> real {
    line => LineCost(rt, mats, line)
  }

  /** The cost of a BOM table: the sum of its line costs. */
  function BomCost(rt: Runtime, mats: Materials, items: seq<StoredLine>): real {
    Sum(items, LineCostIn(rt, mats))
  }

  /** The cost roll-up loop `cost += itemCost + tax` over the line items. */
  method ComputeBomCost(rt: Runtime, mats: Materials, items: seq<StoredLine>) returns (cost: real)
    ensures cost == BomCost(rt, mats, items)
  {
    cost := 0.0;
    var i := 0;
    while i < |items|
      invariant 0 <= i <= |items|
      invariant cost == Sum(items[..i], LineCostIn(rt, mats))
    {
      assert items[..i + 1][..i] == items[..i];
      cost := cost + LineCost(rt, mats, items[i]);
      i := i + 1;
    }
    assert items[..i] == items;
  }

  /** The cost of a table of several parts is the sum of the parts' costs. */
  lemma BomCostConcat(rt: Runtime, mats: Materials, a: seq<StoredLine>, b: seq<StoredLine>)
    ensures BomCost(rt, mats, a + b) == BomCost(rt, mats, a) + BomCost(rt, mats, b)
  {
    SumConcat(a, b, LineCostIn(rt, mats));
  }

  /** Reordering the lines of a table does not change its cost. */
  lemma BomCostReorder(rt: Runtime, mats: Materials, a: seq<StoredLine>, b: seq<StoredLine>)
    requires multiset(a) == multiset(b)
    ensures BomCost(rt, mats, a) == BomCost(rt, mats, b)
  {
    SumPermutation(a, b, LineCostIn(rt, mats));
  }

  // -----------------------------------------------------------------------
  // BOM tables

  /** A stored BOM document. Volume is a stored number (0 when absent). */
  datatype BomDoc = BomDoc(id: string, productCode: Value, volume: real, tableName: Value, items: seq<StoredLine>)

  /** The summary of a BOM table kept for matching: source 'bom'. */
  datatype BomEntry = BomEntry(id: string, productCode: Value, volume: real, tableName: Value, cost: real)

  /** `v || d`. */
  function OrElse(v: Value, d: Value): (r: Value)
    ensures Truthy(v) ==> r == v
    ensures !Truthy(v) ==> r == d
  {
    if Truthy(v) then v else d
  }

  /** fetchBomTables: one entry per document, in order, with the code and
      name defaulting to '' and the cost rolled up from the lines. */
  method FetchBomTables(rt: Runtime, mats: Materials, docs: seq<BomDoc>) returns (entries: seq<BomEntry>)
    ensures |entries| == |docs|
    ensures forall i :: 0 <= i < |docs| ==>
      && entries[i].id == docs[i].id
      && entries[i].productCode == OrElse(docs[i].productCode, Str(""))
      && entries[i].volume == docs[i].volume
      && entries[i].tableName == OrElse(docs[i].tableName, Str(""))
      && entries[i].cost == BomCost(rt, mats, docs[i].items)
  {
    entries := [];
    var i := 0;
    while i < |docs|
      invariant 0 <= i <= |docs|
      invariant |entries| == i
      invariant forall j :: 0 <= j < i ==>
        && entries[j].id == docs[j].id
        && entries[j].productCode == OrElse(docs[j].productCode, Str(""))
        && entries[j].volume == docs[j].volume
        && entries[j].tableName == OrElse(docs[j].tableName, Str(""))
        && entries[j].cost == BomCost(rt, mats, docs[j].items)
    {
      var d := docs[i];
      var cost := ComputeBomCost(rt, mats, d.items);
      entries := entries + [BomEntry(d.id, OrElse(d.productCode, Str("")), d.volume, OrElse(d.tableName, Str("")), cost)];
      i := i + 1;
    }
  }

  // -----------------------------------------------------------------------
  // BOM tables as the pricing pages read them

  /** How a BOM document names its category: a reference to a category
      document, a plain name, or neither. */
  datatype CategoryField = CategoryRef(path: string) | CategoryName(name: string) | OtherCategory

  /** The category documents that exist, by reference path, with their names. */
  type Categories = map<string, string>

  /** The category shown for a BOM table: the referenced document's name
      ('未分類' when it does not exist), the plain name, or '未分類'. */
  function CategoryOf(cats: Categories, c: CategoryField): (name: string)
    ensures c.CategoryName? ==> name == c.name
    ensures c.CategoryRef? ==> name == (if c.path in cats then cats[c.path] else "未分類")
    ensures c.OtherCategory? ==> name == "未分類"
  {
    match c
    case CategoryRef(path) => if path in cats then cats[path] else "未分類"
    case CategoryName(name) => name
    case OtherCategory => "未分類"
  }

  /** A BOM document as the pricing pages read it. */
  datatype PricedDoc = PricedDoc(id: string, tableName: string, category: CategoryField, websitePrice: Value, items: seq<StoredLine>)

  // -----------------------------------------------------------------------
  // Custom combinations (bundles)

  /** A product line of a stored bundle: the id of a BOM document ("" when
      none was chosen) and a stored quantity (0 when absent). */
  datatype BundleProduct = BundleProduct(productId: string, quantity: real)

  datatype BundleDoc = BundleDoc(id: string, productCode: Value, name: Value, products: seq<BundleProduct>)

  /** A resolved component of a bundle. */
  datatype Component = Component(
    id: string, name: Value, productCode: Value, quantity: real,
    unitVolume: real, totalVolume: real, unitCost: real, totalCost: real)

  /** The summary of a bundle kept for matching: source 'custom'. */
  datatype BundleEntry = BundleEntry(
    id: string, productCode: Value, name: Value, volume: real, cost: real, components: seq<Component>)

  /** The BOM documents that exist, by id. */
  type BomStore = map<string, BomDoc>

  /** `product.quantity || 1`. */
  function BundleQuantity(p: BundleProduct): (q: real)
    ensures q != 0.0
    ensures p.quantity != 0.0 ==> q == p.quantity
  {
    if p.quantity != 0.0 then p.quantity else 1.0
  }

  /** A product line refers to a BOM document that exists. */
  predicate Resolves(store: BomStore, p: BundleProduct) {
    p.productId != "" && p.productId in store
  }

  /** The component a product line contributes: none when its BOM is missing. */
  function ComponentFor(rt: Runtime, mats: Materials, store: BomStore, p: BundleProduct): (cs: seq<Component>)
    ensures |cs| == (if Resolves(store, p) then 1 else 0)
  {
    if Resolves(store, p) then
      var bom := store[p.productId];
      var q := BundleQuantity(p);
      var cost := BomCost(rt, mats, bom.items);
      [Component(p.productId, OrElse(bom.tableName, Str("未命名產品")), OrElse(bom.productCode, Str("無料號")),
                 q, bom.volume, bom.volume * q, cost, cost * q)]
    else []
  }

  /** The components of a bundle, in the order of its product lines. */
  function ComponentsOf(rt: Runtime, mats: Materials, store: BomStore, ps: seq<BundleProduct>): seq<Component> {
    if ps == [] then []
    else ComponentsOf(rt, mats, store, ps[..|ps| - 1]) + ComponentFor(rt, mats, store, ps[|ps| - 1])
  }

  /** A component is built from an existing BOM document: its unit volume
      and unit cost are that table's, its quantity is never 0, and its
      totals are the unit values times the quantity. */
  ghost predicate WellBuilt(rt: Runtime, mats: Materials, store: BomStore, c: Component) {
    && c.id != "" && c.id in store
    && c.quantity != 0.0
    && c.unitVolume == store[c.id].volume
    && c.totalVolume == c.unitVolume * c.quantity
    && c.unitCost == BomCost(rt, mats, store[c.id].items)
    && c.totalCost == c.unitCost * c.quantity
  }

  lemma {:induction false} ComponentsWellBuilt(rt: Runtime, mats: Materials, store: BomStore, ps: seq<BundleProduct>)
    ensures forall i :: 0 <= i < |ComponentsOf(rt, mats, store, ps)| ==> WellBuilt(rt, mats, store, ComponentsOf(rt, mats, store, ps)[i])
  {
    if ps != [] {
      ComponentsWellBuilt(rt, mats, store, ps[..|ps| - 1]);
      var a := ComponentsOf(rt, mats, store, ps[..|ps| - 1]);
      var b := ComponentFor(rt, mats, store, ps[|ps| - 1]);
      forall i | 0 <= i < |a + b| ensures WellBuilt(rt, mats, store, (a + b)[i]) {
        if i >= |a| {
          assert (a + b)[i] == b[0];
        }
      }
    }
  }

  lemma {:induction false} ComponentsConcat(rt: Runtime, mats: Materials, store: BomStore, a: seq<BundleProduct>, b: seq<BundleProduct>)
    ensures ComponentsOf(rt, mats, store, a + b) == ComponentsOf(rt, mats, store, a) + ComponentsOf(rt, mats, store, b)
    decreases |b|
  {
    if b == [] {
      assert a + b == a;
    } else {
      var b' := b[..|b| - 1];
      var ab := a + b;
      assert ab[..|ab| - 1] == a + b' && ab[|ab| - 1] == b[|b| - 1];
      ComponentsConcat(rt, mats, store, a, b');
      ConcatAssoc(ComponentsOf(rt, mats, store, a), ComponentsOf(rt, mats, store, b'), ComponentFor(rt, mats, store, b[|b| - 1]));
    }
  }

  /** Exactly the product lines whose BOM exists become components. */
  lemma {:induction false} ComponentsCount(rt: Runtime, mats: Materials, store: BomStore, ps: seq<BundleProduct>)
    ensures |ComponentsOf(rt, mats, store, ps)| == Count(ps, p => Resolves(store, p))
  {
    if ps != [] {
      ComponentsCount(rt, mats, store, ps[..|ps| - 1]);
    }
  }

  function ComponentVolume(c: Component): real { c.totalVolume }
  function ComponentCost(c: Component): real { c.totalCost }

  /** The volume a product line adds to its bundle, 0 when its BOM is missing. */
  function ProductVolume(store: BomStore, p: BundleProduct): real {
    if Resolves(store, p) then store[p.productId].volume * BundleQuantity(p) else 0.0
  }

  /** The cost a product line adds to its bundle, 0 when its BOM is missing. */
  function ProductCost(rt: Runtime, mats: Materials, store: BomStore, p: BundleProduct): real {
    if Resolves(store, p) then BomCost(rt, mats, store[p.productId].items) * BundleQuantity(p) else 0.0
  }

  /** The bundle volume and cost over the components are the weighted sums
      over the product lines, a missing BOM counting as nothing. */
  lemma {:induction false} BundleTotals(rt: Runtime, mats: Materials, store: BomStore, ps: seq<BundleProduct>)
    ensures Sum(ComponentsOf(rt, mats, store, ps), ComponentVolume) == Sum(ps, p => ProductVolume(store, p))
    ensures Sum(ComponentsOf(rt, mats, store, ps), ComponentCost) == Sum(ps, p => ProductCost(rt, mats, store, p))
  {
    if ps != [] {
      var init := ps[..|ps| - 1];
      var p := ps[|ps| - 1];
      BundleTotals(rt, mats, store, init);
      var cs := ComponentsOf(rt, mats, store, init);
      var c := ComponentFor(rt, mats, store, p);
      SumConcat(cs, c, ComponentVolume);
      SumConcat(cs, c, ComponentCost);
      if Resolves(store, p) {
        SumSingle(c[0], ComponentVolume);
        SumSingle(c[0], ComponentCost);
      }
    }
  }

  lemma AppendComponent(cs: seq<Component>, c: Component)
    ensures Sum(cs + [c], ComponentVolume) == Sum(cs, ComponentVolume) + c.totalVolume
    ensures Sum(cs + [c], ComponentCost) == Sum(cs, ComponentCost) + c.totalCost
  {
    assert (cs + [c])[..|cs + [c]| - 1] == cs;
  }

  lemma ComponentsStep(rt: Runtime, mats: Materials, store: BomStore, ps: seq<BundleProduct>, i: nat)
    requires i < |ps|
    ensures ComponentsOf(rt, mats, store, ps[..i + 1]) == ComponentsOf(rt, mats, store, ps[..i]) + ComponentFor(rt, mats, store, ps[i])
  {
    assert ps[..i + 1][..i] == ps[..i];
  }

  /** The body of the product loop: fetch the BOM document of one product
      line and, when it exists, build its component with its cost rolled up. */
  method ResolveProduct(rt: Runtime, mats: Materials, store: BomStore, p: BundleProduct) returns (cs: seq<Component>)
    ensures cs == ComponentFor(rt, mats, store, p)
  {
    if p.productId != "" && p.productId in store {
      var bom := store[p.productId];
      var q := BundleQuantity(p);
      var cost := ComputeBomCost(rt, mats, bom.items);
      var c := Component(p.productId, OrElse(bom.tableName, Str("未命名產品")), OrElse(bom.productCode, Str("無料號")),
                         q, bom.volume, bom.volume * q, cost, cost * q);
      assert c == ComponentFor(rt, mats, store, p)[0];
      cs := [c];
    } else {
      cs := [];
    }
  }

  /** The per-bundle loop of fetchCustomCombinations: `totalVolume +=` and
      `totalCost +=` with one pushed component per product line whose BOM
      document exists. */
  method FetchBundle(rt: Runtime, mats: Materials, store: BomStore, doc: BundleDoc) returns (e: BundleEntry)
    ensures e.id == doc.id
    ensures e.productCode == OrElse(doc.productCode, Str(""))
    ensures e.name == OrElse(doc.name, Str("未命名組合"))
    ensures e.components == ComponentsOf(rt, mats, store, doc.products)
    ensures e.volume == Sum(e.components, ComponentVolume)
    ensures e.cost == Sum(e.components, ComponentCost)
  {
    var totalVolume := 0.0;
    var totalCost := 0.0;
    var components: seq<Component> := [];
    var i := 0;
    var ps := doc.products;
    while i < |ps|
      invariant 0 <= i <= |ps|
      invariant components == ComponentsOf(rt, mats, store, ps[..i])
      invariant totalVolume == Sum(components, ComponentVolume)
      invariant totalCost == Sum(components, ComponentCost)
    {
      ComponentsStep(rt, mats, store, ps, i);
      components, totalVolume, totalCost := AddProduct(rt, mats, store, ps[i], components, totalVolume, totalCost);
      i := i + 1;
    }
    assert ps[..i] == ps;
    e := BundleEntry(doc.id, OrElse(doc.productCode, Str("")), OrElse(doc.name, Str("未命名組合")), totalVolume, totalCost, components);
  }

  /** One turn of the product loop: the component of the product line, when
      there is one, is pushed and its totals are added. */
  method AddProduct(rt: Runtime, mats: Materials, store: BomStore, p: BundleProduct, components: seq<Component>, totalVolume: real, totalCost: real)
    returns (components': seq<Component>, totalVolume': real, totalCost': real)
    requires totalVolume == Sum(components, ComponentVolume)
    requires totalCost == Sum(components, ComponentCost)
    ensures components' == components + ComponentFor(rt, mats, store, p)
    ensures totalVolume' == Sum(components', ComponentVolume)
    ensures totalCost' == Sum(components', ComponentCost)
  {
    var c := ResolveProduct(rt, mats, store, p);
    if c != [] {
      AppendComponent(components, c[0]);
      assert c == [c[0]];
      totalVolume' := totalVolume + c[0].totalVolume;
      totalCost' := totalCost + c[0].totalCost;
      components' := components + [c[0]];
    } else {
      assert components + c == components;
      components', totalVolume', totalCost' := components, totalVolume, totalCost;
    }
  }

  /** fetchCustomCombinations: one entry per bundle document, in order. */
  method FetchBundles(rt: Runtime, mats: Materials, store: BomStore, docs: seq<BundleDoc>) returns (entries: seq<BundleEntry>)
    ensures |entries| == |docs|
    ensures forall i :: 0 <= i < |docs| ==>
      && entries[i].id == docs[i].id
      && entries[i].productCode == OrElse(docs[i].productCode, Str(""))
      && entries[i].name == OrElse(docs[i].name, Str("未命名組合"))
      && entries[i].components == ComponentsOf(rt, mats, store, docs[i].products)
      && entries[i].volume == Sum(docs[i].products, p => ProductVolume(store, p))
      && entries[i].cost == Sum(docs[i].products, p => ProductCost(rt, mats, store, p))
  {
    entries := [];
    var i := 0;
    while i < |docs|
      invariant 0 <= i <= |docs|
      invariant |entries| == i
      invariant forall j :: 0 <= j < i ==>
        && entries[j].id == docs[j].id
        && entries[j].productCode == OrElse(docs[j].productCode, Str(""))
        && entries[j].name == OrElse(docs[j].name, Str("未命名組合"))
        && entries[j].components == ComponentsOf(rt, mats, store, docs[j].products)
        && entries[j].volume == Sum(docs[j].products, p => ProductVolume(store, p))
        && entries[j].cost == Sum(docs[j].products, p => ProductCost(rt, mats, store, p))
    {
      var e := FetchBundle(rt, mats, store, docs[i]);
      BundleTotals(rt, mats, store, docs[i].products);
      entries := entries + [e];
      i := i + 1;
    }
  }
}
