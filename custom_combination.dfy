/** The custom-combination (bundle) page: the cost of a bundle from the
    BOM tables it is made of, and the editor of a bundle's product lines
    with its save validation. Database reads are replaced by maps of the
    documents that exist. */
module CustomCombination {
  import opened Js
  import opened Seqs
  import Catalog

  // -----------------------------------------------------------------------
  // Cost

  /** Loading a line of a BOM table: a shared line whose unit cost is a
      reference gets the material's unit cost instead. A reference to a
      missing material makes the load fail (reading a field of the missing
      document throws), which is None. */
  function ResolveLine(mats: Catalog.Materials, line: Catalog.StoredLine): (r: Option<Catalog.StoredLine>)
    ensures r.Some? ==> r.value.isShared == line.isShared && r.value.quantity == line.quantity && r.value.isTaxed == line.isTaxed
  {
    if Truthy(line.isShared) && line.unitCost.Ref? then
      (if line.unitCost.path in mats then Some(line.(unitCost := mats[line.unitCost.path])) else None)
    else Some(line)
  }

  predicate LoadsIn(mats: Catalog.Materials, line: Catalog.StoredLine) {
    ResolveLine(mats, line).Some?
  }

  /** All lines of a table, loaded; None when any of them fails to load. */
  function ResolveLines(mats: Catalog.Materials, lines: seq<Catalog.StoredLine>): (r: Option<seq<Catalog.StoredLine>>)
    ensures r.Some? ==> |r.value| == |lines|
  {
    if lines == [] then Some([])
    else
      match (ResolveLines(mats, lines[..|lines| - 1]), ResolveLine(mats, lines[|lines| - 1]))
      case (Some(init), Some(x)) => Some(init + [x])
      case _ => None
  }

  /** One step of calculateProductCost: quantity times unit cost, plus 5% of
      that when taxed. */
  function ItemCost(rt: Runtime, line: Catalog.StoredLine): real {
    var itemCost := NumOr0(rt, line.quantity) * NumOr0(rt, line.unitCost);
    itemCost + (if Truthy(line.isTaxed) then itemCost * 0.05 else 0.0)
  }

  function ItemCostIn(rt: Runtime): Catalog.StoredLine -> real {
    line => ItemCost(rt, line)
  }

  /** calculateProductCost over loaded lines. */
  function CalculateProductCost(rt: Runtime, items: seq<Catalog.StoredLine>): real {
    Sum(items, ItemCostIn(rt))
  }

  /** A line loads exactly when it is not a shared reference to a missing
      material, and once loaded it costs what the shipping page charges for
      it. */
  lemma ResolveLineCost(rt: Runtime, mats: Catalog.Materials, line: Catalog.StoredLine)
    ensures LoadsIn(mats, line) <==> !(Truthy(line.isShared) && line.unitCost.Ref? && line.unitCost.path !in mats)
    ensures LoadsIn(mats, line) ==> ItemCost(rt, ResolveLine(mats, line).value) == Catalog.LineCost(rt, mats, line)
  {
  }

  /** A table loads exactly when each of its lines does. */
  lemma {:induction false} ResolveLinesSome(mats: Catalog.Materials, lines: seq<Catalog.StoredLine>)
    ensures ResolveLines(mats, lines).Some? <==> forall i :: 0 <= i < |lines| ==> LoadsIn(mats, lines[i])
  {
    if lines != [] {
      var init := lines[..|lines| - 1];
      ResolveLinesSome(mats, init);
      if ResolveLines(mats, lines).Some? {
        forall i | 0 <= i < |lines| ensures LoadsIn(mats, lines[i]) {
          if i < |init| {
            assert lines[i] == init[i];
          }
        }
      }
      if forall i :: 0 <= i < |lines| ==> LoadsIn(mats, lines[i]) {
        assert forall i :: 0 <= i < |init| ==> LoadsIn(mats, init[i]) by {
          forall i | 0 <= i < |init| ensures LoadsIn(mats, init[i]) {
            assert init[i] == lines[i];
          }
        }
      }
    }
  }

  /** A loaded table costs on this page what its BOM costs on the shipping
      page. */
  lemma {:induction false} ResolvedTableCost(rt: Runtime, mats: Catalog.Materials, lines: seq<Catalog.StoredLine>)
    requires ResolveLines(mats, lines).Some?
    ensures CalculateProductCost(rt, ResolveLines(mats, lines).value) == Catalog.BomCost(rt, mats, lines)
  {
    if lines != [] {
      var init := lines[..|lines| - 1];
      var x := lines[|lines| - 1];
      ResolvedTableCost(rt, mats, init);
      ResolveLineCost(rt, mats, x);
      var items := ResolveLines(mats, init).value;
      var y := ResolveLine(mats, x).value;
      SumSnoc(items, y, ItemCostIn(rt));
    }
  }

  /** The cost of one product line of a bundle: its table's cost times the
      stored quantity. A line without a BOM document, or whose table fails
      to load, makes the whole load fail. */
  function ProductCost(rt: Runtime, mats: Catalog.Materials, store: Catalog.BomStore, p: Catalog.BundleProduct): Option<real> {
    if !Catalog.Resolves(store, p) then None
    else
      match ResolveLines(mats, store[p.productId].items)
      case None => None
      case Some(items) => Some(CalculateProductCost(rt, items) * p.quantity)
  }

  predicate ProductLoads(rt: Runtime, mats: Catalog.Materials, store: Catalog.BomStore, p: Catalog.BundleProduct) {
    ProductCost(rt, mats, store, p).Some?
  }

  /** The bundle totalCost: the sum of its product costs, or None when one
      of them fails to load. */
  function TotalCost(rt: Runtime, mats: Catalog.Materials, store: Catalog.BomStore, ps: seq<Catalog.BundleProduct>): Option<real> {
    if ps == [] then Some(0.0)
    else
      match (TotalCost(rt, mats, store, ps[..|ps| - 1]), ProductCost(rt, mats, store, ps[|ps| - 1]))
      case (Some(a), Some(b)) => Some(a + b)
      case _ => None
  }

  /** The cost of a product line that loads, as a plain number. */
  function LoadedCost(rt: Runtime, mats: Catalog.Materials, store: Catalog.BomStore): Catalog.BundleProduct -> real {
    p => if ProductLoads(rt, mats, store, p) then ProductCost(rt, mats, store, p).value else 0.0
  }

  /** A bundle has a total exactly when every product line loads, and the
      total is then the sum of the product costs. */
  lemma {:induction false} TotalCostSpec(rt: Runtime, mats: Catalog.Materials, store: Catalog.BomStore, ps: seq<Catalog.BundleProduct>)
    ensures TotalCost(rt, mats, store, ps).Some? <==> forall i :: 0 <= i < |ps| ==> ProductLoads(rt, mats, store, ps[i])
    ensures TotalCost(rt, mats, store, ps).Some? ==> TotalCost(rt, mats, store, ps).value == Sum(ps, LoadedCost(rt, mats, store))
  {
    if ps != [] {
      var init := ps[..|ps| - 1];
      TotalCostSpec(rt, mats, store, init);
      if TotalCost(rt, mats, store, ps).Some? {
        forall i | 0 <= i < |ps| ensures ProductLoads(rt, mats, store, ps[i]) {
          if i < |init| {
            assert ps[i] == init[i];
          }
        }
      }
      if forall i :: 0 <= i < |ps| ==> ProductLoads(rt, mats, store, ps[i]) {
        assert forall i :: 0 <= i < |init| ==> ProductLoads(rt, mats, store, init[i]) by {
          forall i | 0 <= i < |init| ensures ProductLoads(rt, mats, store, init[i]) {
            assert init[i] == ps[i];
          }
        }
      }
    }
  }

  /** A product line that loads costs what the shipping page charges for it,
      as long as its quantity is not 0 (the shipping page reads a 0 quantity
      as 1, this page does not). */
  lemma ProductCostAgrees(rt: Runtime, mats: Catalog.Materials, store: Catalog.BomStore, p: Catalog.BundleProduct)
    requires ProductLoads(rt, mats, store, p) && p.quantity != 0.0
    ensures ProductCost(rt, mats, store, p).value == Catalog.ProductCost(rt, mats, store, p)
  {
    LoadedProductCost(rt, mats, store, p);
    ResolvedTableCost(rt, mats, store[p.productId].items);
    ShippingProductCost(rt, mats, store, p);
  }

  lemma LoadedProductCost(rt: Runtime, mats: Catalog.Materials, store: Catalog.BomStore, p: Catalog.BundleProduct)
    requires ProductLoads(rt, mats, store, p)
    ensures Catalog.Resolves(store, p) && ResolveLines(mats, store[p.productId].items).Some?
    ensures ProductCost(rt, mats, store, p).value
      == CalculateProductCost(rt, ResolveLines(mats, store[p.productId].items).value) * p.quantity
  {
  }

  lemma ShippingProductCost(rt: Runtime, mats: Catalog.Materials, store: Catalog.BomStore, p: Catalog.BundleProduct)
    requires Catalog.Resolves(store, p) && p.quantity != 0.0
    ensures Catalog.ProductCost(rt, mats, store, p) == Catalog.BomCost(rt, mats, store[p.productId].items) * p.quantity
  {
  }

  /** A product line without a BOM document leaves the bundle without a
      total. In fetchCombinations the throw rejects the outer Promise.all as
      well, so the page then loads no bundle at all. */
  lemma MissingProductFails(rt: Runtime, mats: Catalog.Materials, store: Catalog.BomStore, ps: seq<Catalog.BundleProduct>, i: int)
    requires 0 <= i < |ps| && !Catalog.Resolves(store, ps[i])
    ensures TotalCost(rt, mats, store, ps).None?
  {
    TotalCostSpec(rt, mats, store, ps);
  }

  // -----------------------------------------------------------------------
  // Editing the product lines of a bundle

  /** A product line in the editor. */
  datatype EditProduct = EditProduct(categoryId: Value, productId: Value, quantity: Value)

  datatype ProductField = CategoryId | ProductId | Quantity

  /** handleAddProduct: a line with no category, no product and quantity 1. */
  function AddProduct(ps: seq<EditProduct>): (r: seq<EditProduct>)
    ensures |r| == |ps| + 1
    ensures r[..|ps|] == ps && r[|ps|] == EditProduct(Str(""), Str(""), Num(1.0))
  {
    ps + [EditProduct(Str(""), Str(""), Num(1.0))]
  }

  /** `{ ...p, [field]: value }`, then a changed category clears the product. */
  function ChangedProduct(p: EditProduct, field: ProductField, value: Value): EditProduct {
    match field
    case CategoryId => p.(categoryId := value, productId := Str(""))
    case ProductId => p.(productId := value)
    case Quantity => p.(quantity := value)
  }

  /** handleProductChange on the copied list. The page only passes the index
      of a row it shows. */
  method HandleProductChange(ps: seq<EditProduct>, index: int, field: ProductField, value: Value) returns (r: seq<EditProduct>)
    requires 0 <= index < |ps|
    ensures r == ps[index := ChangedProduct(ps[index], field, value)]
  {
    var a := new EditProduct[|ps|];
    forall i | 0 <= i < |ps| {
      a[i] := ps[i];
    }
    var p := ps[index];
    a[index] := match field
      case CategoryId => p.(categoryId := value)
      case ProductId => p.(productId := value)
      case Quantity => p.(quantity := value);
    if field == CategoryId {
      a[index] := a[index].(productId := Str(""));
    }
    r := a[..];
  }

  /** A change sets exactly the chosen field, except that a new category
      also clears the product; the other lines are untouched. */
  lemma ProductChangeSpec(ps: seq<EditProduct>, index: int, field: ProductField, value: Value)
    requires 0 <= index < |ps|
    ensures var r := ps[index := ChangedProduct(ps[index], field, value)];
      && |r| == |ps| && (forall i :: 0 <= i < |ps| && i != index ==> r[i] == ps[i])
      && (field == CategoryId ==> r[index].categoryId == value && r[index].productId == Str("") && r[index].quantity == ps[index].quantity)
      && (field == ProductId ==> r[index] == ps[index].(productId := value))
      && (field == Quantity ==> r[index] == ps[index].(quantity := value))
  {
  }

  /** The quantity input stores `parseFloat(value) || 1`: the number typed,
      or 1 when it is unreadable or 0. */
  function QuantityInput(rt: Runtime, s: string): (q: real)
    ensures q != 0.0
    ensures rt.parseFloat(s).Some? && rt.parseFloat(s).value != 0.0 ==> q == rt.parseFloat(s).value
    ensures rt.parseFloat(s).None? || rt.parseFloat(s).value == 0.0 ==> q == 1.0
  {
    match rt.parseFloat(s)
    case Some(x) => if x != 0.0 then x else 1.0
    case None => 1.0
  }

  // -----------------------------------------------------------------------
  // Saving

  datatype SaveOutcome = Saved(products: seq<EditProduct>) | NameRequired | ProductRequired

  predicate HasProduct(p: EditProduct) { Truthy(p.productId) }

  /** handleSaveCombination's checks, in order. */
  function SaveCombination(name: string, ps: seq<EditProduct>): SaveOutcome {
    if Trim(name) == "" then NameRequired
    else if |ps| == 0 || exists i :: 0 <= i < |ps| && !HasProduct(ps[i]) then ProductRequired
    else Saved(ps)
  }

  /** A bundle is saved exactly when its name is not blank, it has a product
      line and every line has a product chosen, and then its lines are
      written as they are. */
  lemma SaveCombinationSpec(name: string, ps: seq<EditProduct>)
    ensures SaveCombination(name, ps).Saved? <==>
      (exists i :: 0 <= i < |name| && !IsSpace(name[i])) && |ps| > 0 && forall i :: 0 <= i < |ps| ==> HasProduct(ps[i])
    ensures SaveCombination(name, ps).Saved? ==> SaveCombination(name, ps).products == ps
    ensures SaveCombination(name, ps) == NameRequired <==> forall i :: 0 <= i < |name| ==> IsSpace(name[i])
  {
    TrimSpec(name);
  }
}
