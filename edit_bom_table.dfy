/** The editor of an existing BOM table: item edits where picking a shared
    material goes by its name, the untaxed running total, and the filtered
    form in which the items are written back. */
module EditBomTable {
  import opened Js
  import opened Seqs
  import opened BomItems
  import Catalog

  /** The item addItem appends; this page gives it no isTaxed field. */
  function DefaultItem(): Item {
    Item(Str(""), Str(""), Str(""), Bool(false), Null, Undefined)
  }

  /** addItem: one default item more at the end. */
  function AddItem(items: seq<Item>): (r: seq<Item>)
    ensures |r| == |items| + 1
    ensures r[..|items|] == items && r[|items|] == DefaultItem()
  {
    items + [DefaultItem()]
  }

  /** On this page a material option's value is its name. */
  function Named(value: Value): MaterialDoc -> bool {
    (m: MaterialDoc) => m.name == value
  }

  /** The item handleItemChange leaves at the edited position: the field
      takes the value; turning isShared on or off blanks the name, the unit
      cost and the material reference; naming a shared item after a loaded
      material copies that material's cost and id. */
  function UpdatedItem(mats: seq<MaterialDoc>, item: Item, field: Field, value: Value): Item {
    var it := WithField(item, field, value);
    if field == IsShared then it.(name := Str(""), unitCost := Str(""), materialRef := Null)
    else if field == Name && Truthy(it.isShared) then
      match FindFirst(mats, Named(value))
      case None => it
      case Some(j) => it.(unitCost := mats[j].unitCost, materialRef := Str(mats[j].id))
    else it
  }

  /** handleItemChange: copies the list and assigns the fields of the copied
      entry one after another. */
  method HandleItemChange(mats: seq<MaterialDoc>, items: seq<Item>, index: int, field: Field, value: Value) returns (r: seq<Item>)
    requires 0 <= index < |items|
    ensures r == items[index := UpdatedItem(mats, items[index], field, value)]
  {
    var a := new Item[|items|];
    forall i | 0 <= i < |items| {
      a[i] := items[i];
    }
    a[index] := WithField(a[index], field, value);
    if field == IsShared {
      a[index] := a[index].(name := Str(""));
      a[index] := a[index].(unitCost := Str(""));
      a[index] := a[index].(materialRef := Null);
    } else if field == Name && Truthy(a[index].isShared) {
      var found := FindFirst(mats, Named(value));
      if found.Some? {
        var m := mats[found.value];
        a[index] := a[index].(unitCost := m.unitCost);
        a[index] := a[index].(materialRef := Str(m.id));
      }
    }
    r := a[..];
  }

  /** Turning isShared on or off clears the name, unit cost and reference. */
  lemma ToggleShared(mats: seq<MaterialDoc>, item: Item, value: Value)
    ensures var r := UpdatedItem(mats, item, IsShared, value);
      && r.isShared == value && r.name == Str("") && r.unitCost == Str("") && r.materialRef == Null
      && r.quantity == item.quantity && r.isTaxed == item.isTaxed
  {
  }

  /** Naming a shared item after a loaded material copies the first such
      material's cost and id; for any other name only the name changes. */
  lemma NameSharedItem(mats: seq<MaterialDoc>, item: Item, value: Value)
    requires Truthy(item.isShared)
    ensures var r := UpdatedItem(mats, item, Name, value);
      && r.name == value && r.isShared == item.isShared && r.quantity == item.quantity && r.isTaxed == item.isTaxed
      && ((exists j :: 0 <= j < |mats| && mats[j].name == value) ==>
            exists j :: 0 <= j < |mats| && mats[j].name == value
              && r.unitCost == mats[j].unitCost && r.materialRef == Str(mats[j].id))
      && ((forall j :: 0 <= j < |mats| ==> mats[j].name != value) ==>
            r == item.(name := value))
  {
    var found := FindFirst(mats, Named(value));
    if found.Some? {
      assert Named(value)(mats[found.value]);
    } else {
      forall j | 0 <= j < |mats| ensures mats[j].name != value {
        assert !Named(value)(mats[j]);
      }
    }
  }

  /** Every other edit only stores the value. */
  lemma PlainEdit(mats: seq<MaterialDoc>, item: Item, field: Field, value: Value)
    requires field != IsShared
    requires field == Name ==> !Truthy(item.isShared)
    ensures UpdatedItem(mats, item, field, value) == WithField(item, field, value)
  {
  }

  // -----------------------------------------------------------------------
  // Total

  /** totalCost: the sum of quantity times unit cost, with no tax term. */
  function TotalCost(rt: Runtime, items: seq<Item>): real {
    Sum(items, SubtotalIn(rt))
  }

  /** The tax flag plays no part in this page's total. */
  lemma TotalIgnoresTax(rt: Runtime, items: seq<Item>, i: int, taxed: Value)
    requires 0 <= i < |items|
    ensures TotalCost(rt, items[i := items[i].(isTaxed := taxed)]) == TotalCost(rt, items)
  {
    SumUpdate(items, i, items[i].(isTaxed := taxed), SubtotalIn(rt));
  }

  /** A fresh item costs nothing, so adding one leaves the total as it was. */
  lemma TotalAfterAdd(rt: Runtime, items: seq<Item>)
    requires rt.parseFloat("") == None
    ensures TotalCost(rt, AddItem(items)) == TotalCost(rt, items)
  {
    SumSnoc(items, DefaultItem(), SubtotalIn(rt));
  }

  /** Deleting an item takes exactly its subtotal off the total. */
  lemma TotalAfterDelete(rt: Runtime, items: seq<Item>, index: int)
    requires 0 <= index < |items|
    ensures TotalCost(rt, Without(items, index)) == TotalCost(rt, items) - Subtotal(rt, items[index])
  {
    SumWithout(items, index, SubtotalIn(rt));
  }

  // -----------------------------------------------------------------------
  // Saving

  /** Only items with a name and a quantity are written. */
  predicate Kept(item: Item) {
    Truthy(item.name) && Truthy(item.quantity)
  }

  /** One entry of processedItems in handleSubmit: the name as it is, the
      quantity as a number, for a shared item a reference to its material
      as unit cost, and no tax flag. */
  function SaveItem(rt: Runtime, item: Item): (s: SavedItem)
    ensures s.name == item.name && s.quantity == NumOr0(rt, item.quantity) && s.isShared == item.isShared
    ensures s.isTaxed == None
  {
    SavedItem(
      item.name,
      NumOr0(rt, item.quantity),
      item.isShared,
      if Truthy(item.isShared) then Ref(MaterialPath(rt, item.materialRef)) else Num(NumOr0(rt, item.unitCost)),
      None)
  }

  function SaveItemIn(rt: Runtime): Item -> SavedItem {
    item => SaveItem(rt, item)
  }

  /** The items written on submit. */
  function ProcessedItems(rt: Runtime, items: seq<Item>): seq<SavedItem> {
    Map(Filter(items, Kept), SaveItemIn(rt))
  }

  /** Exactly the items with a name and a quantity are written, none of them
      with a tax flag; ProcessedItemsSnoc states their order. */
  lemma {:induction false} ProcessedItemsSpec(rt: Runtime, items: seq<Item>)
    ensures |ProcessedItems(rt, items)| == Count(items, Kept)
    ensures forall s :: s in ProcessedItems(rt, items) ==> s.isTaxed == None && Truthy(s.name)
    ensures forall i :: 0 <= i < |items| && Kept(items[i]) ==> SaveItem(rt, items[i]) in ProcessedItems(rt, items)
  {
    var kept := Filter(items, Kept);
    forall s | s in ProcessedItems(rt, items) ensures s.isTaxed == None && Truthy(s.name) {
      var k :| 0 <= k < |kept| && ProcessedItems(rt, items)[k] == s;
      assert Kept(kept[k]);
    }
    forall i | 0 <= i < |items| && Kept(items[i]) ensures SaveItem(rt, items[i]) in ProcessedItems(rt, items) {
      var k :| 0 <= k < |kept| && kept[k] == items[i];
      assert ProcessedItems(rt, items)[k] == SaveItem(rt, items[i]);
    }
  }

  /** The items written keep the editor's order: none for no items, and one
      more item adds its saved form at the end exactly when it is kept. */
  lemma ProcessedItemsSnoc(rt: Runtime, items: seq<Item>, x: Item)
    ensures ProcessedItems(rt, []) == []
    ensures ProcessedItems(rt, items + [x]) == ProcessedItems(rt, items) + (if Kept(x) then [SaveItem(rt, x)] else [])
  {
    FilterConcat(items, [x], Kept);
    FilterSingle(x, Kept);
    MapConcat(Filter(items, Kept), Filter([x], Kept), SaveItemIn(rt));
  }

  /** Read back by the pages that cost BOM tables, a saved item costs its
      subtotal without tax, because no tax flag is written: the items this
      page writes are costed untaxed from then on. */
  lemma SavedItemCost(rt: Runtime, mats: Catalog.Materials, item: Item)
    requires CostMatches(rt, mats, item)
    ensures Catalog.LineCost(rt, mats, AsStored(SaveItem(rt, item))) == Subtotal(rt, item)
  {
    StoredSubtotal(rt, mats, item, SaveItem(rt, item));
  }

  /** The stored table costs the page's total over the items it keeps. */
  lemma SavedTableCost(rt: Runtime, mats: Catalog.Materials, items: seq<Item>)
    requires forall i :: 0 <= i < |items| ==> CostMatches(rt, mats, items[i])
    ensures Catalog.BomCost(rt, mats, Map(ProcessedItems(rt, items), AsStored)) == TotalCost(rt, Filter(items, Kept))
  {
    var kept := Filter(items, Kept);
    forall i | 0 <= i < |kept| ensures CostMatches(rt, mats, kept[i]) {
      var j :| 0 <= j < |items| && items[j] == kept[i];
    }
    SavedKeptCost(rt, mats, kept);
  }

  /** Saving items whose costs match and reading them back keeps their total. */
  lemma {:induction false} SavedKeptCost(rt: Runtime, mats: Catalog.Materials, kept: seq<Item>)
    requires forall i :: 0 <= i < |kept| ==> CostMatches(rt, mats, kept[i])
    ensures Catalog.BomCost(rt, mats, Map(Map(kept, SaveItemIn(rt)), AsStored)) == TotalCost(rt, kept)
  {
    if kept != [] {
      var init := kept[..|kept| - 1];
      var x := kept[|kept| - 1];
      assert forall i :: 0 <= i < |init| ==> init[i] == kept[i];
      SavedKeptCost(rt, mats, init);
      SavedKeptStep(rt, mats, kept);
    }
  }

  lemma SavedKeptStep(rt: Runtime, mats: Catalog.Materials, kept: seq<Item>)
    requires kept != [] && CostMatches(rt, mats, kept[|kept| - 1])
    requires Catalog.BomCost(rt, mats, Map(Map(kept[..|kept| - 1], SaveItemIn(rt)), AsStored)) == TotalCost(rt, kept[..|kept| - 1])
    ensures Catalog.BomCost(rt, mats, Map(Map(kept, SaveItemIn(rt)), AsStored)) == TotalCost(rt, kept)
  {
    var n := |kept| - 1;
    var x := kept[n];
    var p := Map(kept[..n], SaveItemIn(rt));
    assert kept[..n + 1] == kept;
    MapPrefix(kept, n, SaveItemIn(rt));
    SavedItemCost(rt, mats, x);
    MapSnoc(p, SaveItem(rt, x), AsStored);
    SumSnoc(Map(p, AsStored), AsStored(SaveItem(rt, x)), Catalog.LineCostIn(rt, mats));
  }
}
