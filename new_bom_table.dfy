/** The editor of a new BOM table: the list of line items with its add,
    update and delete operations, the running total with the 5% tax on taxed
    lines, and the form in which the items are written to the new document. */
module NewBomTable {
  import opened Js
  import opened Seqs
  import opened BomItems
  import Catalog

  /** The item the page starts with and appends on "add". */
  function DefaultItem(): Item {
    Item(Str(""), Str(""), Str(""), Bool(false), Null, Bool(false))
  }

  /** addItem: one default item more at the end. */
  function AddItem(items: seq<Item>): (r: seq<Item>)
    ensures |r| == |items| + 1
    ensures r[..|items|] == items && r[|items|] == DefaultItem()
  {
    items + [DefaultItem()]
  }

  /** A material is picked by its document id. */
  function RefersTo(value: Value): MaterialDoc -> bool {
    (m: MaterialDoc) => Str(m.id) == value
  }

  /** The item updateItem leaves at the edited position: the field takes
      the value; turning isShared on or off also blanks the name, the unit
      cost and the material reference; picking the material of a shared item
      copies the material's name, cost and id when it is among the loaded
      ones. */
  function UpdatedItem(mats: seq<MaterialDoc>, item: Item, field: Field, value: Value): Item {
    var it := WithField(item, field, value);
    if field == IsShared then it.(name := Str(""), unitCost := Str(""), materialRef := Null)
    else if field == MaterialRef && Truthy(it.isShared) then
      match FindFirst(mats, RefersTo(value))
      case None => it
      case Some(j) => it.(name := mats[j].name, unitCost := mats[j].unitCost, materialRef := Str(mats[j].id))
    else it
  }

  /** updateItem. The page copies the list and then assigns the fields of the
      copied entry one after another. Indexing past the list would throw, so
      the index must be in range. */
  method UpdateItem(mats: seq<MaterialDoc>, items: seq<Item>, index: int, field: Field, value: Value) returns (r: seq<Item>)
    requires 0 <= index < |items|
    ensures r == items[index := UpdatedItem(mats, items[index], field, value)]
  {
    var a := new Item[|items|];
    forall i | 0 <= i < |items| {
      a[i] := items[i];
    }
    a[index] := WithField(a[index], field, value);
    if field == IsShared {
      a[index] := a[index].(name := Str(""));
      a[index] := a[index].(unitCost := Str(""));
      a[index] := a[index].(materialRef := Null);
    } else if field == MaterialRef && Truthy(a[index].isShared) {
      var found := FindFirst(mats, RefersTo(value));
      if found.Some? {
        var m := mats[found.value];
        a[index] := a[index].(name := m.name);
        a[index] := a[index].(unitCost := m.unitCost);
        a[index] := a[index].(materialRef := Str(m.id));
      }
    }
    r := a[..];
  }

  /** Turning isShared on or off stores the flag, clears the name, unit cost
      and material reference, and keeps the quantity and tax flag. */
  lemma ToggleShared(mats: seq<MaterialDoc>, item: Item, value: Value)
    ensures var r := UpdatedItem(mats, item, IsShared, value);
      && r.isShared == value && r.name == Str("") && r.unitCost == Str("") && r.materialRef == Null
      && r.quantity == item.quantity && r.isTaxed == item.isTaxed
  {
  }

  /** Picking the material of a shared item copies the first loaded material
      with that id; when none has it, only the reference changes. */
  lemma PickMaterial(mats: seq<MaterialDoc>, item: Item, value: Value)
    requires Truthy(item.isShared)
    ensures var r := UpdatedItem(mats, item, MaterialRef, value);
      && r.isShared == item.isShared && r.quantity == item.quantity && r.isTaxed == item.isTaxed
      && ((exists j :: 0 <= j < |mats| && Str(mats[j].id) == value) ==>
            exists j :: 0 <= j < |mats| && Str(mats[j].id) == value
              && r.name == mats[j].name && r.unitCost == mats[j].unitCost && r.materialRef == value)
      && ((forall j :: 0 <= j < |mats| ==> Str(mats[j].id) != value) ==>
            r == item.(materialRef := value))
  {
    var found := FindFirst(mats, RefersTo(value));
    if found.Some? {
      assert RefersTo(value)(mats[found.value]);
    } else {
      forall j | 0 <= j < |mats| ensures Str(mats[j].id) != value {
        assert !RefersTo(value)(mats[j]);
      }
    }
  }

  /** Every other edit only stores the value; so does picking a material for
      an item that is not shared. */
  lemma PlainEdit(mats: seq<MaterialDoc>, item: Item, field: Field, value: Value)
    requires field != IsShared
    requires field == MaterialRef ==> !Truthy(item.isShared)
    ensures UpdatedItem(mats, item, field, value) == WithField(item, field, value)
  {
  }

  // -----------------------------------------------------------------------
  // Total

  predicate IsTaxedItem(item: Item) { Truthy(item.isTaxed) }

  /** One step of calculateTotalCost: the subtotal plus 5% of it when taxed. */
  function ItemCost(rt: Runtime, item: Item): real {
    var subtotal := Subtotal(rt, item);
    subtotal + (if Truthy(item.isTaxed) then subtotal * 0.05 else 0.0)
  }

  function ItemCostIn(rt: Runtime): Item -> real {
    item => ItemCost(rt, item)
  }

  /** calculateTotalCost, before toFixed(2). */
  function CalculateTotalCost(rt: Runtime, items: seq<Item>): real {
    Sum(items, ItemCostIn(rt))
  }

  /** The total is the sum of all subtotals plus 5% of the taxed ones. */
  lemma {:induction false} TotalCostSplit(rt: Runtime, items: seq<Item>)
    ensures CalculateTotalCost(rt, items)
      == Sum(items, SubtotalIn(rt)) + 0.05 * Sum(Filter(items, IsTaxedItem), SubtotalIn(rt))
  {
    if items != [] {
      var init := items[..|items| - 1];
      var x := items[|items| - 1];
      TotalCostSplit(rt, init);
      var taxed := Filter(init, IsTaxedItem);
      assert Filter(items, IsTaxedItem) == taxed + (if IsTaxedItem(x) then [x] else []);
      assert CalculateTotalCost(rt, items) == CalculateTotalCost(rt, init) + ItemCost(rt, x);
      assert Sum(items, SubtotalIn(rt)) == Sum(init, SubtotalIn(rt)) + Subtotal(rt, x);
      if IsTaxedItem(x) {
        SumSnoc(taxed, x, SubtotalIn(rt));
      } else {
        assert taxed + [] == taxed;
      }
    }
  }

  /** A fresh item costs nothing, so adding one leaves the total as it was. */
  lemma TotalAfterAdd(rt: Runtime, items: seq<Item>)
    requires rt.parseFloat("") == None
    ensures CalculateTotalCost(rt, AddItem(items)) == CalculateTotalCost(rt, items)
  {
    SumSnoc(items, DefaultItem(), ItemCostIn(rt));
  }

  /** Deleting an item takes exactly its cost off the total. */
  lemma TotalAfterDelete(rt: Runtime, items: seq<Item>, index: int)
    requires 0 <= index < |items|
    ensures CalculateTotalCost(rt, Without(items, index)) == CalculateTotalCost(rt, items) - ItemCost(rt, items[index])
  {
    SumWithout(items, index, ItemCostIn(rt));
  }

  // -----------------------------------------------------------------------
  // Saving

  /** One entry of processedItems in onSubmit: a shared item stores the
      material's document reference as both name and unit cost; any other
      item stores its name and its unit cost read as a number (0 when
      unreadable). */
  function SaveItem(rt: Runtime, item: Item): (s: SavedItem)
    ensures s.quantity == NumOr0(rt, item.quantity) && s.isShared == item.isShared
    ensures s.isTaxed == Some(item.isTaxed)
  {
    var ref := Ref(MaterialPath(rt, item.materialRef));
    SavedItem(
      if Truthy(item.isShared) then ref else item.name,
      NumOr0(rt, item.quantity),
      item.isShared,
      if Truthy(item.isShared) then ref else Num(NumOr0(rt, item.unitCost)),
      Some(item.isTaxed))
  }

  function SaveItemIn(rt: Runtime): Item -> SavedItem {
    item => SaveItem(rt, item)
  }

  function ProcessedItems(rt: Runtime, items: seq<Item>): seq<SavedItem> {
    Map(items, SaveItemIn(rt))
  }

  /** Saving writes one entry per item, in order; a shared one refers to its
      material document for both its name and its cost. */
  lemma ProcessedItemsSpec(rt: Runtime, items: seq<Item>)
    ensures |ProcessedItems(rt, items)| == |items|
    ensures forall i :: 0 <= i < |items| && Truthy(items[i].isShared) ==>
      ProcessedItems(rt, items)[i].name == ProcessedItems(rt, items)[i].unitCost == Ref(MaterialPath(rt, items[i].materialRef))
    ensures forall i :: 0 <= i < |items| && !Truthy(items[i].isShared) ==>
      ProcessedItems(rt, items)[i].name == items[i].name && ProcessedItems(rt, items)[i].unitCost == Num(NumOr0(rt, items[i].unitCost))
  {
  }

  /** Read back by the pages that cost BOM tables, a saved item costs what
      the editor showed for it, when its material document agrees with the
      unit cost the editor copied. */
  lemma SavedItemCost(rt: Runtime, mats: Catalog.Materials, item: Item)
    requires CostMatches(rt, mats, item)
    ensures Catalog.LineCost(rt, mats, AsStored(SaveItem(rt, item))) == ItemCost(rt, item)
  {
    StoredSubtotal(rt, mats, item, SaveItem(rt, item));
  }

  /** So the stored table costs exactly the total the editor showed. */
  lemma {:induction false} SavedTableCost(rt: Runtime, mats: Catalog.Materials, items: seq<Item>)
    requires forall i :: 0 <= i < |items| ==> CostMatches(rt, mats, items[i])
    ensures Catalog.BomCost(rt, mats, Map(ProcessedItems(rt, items), AsStored)) == CalculateTotalCost(rt, items)
  {
    if items != [] {
      var init := items[..|items| - 1];
      var x := items[|items| - 1];
      SavedTableCost(rt, mats, init);
      SavedItemCost(rt, mats, x);
      var lines := Map(ProcessedItems(rt, items), AsStored);
      assert lines[..|lines| - 1] == Map(ProcessedItems(rt, init), AsStored);
    }
  }

  /** Picking a loaded material for a shared item leaves the item agreeing
      with that material's document. */
  lemma PickedMaterialMatches(rt: Runtime, mats: Catalog.Materials, docs: seq<MaterialDoc>, item: Item, j: nat)
    requires Truthy(item.isShared) && j < |docs|
    requires forall k :: 0 <= k < j ==> docs[k].id != docs[j].id
    requires "shared_materials/" + docs[j].id in mats && mats["shared_materials/" + docs[j].id] == docs[j].unitCost
    ensures CostMatches(rt, mats, UpdatedItem(docs, item, MaterialRef, Str(docs[j].id)))
  {
    var found := FindFirst(docs, RefersTo(Str(docs[j].id)));
    assert RefersTo(Str(docs[j].id))(docs[j]);
    assert found == Some(j);
  }
}
