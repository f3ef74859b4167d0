/** The line items both BOM editors (the new-table page and the edit page)
    hold in their state, the shared-material documents they pick from, and
    the form in which an item is written to a BOM document. */
module BomItems {
  import opened Js
  import opened Seqs
  import Catalog

  /** An item as an editor holds it. Every field holds whatever the form put
      there: strings typed by the user, a boolean from a checkbox, a copied
      material name or cost, or the value loaded from the database. */
  datatype Item = Item(name: Value, quantity: Value, unitCost: Value, isShared: Value, materialRef: Value, isTaxed: Value)

  /** The field names an editor writes through `item[field] = value`. */
  datatype Field = Name | Quantity | UnitCost | IsShared | MaterialRef | IsTaxed

  function Get(item: Item, field: Field): Value {
    match field
    case Name => item.name
    case Quantity => item.quantity
    case UnitCost => item.unitCost
    case IsShared => item.isShared
    case MaterialRef => item.materialRef
    case IsTaxed => item.isTaxed
  }

  /** `item[field] = value`: that field takes the value, the others keep theirs. */
  function WithField(item: Item, field: Field, value: Value): (r: Item)
    ensures Get(r, field) == value
    ensures forall f :: f != field ==> Get(r, f) == Get(item, f)
  {
    match field
    case Name => item.(name := value)
    case Quantity => item.(quantity := value)
    case UnitCost => item.(unitCost := value)
    case IsShared => item.(isShared := value)
    case MaterialRef => item.(materialRef := value)
    case IsTaxed => item.(isTaxed := value)
  }

  /** A shared-material document as the editors load it. */
  datatype MaterialDoc = MaterialDoc(id: string, name: Value, unitCost: Value)

  /** `(parseFloat(item.quantity) || 0) * (parseFloat(item.unitCost) || 0)`. */
  function Subtotal(rt: Runtime, item: Item): real {
    NumOr0(rt, item.quantity) * NumOr0(rt, item.unitCost)
  }

  function SubtotalIn(rt: Runtime): Item -> real {
    item => Subtotal(rt, item)
  }

  /** An item as written to a BOM document. The edit page does not write
      isTaxed at all, which is None here. */
  datatype SavedItem = SavedItem(name: Value, quantity: real, isShared: Value, unitCost: Value, isTaxed: Option<Value>)

  /** The document path `shared_materials/${materialRef}`. */
  function MaterialPath(rt: Runtime, materialRef: Value): string {
    "shared_materials/" + PropertyKey(rt, materialRef)
  }

  /** A saved item read back as a line by the pages that cost BOM tables;
      a missing isTaxed reads as undefined. */
  function AsStored(s: SavedItem): (line: Catalog.StoredLine)
    ensures line.isShared == s.isShared && line.unitCost == s.unitCost
    ensures line.quantity == Num(s.quantity)
    ensures line.isTaxed == (if s.isTaxed.Some? then s.isTaxed.value else Undefined)
  {
    Catalog.StoredLine(s.isShared, s.unitCost, Num(s.quantity), if s.isTaxed.Some? then s.isTaxed.value else Undefined)
  }

  /** The material documents, keyed by path, agree with the unit cost an
      editor copied into this item. */
  predicate CostMatches(rt: Runtime, mats: Catalog.Materials, item: Item) {
    Truthy(item.isShared) ==>
      MaterialPath(rt, item.materialRef) in mats && mats[MaterialPath(rt, item.materialRef)] == item.unitCost
  }

  /** The stored form of a non-shared item reads back with the quantity and
      unit cost the editor used; that of a shared item reads its unit cost
      through the material reference, which gives the editor's unit cost
      when the material document agrees with it. */
  lemma {:induction false} StoredSubtotal(rt: Runtime, mats: Catalog.Materials, item: Item, s: SavedItem)
    requires CostMatches(rt, mats, item)
    requires s.quantity == NumOr0(rt, item.quantity) && s.isShared == item.isShared
    requires Truthy(item.isShared) ==> s.unitCost == Ref(MaterialPath(rt, item.materialRef))
    requires !Truthy(item.isShared) ==> s.unitCost == Num(NumOr0(rt, item.unitCost))
    ensures NumOr0(rt, AsStored(s).quantity) * Catalog.UnitCostOf(rt, mats, AsStored(s)) == Subtotal(rt, item)
  {
    var line := AsStored(s);
    assert NumOr0(rt, line.quantity) == NumOr0(rt, item.quantity);
    if Truthy(item.isShared) {
      assert Catalog.UnitCostOf(rt, mats, line) == NumOr0(rt, mats[MaterialPath(rt, item.materialRef)]);
    } else {
      assert Catalog.UnitCostOf(rt, mats, line) == NumOr0(rt, Num(NumOr0(rt, item.unitCost)));
    }
  }
}
