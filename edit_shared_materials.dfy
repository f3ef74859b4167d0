/** The editor of a shared material: the unit cost derived from the
    purchase cost and the number of product units it yields, the check made
    before saving, and the two records a save writes (the updated material
    and its history entry). The signed-in user and the clock are
    parameters. */
module EditSharedMaterials {
  import opened Js
  import Catalog

  /** The form: name, purchase cost, product units, and the derived unit
      cost, which the form does not let the user type. */
  datatype Material = Material(name: Value, purchaseUnitCost: Value, productUnit: Value, unitCost: Value)

  datatype InputField = Name | PurchaseUnitCost | ProductUnit

  // -----------------------------------------------------------------------
  // The derived unit cost

  /** The unit cost the page derives: blank unless both inputs are set;
      otherwise their quotient as toFixed(2) shows it, blank when it is NaN
      (an input that does not parse, or 0 / 0) and "Infinity" for a nonzero
      cost over zero units. */
  function DerivedUnitCost(rt: Runtime, m: Material): Value {
    if !(Truthy(m.purchaseUnitCost) && Truthy(m.productUnit)) then Str("")
    else
      match (ParseFloat(rt, m.purchaseUnitCost), ParseFloat(rt, m.productUnit))
      case (Some(cost), Some(units)) =>
        if units != 0.0 then Fixed(cost / units)
        else if cost == 0.0 then Str("")
        else FixedNonFinite
      case _ => Str("")
  }

  /** The effect on the two inputs. */
  function Derive(rt: Runtime, m: Material): (r: Material)
    ensures r.unitCost == DerivedUnitCost(rt, m)
    ensures r.(unitCost := m.unitCost) == m
  {
    m.(unitCost := DerivedUnitCost(rt, m))
  }

  /** The unit cost shown is the one derived from the inputs. */
  predicate Consistent(rt: Runtime, m: Material) {
    m.unitCost == DerivedUnitCost(rt, m)
  }

  /** The derived unit cost is blank whenever an input is blank; when it is
      a number, that number times the product units gives back the purchase
      cost. */
  lemma DerivedUnitCostSpec(rt: Runtime, m: Material)
    ensures !Truthy(m.purchaseUnitCost) || !Truthy(m.productUnit) ==> DerivedUnitCost(rt, m) == Str("")
    ensures DerivedUnitCost(rt, m).Fixed? ==>
      && ParseFloat(rt, m.purchaseUnitCost).Some? && ParseFloat(rt, m.productUnit).Some?
      && ParseFloat(rt, m.productUnit).value != 0.0
      && DerivedUnitCost(rt, m).x * ParseFloat(rt, m.productUnit).value == ParseFloat(rt, m.purchaseUnitCost).value
    ensures DerivedUnitCost(rt, m) == FixedNonFinite ==> ParseFloat(rt, m.productUnit) == Some(0.0)
  {
    var u := DerivedUnitCost(rt, m);
    if u.Fixed? {
      var cost := ParseFloat(rt, m.purchaseUnitCost).value;
      var units := ParseFloat(rt, m.productUnit).value;
      assert u.x == cost / units;
    }
  }

  /** Deriving again changes nothing, so the effect settles after one run. */
  lemma DeriveIdempotent(rt: Runtime, m: Material)
    ensures Derive(rt, Derive(rt, m)) == Derive(rt, m)
    ensures Consistent(rt, Derive(rt, m))
  {
  }

  /** updateMaterial, followed by the effect when one of its two inputs
      changed. */
  function Edit(rt: Runtime, m: Material, field: InputField, value: Value): Material {
    match field
    case Name => m.(name := value)
    case PurchaseUnitCost => Derive(rt, m.(purchaseUnitCost := value))
    case ProductUnit => Derive(rt, m.(productUnit := value))
  }

  /** Every edit keeps the shown unit cost derived from the inputs. */
  lemma EditKeepsConsistent(rt: Runtime, m: Material, field: InputField, value: Value)
    requires Consistent(rt, m)
    ensures Consistent(rt, Edit(rt, m, field, value))
  {
  }

  // -----------------------------------------------------------------------
  // Saving

  datatype User = User(uid: Value, email: Value)

  datatype UpdatedBy = UpdatedBy(displayName: Value, uid: Value, email: Value)

  /** The updated material document; None stands for NaN. */
  datatype UpdatedMaterial = UpdatedMaterial(
    name: Value, purchaseUnitCost: Option<real>, productUnit: Option<real>, unitCost: Option<real>,
    updatedAt: int, updatedBy: UpdatedBy, lastUpdated: int)

  /** The history entry written beside it. */
  datatype HistoryEntry = HistoryEntry(
    originalId: string, updated: UpdatedMaterial,
    previousPurchaseUnitCost: Value, previousProductUnit: Value, previousUnitCost: Value,
    changeType: string)

  datatype SubmitOutcome = SignInRequired | FieldsRequired | Saved(material: UpdatedMaterial, history: HistoryEntry)

  /** onSubmit, with `now` the timestamp taken once for the save and
      `original` the document as it was loaded. */
  function Submit(rt: Runtime, user: Option<User>, id: string, m: Material, original: Material, now: int): SubmitOutcome {
    if user.None? then SignInRequired
    else if !Truthy(m.name) || !Truthy(m.purchaseUnitCost) || !Truthy(m.productUnit) then FieldsRequired
    else
      var author := UpdatedBy(Catalog.OrElse(user.value.email, Str("管理員")), user.value.uid, user.value.email);
      var updated := UpdatedMaterial(
        m.name, ParseFloat(rt, m.purchaseUnitCost), ParseFloat(rt, m.productUnit), ParseFloat(rt, m.unitCost),
        now, author, now);
      Saved(updated, HistoryEntry(id, updated, original.purchaseUnitCost, original.productUnit, original.unitCost, "update"))
  }

  /** A save needs a signed-in user and the three inputs; it stamps both
      update times with the same instant, and its history entry points at
      the material, repeats the new values and keeps the loaded ones. */
  lemma SubmitSpec(rt: Runtime, user: Option<User>, id: string, m: Material, original: Material, now: int)
    ensures var r := Submit(rt, user, id, m, original, now);
      && (r.Saved? <==> user.Some? && Truthy(m.name) && Truthy(m.purchaseUnitCost) && Truthy(m.productUnit))
      && (user.None? ==> r == SignInRequired)
      && (r.Saved? ==>
            && r.material.updatedAt == r.material.lastUpdated == now
            && r.material.name == m.name
            && r.material.purchaseUnitCost == ParseFloat(rt, m.purchaseUnitCost)
            && r.material.productUnit == ParseFloat(rt, m.productUnit)
            && r.history.originalId == id && r.history.updated == r.material
            && r.history.previousPurchaseUnitCost == original.purchaseUnitCost
            && r.history.previousProductUnit == original.productUnit
            && r.history.previousUnitCost == original.unitCost
            && r.history.changeType == "update"
            && (Truthy(user.value.email) ==> r.material.updatedBy.displayName == user.value.email)
            && (!Truthy(user.value.email) ==> r.material.updatedBy.displayName == Str("管理員")))
  {
  }

  /** For a form whose unit cost is derived, a saved material's unit cost
      times its product units is its purchase cost, whenever the derived
      unit cost was a number. */
  lemma SavedUnitCostAgrees(rt: Runtime, user: Option<User>, id: string, m: Material, original: Material, now: int)
    requires Consistent(rt, m) && m.unitCost.Fixed?
    requires Submit(rt, user, id, m, original, now).Saved?
    ensures var u := Submit(rt, user, id, m, original, now).material;
      && u.unitCost.Some? && u.purchaseUnitCost.Some? && u.productUnit.Some?
      && u.unitCost.value * u.productUnit.value == u.purchaseUnitCost.value
  {
    DerivedUnitCostSpec(rt, m);
  }
}
