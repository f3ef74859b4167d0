/** The order cost-rate calculator: the cost of serving an average order
    (the VAT in the average order value plus the other costs net of their
    VAT), its ratio to the average order value, the tax switches, the list
    of other costs and the check made before a calculation is saved. */
module OrderCostRate {
  import opened Js
  import opened Seqs

  /** The four fixed inputs that carry a tax switch. */
  datatype TaxField = AverageOrderValue | WarehouseLogistics | CardboardBox | CreditCardFee

  datatype TaxInclusions = TaxInclusions(averageOrderValue: bool, warehouseLogistics: bool, cardboardBox: bool, creditCardFee: bool)

  /** An entry of the other-costs list. */
  datatype OtherCost = OtherCost(name: Value, amount: Value, includeTax: Value)

  datatype CostField = CostName | CostAmount | IncludeTax

  /** The calculation form. */
  datatype Form = Form(
    name: string, note: Value,
    averageOrderValue: Value, warehouseLogistics: Value, cardboardBox: Value, creditCardFee: Value,
    otherCosts: seq<OtherCost>, taxInclusions: TaxInclusions)

  /** The form the page starts with and returns to after a save. */
  function DefaultForm(): Form {
    Form("", Str(""), Str(""), Str(""), Str(""), Str(""), [], TaxInclusions(true, false, false, false))
  }

  // -----------------------------------------------------------------------
  // Tax switches

  function Included(t: TaxInclusions, field: TaxField): bool {
    match field
    case AverageOrderValue => t.averageOrderValue
    case WarehouseLogistics => t.warehouseLogistics
    case CardboardBox => t.cardboardBox
    case CreditCardFee => t.creditCardFee
  }

  /** handleTaxChange: flips the switch of one field. */
  function HandleTaxChange(t: TaxInclusions, field: TaxField): (r: TaxInclusions)
    ensures Included(r, field) == !Included(t, field)
    ensures forall g :: g != field ==> Included(r, g) == Included(t, g)
  {
    match field
    case AverageOrderValue => t.(averageOrderValue := !t.averageOrderValue)
    case WarehouseLogistics => t.(warehouseLogistics := !t.warehouseLogistics)
    case CardboardBox => t.(cardboardBox := !t.cardboardBox)
    case CreditCardFee => t.(creditCardFee := !t.creditCardFee)
  }

  /** Flipping a switch twice restores it. */
  lemma TaxChangeTwice(t: TaxInclusions, field: TaxField)
    ensures HandleTaxChange(HandleTaxChange(t, field), field) == t
  {
  }

  // -----------------------------------------------------------------------
  // Totals

  function Amount(rt: Runtime, c: OtherCost): real {
    NumOr0(rt, c.amount)
  }

  function AmountIn(rt: Runtime): OtherCost -> real {
    c => Amount(rt, c)
  }

  predicate Taxed(c: OtherCost) {
    Truthy(c.includeTax)
  }

  /** The reduce over the other costs, which carries the running total and
      the running tax together. */
  function OtherTotals(rt: Runtime, costs: seq<OtherCost>): (real, real) {
    if costs == [] then (0.0, 0.0)
    else
      var acc := OtherTotals(rt, costs[..|costs| - 1]);
      var c := costs[|costs| - 1];
      var amount := Amount(rt, c);
      (acc.0 + amount, acc.1 + (if Truthy(c.includeTax) then amount * 0.05 else 0.0))
  }

  /** The running total is the sum of the amounts and the running tax is 5%
      of the amounts whose switch is on. */
  lemma {:induction false} OtherTotalsSpec(rt: Runtime, costs: seq<OtherCost>)
    ensures OtherTotals(rt, costs).0 == Sum(costs, AmountIn(rt))
    ensures OtherTotals(rt, costs).1 == 0.05 * Sum(Filter(costs, Taxed), AmountIn(rt))
  {
    if costs != [] {
      var init := costs[..|costs| - 1];
      var c := costs[|costs| - 1];
      OtherTotalsSpec(rt, init);
      assert Filter(costs, Taxed) == Filter(init, Taxed) + (if Taxed(c) then [c] else []);
      if Taxed(c) {
        SumSnoc(Filter(init, Taxed), c, AmountIn(rt));
      } else {
        assert Filter(init, Taxed) + [] == Filter(init, Taxed);
      }
    }
  }

  /** The taxes the page reports. */
  datatype Taxes = Taxes(warehouseLogistics: real, cardboardBox: real, creditCardFee: real, averageOrderValue: real)

  datatype Totals = Totals(totalCost: real, costRate: real, taxes: Taxes)

  /** 5% of a value when its switch is on. */
  function TaxOf(on: bool, x: real): real {
    if on then x * 0.05 else 0.0
  }

  /** calculateTotals, before toFixed(2). */
  function CalculateTotals(rt: Runtime, f: Form): Totals {
    var averageOrderValue := NumOr0(rt, f.averageOrderValue);
    var warehouseLogistics := NumOr0(rt, f.warehouseLogistics);
    var cardboardBox := NumOr0(rt, f.cardboardBox);
    var creditCardFee := NumOr0(rt, f.creditCardFee);
    var avgOrderTax := TaxOf(f.taxInclusions.averageOrderValue, averageOrderValue);
    var taxes := Taxes(
      TaxOf(f.taxInclusions.warehouseLogistics, warehouseLogistics),
      TaxOf(f.taxInclusions.cardboardBox, cardboardBox),
      TaxOf(f.taxInclusions.creditCardFee, creditCardFee),
      avgOrderTax);
    var other := OtherTotals(rt, f.otherCosts);
    var otherCosts := warehouseLogistics + cardboardBox + creditCardFee + other.0;
    var totalOtherTaxes := taxes.warehouseLogistics + taxes.cardboardBox + taxes.creditCardFee + other.1;
    var totalCost := avgOrderTax + otherCosts - totalOtherTaxes;
    Totals(totalCost, if averageOrderValue != 0.0 then (totalCost / averageOrderValue) * 100.0 else 0.0, taxes)
  }

  /** A cost net of its VAT: 95% of it when its switch is on. */
  function Net(on: bool, x: real): real {
    if on then 0.95 * x else x
  }

  function NetIn(rt: Runtime): OtherCost -> real {
    c => Net(Taxed(c), Amount(rt, c))
  }

  lemma {:induction false} NetSum(rt: Runtime, costs: seq<OtherCost>)
    ensures Sum(costs, NetIn(rt)) == Sum(costs, AmountIn(rt)) - 0.05 * Sum(Filter(costs, Taxed), AmountIn(rt))
  {
    if costs != [] {
      var init := costs[..|costs| - 1];
      var c := costs[|costs| - 1];
      NetSum(rt, init);
      assert Filter(costs, Taxed) == Filter(init, Taxed) + (if Taxed(c) then [c] else []);
      if Taxed(c) {
        SumSnoc(Filter(init, Taxed), c, AmountIn(rt));
      } else {
        assert Filter(init, Taxed) + [] == Filter(init, Taxed);
      }
    }
  }

  /** The total cost is the VAT contained in the average order value plus
      every other cost taken net of its VAT where its switch is on. */
  lemma TotalCostSpec(rt: Runtime, f: Form)
    ensures CalculateTotals(rt, f).totalCost
      == TaxOf(f.taxInclusions.averageOrderValue, NumOr0(rt, f.averageOrderValue))
        + Net(f.taxInclusions.warehouseLogistics, NumOr0(rt, f.warehouseLogistics))
        + Net(f.taxInclusions.cardboardBox, NumOr0(rt, f.cardboardBox))
        + Net(f.taxInclusions.creditCardFee, NumOr0(rt, f.creditCardFee))
        + Sum(f.otherCosts, NetIn(rt))
  {
    OtherTotalsSpec(rt, f.otherCosts);
    NetSum(rt, f.otherCosts);
    var other := OtherTotals(rt, f.otherCosts);
    var w := NumOr0(rt, f.warehouseLogistics);
    var b := NumOr0(rt, f.cardboardBox);
    var c := NumOr0(rt, f.creditCardFee);
    assert CalculateTotals(rt, f).totalCost
      == TaxOf(f.taxInclusions.averageOrderValue, NumOr0(rt, f.averageOrderValue))
        + (w + b + c + other.0)
        - (TaxOf(f.taxInclusions.warehouseLogistics, w) + TaxOf(f.taxInclusions.cardboardBox, b)
          + TaxOf(f.taxInclusions.creditCardFee, c) + other.1);
    assert w - TaxOf(f.taxInclusions.warehouseLogistics, w) == Net(f.taxInclusions.warehouseLogistics, w);
    assert b - TaxOf(f.taxInclusions.cardboardBox, b) == Net(f.taxInclusions.cardboardBox, b);
    assert c - TaxOf(f.taxInclusions.creditCardFee, c) == Net(f.taxInclusions.creditCardFee, c);
  }

  /** The cost rate is the total cost as a percentage of the average order
      value, and 0 when there is none. */
  lemma CostRateSpec(rt: Runtime, f: Form)
    ensures var t := CalculateTotals(rt, f);
      var aov := NumOr0(rt, f.averageOrderValue);
      && (aov == 0.0 ==> t.costRate == 0.0)
      && (aov != 0.0 ==> t.costRate * aov == 100.0 * t.totalCost)
  {
    var t := CalculateTotals(rt, f);
    var aov := NumOr0(rt, f.averageOrderValue);
    if aov != 0.0 {
      var q := t.totalCost / aov;
      assert q * aov == t.totalCost;
      assert t.costRate == q * 100.0;
    }
  }

  /** Each switch decides whether its 5% is counted: the average-order tax
      is 5% of the average order value exactly when its switch is on, and
      so is each fixed cost's deducted tax. */
  lemma TaxesSpec(rt: Runtime, f: Form)
    ensures var t := CalculateTotals(rt, f).taxes;
      && (t.averageOrderValue == if f.taxInclusions.averageOrderValue then 0.05 * NumOr0(rt, f.averageOrderValue) else 0.0)
      && (t.warehouseLogistics == if f.taxInclusions.warehouseLogistics then 0.05 * NumOr0(rt, f.warehouseLogistics) else 0.0)
      && (t.cardboardBox == if f.taxInclusions.cardboardBox then 0.05 * NumOr0(rt, f.cardboardBox) else 0.0)
      && (t.creditCardFee == if f.taxInclusions.creditCardFee then 0.05 * NumOr0(rt, f.creditCardFee) else 0.0)
  {
  }

  /** The blank form costs nothing. */
  lemma DefaultTotals(rt: Runtime)
    requires rt.parseFloat("") == None
    ensures CalculateTotals(rt, DefaultForm()).totalCost == 0.0
    ensures CalculateTotals(rt, DefaultForm()).costRate == 0.0
  {
  }

  // -----------------------------------------------------------------------
  // Other costs

  function NewOtherCost(): OtherCost {
    OtherCost(Str(""), Str(""), Bool(false))
  }

  /** addOtherCost. */
  function AddOtherCost(f: Form): (r: Form)
    ensures r == f.(otherCosts := f.otherCosts + [NewOtherCost()])
  {
    f.(otherCosts := f.otherCosts + [NewOtherCost()])
  }

  /** A new entry adds nothing to the totals. */
  lemma AddOtherCostTotals(rt: Runtime, f: Form)
    requires rt.parseFloat("") == None
    ensures CalculateTotals(rt, AddOtherCost(f)) == CalculateTotals(rt, f)
  {
    var costs := f.otherCosts + [NewOtherCost()];
    assert costs[..|costs| - 1] == f.otherCosts;
  }

  /** The entry updateOtherCost leaves: the tax switch is flipped whatever
      value is passed; any other field takes the value. */
  function UpdatedCost(c: OtherCost, field: CostField, value: Value): OtherCost {
    match field
    case IncludeTax => c.(includeTax := Bool(!Truthy(c.includeTax)))
    case CostName => c.(name := value)
    case CostAmount => c.(amount := value)
  }

  /** updateOtherCost: copies the list and replaces one entry. */
  method UpdateOtherCost(costs: seq<OtherCost>, index: int, field: CostField, value: Value) returns (r: seq<OtherCost>)
    requires 0 <= index < |costs|
    ensures r == costs[index := UpdatedCost(costs[index], field, value)]
  {
    var a := new OtherCost[|costs|];
    forall i | 0 <= i < |costs| {
      a[i] := costs[i];
    }
    if field == IncludeTax {
      a[index] := a[index].(includeTax := Bool(!Truthy(a[index].includeTax)));
    } else if field == CostName {
      a[index] := a[index].(name := value);
    } else {
      a[index] := a[index].(amount := value);
    }
    r := a[..];
  }

  /** The tax switch of an entry is flipped by any value, and flipping it
      twice leaves it as truthy as before. */
  lemma IncludeTaxToggles(c: OtherCost, v: Value, w: Value)
    ensures Truthy(UpdatedCost(c, IncludeTax, v).includeTax) == !Truthy(c.includeTax)
    ensures UpdatedCost(c, IncludeTax, v) == UpdatedCost(c, IncludeTax, w)
    ensures Truthy(UpdatedCost(UpdatedCost(c, IncludeTax, v), IncludeTax, w).includeTax) == Truthy(c.includeTax)
  {
  }

  /** Switching an entry's tax on lowers the total cost by 5% of its amount. */
  lemma SwitchTaxOn(rt: Runtime, f: Form, index: int)
    requires 0 <= index < |f.otherCosts| && !Taxed(f.otherCosts[index])
    ensures var g := f.(otherCosts := f.otherCosts[index := UpdatedCost(f.otherCosts[index], IncludeTax, Null)]);
      CalculateTotals(rt, g).totalCost == CalculateTotals(rt, f).totalCost - 0.05 * Amount(rt, f.otherCosts[index])
  {
    var c := UpdatedCost(f.otherCosts[index], IncludeTax, Null);
    var g := f.(otherCosts := f.otherCosts[index := c]);
    TotalCostSpec(rt, f);
    TotalCostSpec(rt, g);
    SumUpdate(f.otherCosts, index, c, NetIn(rt));
  }

  /** removeOtherCost: drops the entry at the index, and its net amount
      from the total cost. */
  function RemoveOtherCost(f: Form, index: int): (r: Form)
    ensures r == f.(otherCosts := Without(f.otherCosts, index))
  {
    f.(otherCosts := Without(f.otherCosts, index))
  }

  lemma RemoveOtherCostTotals(rt: Runtime, f: Form, index: int)
    requires 0 <= index < |f.otherCosts|
    ensures CalculateTotals(rt, RemoveOtherCost(f, index)).totalCost
      == CalculateTotals(rt, f).totalCost - NetIn(rt)(f.otherCosts[index])
  {
    TotalCostSpec(rt, f);
    TotalCostSpec(rt, RemoveOtherCost(f, index));
    SumWithout(f.otherCosts, index, NetIn(rt));
  }

  // -----------------------------------------------------------------------
  // Saving

  datatype SaveOutcome = NameRequired | AverageRequired | Accepted(totals: Totals)

  /** handleSave and handleUpdate: a blank name is refused first, then a
      falsy average order value; otherwise the totals are stored with the
      form. */
  function Save(rt: Runtime, f: Form): SaveOutcome {
    if Trim(f.name) == "" then NameRequired
    else if !Truthy(f.averageOrderValue) then AverageRequired
    else Accepted(CalculateTotals(rt, f))
  }

  lemma SaveSpec(rt: Runtime, f: Form)
    ensures Save(rt, f).Accepted? <==> (exists i :: 0 <= i < |f.name| && !IsSpace(f.name[i])) && Truthy(f.averageOrderValue)
    ensures Save(rt, f).NameRequired? <==> forall i :: 0 <= i < |f.name| ==> IsSpace(f.name[i])
    ensures Save(rt, f).Accepted? ==> Save(rt, f).totals == CalculateTotals(rt, f)
  {
    TrimSpec(f.name);
  }
}
