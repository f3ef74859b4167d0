/** The order statistics of an exported order spreadsheet: the orders
    counted by kind, the average amounts, the average cost of each kind of
    gift and fee per order, the 5% tax of each cost that is switched on and
    either added or deducted, and the resulting order cost rate. The sheet
    arrives decoded, as rows of cells; whether a date is a Thursday is a
    parameter. */
module ExcelAnalysis {
  import opened Js
  import opened Seqs

  type Row = seq<Value>

  /** `row[k]`: undefined past the end of the row. */
  function Cell(row: Row, k: nat): Value {
    if k < |row| then row[k] else Undefined
  }

  predicate Filled(c: Value) {
    c != Null && c != Undefined && c != Str("")
  }

  /** `row.some(cell => cell is not null, undefined or '')`. */
  predicate IsOrder(row: Row) {
    exists k :: 0 <= k < |row| && Filled(row[k])
  }

  /** `cell && cell.includes(text)`. */
  predicate Mentions(c: Value, text: string) {
    c.Str? && c.s != "" && Includes(c.s, text)
  }

  /** The order amount before discounts: columns 15, 24, 26 and 28, each read
      as parseFloat(x) || 0. */
  function PreDiscount(rt: Runtime, row: Row): real {
    NumOr0(rt, Cell(row, 15)) + NumOr0(rt, Cell(row, 24)) + NumOr0(rt, Cell(row, 26)) + NumOr0(rt, Cell(row, 28))
  }

  /** A dated order whose date (column 0) is a Thursday. */
  predicate OnThursday(rt: Runtime, isThursday: Value -> bool, row: Row) {
    Truthy(Cell(row, 0)) && ToNumber(rt, Cell(row, 0)).Some? && isThursday(Cell(row, 0))
  }

  function Flag(b: bool): nat {
    if b then 1 else 0
  }

  // -----------------------------------------------------------------------
  // Counting

  datatype Counts = Counts(
    totalOrders: nat, kbGiftOrders: nat, khGiftOrders: nat, kolOrders: nat, thursdayOrders: nat,
    ordersOver2800: nat, ordersOver3300: nat,
    totalPreDiscountAmount: real, totalActualAmount: real)

  function NoCounts(): Counts {
    Counts(0, 0, 0, 0, 0, 0, 0, 0.0, 0.0)
  }

  /** One pass of the loop body: a row with no filled cell is skipped. */
  function CountRow(rt: Runtime, isThursday: Value -> bool, c: Counts, row: Row): Counts {
    if !IsOrder(row) then c
    else
      var pre := PreDiscount(rt, row);
      Counts(
        c.totalOrders + 1,
        c.kbGiftOrders + Flag(Mentions(Cell(row, 20), "康寶禮")),
        c.khGiftOrders + Flag(Mentions(Cell(row, 20), "康熙")),
        c.kolOrders + Flag(Truthy(Cell(row, 28))),
        c.thursdayOrders + Flag(OnThursday(rt, isThursday, row)),
        c.ordersOver2800 + Flag(pre > 2800.0),
        c.ordersOver3300 + Flag(pre > 3300.0),
        c.totalPreDiscountAmount + pre,
        c.totalActualAmount + NumOr0(rt, Cell(row, 15)))
  }

  function Tally(rt: Runtime, isThursday: Value -> bool, rows: seq<Row>): Counts {
    if rows == [] then NoCounts()
    else CountRow(rt, isThursday, Tally(rt, isThursday, rows[..|rows| - 1]), rows[|rows| - 1])
  }

  /** The rows after the header row. */
  function Body(data: seq<Row>): seq<Row> {
    if data == [] then [] else data[1..]
  }

  /** The counting loop, which starts at row 1. */
  method CountOrders(rt: Runtime, isThursday: Value -> bool, data: seq<Row>) returns (c: Counts)
    ensures c == Tally(rt, isThursday, Body(data))
  {
    c := NoCounts();
    if data == [] {
      return;
    }
    var i := 1;
    while i < |data|
      invariant 1 <= i <= |data|
      invariant c == Tally(rt, isThursday, data[1..i])
    {
      assert data[1..i + 1][..i - 1] == data[1..i];
      c := CountOrder(rt, isThursday, c, data[i]);
      i := i + 1;
    }
    assert Body(data) == data[1..];
    assert data[1..i] == data[1..];
  }

  /** The body of the counting loop, counter by counter. */
  method CountOrder(rt: Runtime, isThursday: Value -> bool, c0: Counts, row: Row) returns (c: Counts)
    ensures c == CountRow(rt, isThursday, c0, row)
  {
    c := c0;
    if IsOrder(row) {
      var pre := PreDiscount(rt, row);
      var kb := c0.kbGiftOrders;
      if Mentions(Cell(row, 20), "康寶禮") {
        kb := kb + 1;
      }
      var kh := c0.khGiftOrders;
      if Mentions(Cell(row, 20), "康熙") {
        kh := kh + 1;
      }
      var kol := c0.kolOrders;
      if Truthy(Cell(row, 28)) {
        kol := kol + 1;
      }
      var thursday := c0.thursdayOrders;
      if OnThursday(rt, isThursday, row) {
        thursday := thursday + 1;
      }
      var over2800 := c0.ordersOver2800;
      if pre > 2800.0 {
        over2800 := over2800 + 1;
      }
      var over3300 := c0.ordersOver3300;
      if pre > 3300.0 {
        over3300 := over3300 + 1;
      }
      c := Counts(c0.totalOrders + 1, kb, kh, kol, thursday, over2800, over3300,
        c0.totalPreDiscountAmount + pre, c0.totalActualAmount + NumOr0(rt, Cell(row, 15)));
      CountRowOfOrder(rt, isThursday, c0, row);
      CountsEq(c, CountRow(rt, isThursday, c0, row));
    }
  }

  lemma CountRowOfOrder(rt: Runtime, isThursday: Value -> bool, c0: Counts, row: Row)
    requires IsOrder(row)
    ensures var pre := PreDiscount(rt, row);
      var c := CountRow(rt, isThursday, c0, row);
      && c.totalOrders == c0.totalOrders + 1
      && c.kbGiftOrders == c0.kbGiftOrders + Flag(Mentions(Cell(row, 20), "康寶禮"))
      && c.khGiftOrders == c0.khGiftOrders + Flag(Mentions(Cell(row, 20), "康熙"))
      && c.kolOrders == c0.kolOrders + Flag(Truthy(Cell(row, 28)))
      && c.thursdayOrders == c0.thursdayOrders + Flag(OnThursday(rt, isThursday, row))
      && c.ordersOver2800 == c0.ordersOver2800 + Flag(pre > 2800.0)
      && c.ordersOver3300 == c0.ordersOver3300 + Flag(pre > 3300.0)
      && c.totalPreDiscountAmount == c0.totalPreDiscountAmount + pre
      && c.totalActualAmount == c0.totalActualAmount + NumOr0(rt, Cell(row, 15))
  {
  }

  lemma CountsEq(a: Counts, b: Counts)
    requires a.totalOrders == b.totalOrders && a.kbGiftOrders == b.kbGiftOrders && a.khGiftOrders == b.khGiftOrders
    requires a.kolOrders == b.kolOrders && a.thursdayOrders == b.thursdayOrders
    requires a.ordersOver2800 == b.ordersOver2800 && a.ordersOver3300 == b.ordersOver3300
    requires a.totalPreDiscountAmount == b.totalPreDiscountAmount && a.totalActualAmount == b.totalActualAmount
    ensures a == b
  {
  }

  function IsOrderIn(): Row -> bool {
    row => IsOrder(row)
  }

  function PreDiscountIn(rt: Runtime): Row -> real {
    row => PreDiscount(rt, row)
  }

  /** Every order is counted once: the total is the number of rows with a
      filled cell and the pre-discount total sums their pre-discount
      amounts; every kind of order is among the orders, and an order over
      3300 is also over 2800. */
  lemma {:induction false} TallySpec(rt: Runtime, isThursday: Value -> bool, rows: seq<Row>)
    ensures var c := Tally(rt, isThursday, rows);
      && c.totalOrders == Count(rows, IsOrderIn())
      && c.totalPreDiscountAmount == Sum(Filter(rows, IsOrderIn()), PreDiscountIn(rt))
      && c.kbGiftOrders <= c.totalOrders && c.khGiftOrders <= c.totalOrders
      && c.kolOrders <= c.totalOrders && c.thursdayOrders <= c.totalOrders
      && c.ordersOver3300 <= c.ordersOver2800 <= c.totalOrders
  {
    if rows != [] {
      var init := rows[..|rows| - 1];
      var row := rows[|rows| - 1];
      TallySpec(rt, isThursday, init);
      if IsOrder(row) {
        assert Filter(rows, IsOrderIn()) == Filter(init, IsOrderIn()) + [row];
        SumSnoc(Filter(init, IsOrderIn()), row, PreDiscountIn(rt));
      } else {
        assert Filter(rows, IsOrderIn()) == Filter(init, IsOrderIn()) + [];
        assert Filter(init, IsOrderIn()) + [] == Filter(init, IsOrderIn());
      }
    }
  }

  /** The header row is never counted: whatever it holds, the counts are the
      same. */
  lemma HeaderIgnored(rt: Runtime, isThursday: Value -> bool, data: seq<Row>, header: Row)
    requires data != []
    ensures Tally(rt, isThursday, Body(data[0 := header])) == Tally(rt, isThursday, Body(data))
  {
    assert Body(data[0 := header]) == Body(data);
  }

  // -----------------------------------------------------------------------
  // Averages

  /** The manual inputs, each already read as parseFloat(x) || 0. */
  datatype Manual = Manual(
    warehouseLogistics: real, cardboardBox: real, kbGiftCost: real, khGiftCost: real,
    thursdayRestockCost: real, gift2800Cost: real, gift3300Cost: real)

  /** The per-order figures; defined only when there is at least one order,
      since otherwise each is 0 / 0. */
  datatype Averages = Averages(
    averagePreDiscountAmount: real, averageActualAmount: real,
    paymentFee: real, cyberbizFee: real,
    kbGiftAverageCost: real, khGiftAverageCost: real, thursdayAverageCost: real,
    gift2800AverageCost: real, gift3300AverageCost: real, kolAverageCost: real,
    discountAverageCost: real, warehouseLogistics: real)

  /** `cost * (k / n)`: a cost spread over the orders, k of which incur it. */
  function PerOrder(cost: real, k: nat, n: nat): real
    requires n > 0
  {
    cost * (k as real / n as real)
  }

  function AveragesOf(c: Counts, m: Manual): Option<Averages> {
    if c.totalOrders == 0 then None
    else
      var n := c.totalOrders;
      var pre := c.totalPreDiscountAmount / n as real;
      var actual := c.totalActualAmount / n as real;
      Some(Averages(
        pre, actual,
        0.022 * actual, 0.03 * actual,
        PerOrder(m.kbGiftCost, c.kbGiftOrders, n),
        PerOrder(m.khGiftCost, c.khGiftOrders, n),
        PerOrder(m.thursdayRestockCost, c.thursdayOrders, n),
        PerOrder(m.gift2800Cost, c.ordersOver2800, n),
        PerOrder(m.gift3300Cost, c.ordersOver3300, n),
        PerOrder(70.0, c.kolOrders, n),
        pre - actual,
        m.warehouseLogistics))
  }

  /** A cost spread over k of n orders costs, per order, between 0 and the
      cost itself. */
  lemma ShareOfCost(cost: real, k: nat, n: nat)
    requires 0 < n && k <= n && cost >= 0.0
    ensures 0.0 <= PerOrder(cost, k, n) <= cost
  {
    var q := k as real / n as real;
    assert q * n as real == k as real;
    assert 0.0 <= q <= 1.0;
    assert cost * q <= cost * 1.0;
  }

  lemma AveragesBounds(c: Counts, m: Manual)
    requires c.totalOrders > 0 && m.kbGiftCost >= 0.0 && m.gift3300Cost >= 0.0
    requires c.kolOrders <= c.totalOrders && c.kbGiftOrders <= c.totalOrders && c.ordersOver3300 <= c.totalOrders
    ensures var a := AveragesOf(c, m).value;
      && 0.0 <= a.kolAverageCost <= 70.0
      && 0.0 <= a.kbGiftAverageCost <= m.kbGiftCost
      && 0.0 <= a.gift3300AverageCost <= m.gift3300Cost
  {
    ShareOfCost(70.0, c.kolOrders, c.totalOrders);
    ShareOfCost(m.kbGiftCost, c.kbGiftOrders, c.totalOrders);
    ShareOfCost(m.gift3300Cost, c.ordersOver3300, c.totalOrders);
  }

  /** The KOL cost per order is between 0 and 70, and each gift's cost per
      order is between 0 and the gift's cost (for a gift that costs
      something), because each kind of order is among the orders. */
  lemma AverageCostBounds(rt: Runtime, isThursday: Value -> bool, data: seq<Row>, m: Manual)
    requires m.kbGiftCost >= 0.0 && m.gift3300Cost >= 0.0
    ensures var a := AveragesOf(Tally(rt, isThursday, Body(data)), m);
      a.Some? ==>
        && 0.0 <= a.value.kolAverageCost <= 70.0
        && 0.0 <= a.value.kbGiftAverageCost <= m.kbGiftCost
        && 0.0 <= a.value.gift3300AverageCost <= m.gift3300Cost
  {
    var c := Tally(rt, isThursday, Body(data));
    TallySpec(rt, isThursday, Body(data));
    if c.totalOrders > 0 {
      AveragesBounds(c, m);
    }
  }

  // -----------------------------------------------------------------------
  // Taxes

  /** The figures that can carry a tax: those ending in AverageCost and four
      more, in the order the statistics object holds them. */
  datatype Field =
    | AverageActualAmount | PaymentFee | CyberbizFee
    | KbGiftAverageCost | KhGiftAverageCost | ThursdayAverageCost | Gift2800AverageCost
    | Gift3300AverageCost | KolAverageCost | DiscountAverageCost | WarehouseLogistics

  const TaxableFields: seq<Field> := [
    AverageActualAmount, PaymentFee, CyberbizFee,
    KbGiftAverageCost, KhGiftAverageCost, ThursdayAverageCost, Gift2800AverageCost,
    Gift3300AverageCost, KolAverageCost, DiscountAverageCost, WarehouseLogistics]

  /** How a figure's tax is treated: deducted, added, or neither. */
  datatype Treatment = Deductible | Included | Unset

  function ValueOf(a: Averages, f: Field): real {
    match f
    case AverageActualAmount => a.averageActualAmount
    case PaymentFee => a.paymentFee
    case CyberbizFee => a.cyberbizFee
    case KbGiftAverageCost => a.kbGiftAverageCost
    case KhGiftAverageCost => a.khGiftAverageCost
    case ThursdayAverageCost => a.thursdayAverageCost
    case Gift2800AverageCost => a.gift2800AverageCost
    case Gift3300AverageCost => a.gift3300AverageCost
    case KolAverageCost => a.kolAverageCost
    case DiscountAverageCost => a.discountAverageCost
    case WarehouseLogistics => a.warehouseLogistics
  }

  /** The tax of a figure: 5% of it when its tax switch is on. */
  function TaxOf(a: Averages, taxInclusion: Field -> bool, f: Field): real {
    if taxInclusion(f) then ValueOf(a, f) * 0.05 else 0.0
  }

  function TaxIn(a: Averages, taxInclusion: Field -> bool): Field -> real {
    f => TaxOf(a, taxInclusion, f)
  }

  function Treated(status: Field -> Treatment, t: Treatment): Field -> bool {
    f => status(f) == t
  }

  /** The total cost per order: every figure except the actual amount. */
  function TotalCost(a: Averages): real {
    a.paymentFee + a.cyberbizFee + a.kbGiftAverageCost + a.khGiftAverageCost
      + a.thursdayAverageCost + a.gift2800AverageCost + a.gift3300AverageCost
      + a.kolAverageCost + a.discountAverageCost + a.warehouseLogistics
  }

  /** The tax figures the statistics object gains: the tax of every taxable
      figure, and that tax again under the deductible or the included key
      according to the figure's treatment. */
  datatype TaxRecord = TaxRecord(tax: map<Field, real>, deductible: map<Field, real>, included: map<Field, real>)

  datatype Stats = Stats(
    counts: Counts, averages: Option<Averages>, taxes: TaxRecord,
    totalCostWithTax: Option<real>, orderCostRate: Option<real>)

  function IncludedTax(a: Averages, taxInclusion: Field -> bool, status: Field -> Treatment, fields: seq<Field>): real {
    Sum(Filter(fields, Treated(status, Included)), TaxIn(a, taxInclusion))
  }

  function DeductibleTax(a: Averages, taxInclusion: Field -> bool, status: Field -> Treatment, fields: seq<Field>): real {
    Sum(Filter(fields, Treated(status, Deductible)), TaxIn(a, taxInclusion))
  }

  /** The record after the figures of s: each adds its tax, and under its
      treatment's key. */
  function RecordOf(a: Averages, taxInclusion: Field -> bool, status: Field -> Treatment, s: seq<Field>): TaxRecord {
    if s == [] then TaxRecord(map[], map[], map[])
    else
      var r := RecordOf(a, taxInclusion, status, s[..|s| - 1]);
      var f := s[|s| - 1];
      var t := TaxOf(a, taxInclusion, f);
      TaxRecord(
        r.tax[f := t],
        if status(f) == Deductible then r.deductible[f := t] else r.deductible,
        if status(f) == Included then r.included[f := t] else r.included)
  }

  /** calculateStats, as a function of the sheet and the settings. */
  function StatsOf(rt: Runtime, isThursday: Value -> bool, data: seq<Row>, m: Manual,
                   taxInclusion: Field -> bool, status: Field -> Treatment): Stats {
    var c := Tally(rt, isThursday, Body(data));
    match AveragesOf(c, m)
    case None => Stats(c, None, TaxRecord(map[], map[], map[]), None, None)
    case Some(a) => Summary(c, a, taxInclusion, status, TaxableFields)
  }

  /** The statistics of a sheet with at least one order. */
  function Summary(c: Counts, a: Averages, taxInclusion: Field -> bool, status: Field -> Treatment, fields: seq<Field>): Stats {
    var withTax := TotalCost(a) + IncludedTax(a, taxInclusion, status, fields) - DeductibleTax(a, taxInclusion, status, fields);
    Stats(c, Some(a), RecordOf(a, taxInclusion, status, fields), Some(withTax),
      if a.averagePreDiscountAmount != 0.0 then Some(withTax / a.averagePreDiscountAmount) else None)
  }

  /** The forEach over the taxable figures: records each tax under its keys
      and adds up the included and the deductible ones. */
  method RecordTaxes(a: Averages, taxInclusion: Field -> bool, status: Field -> Treatment, fields: seq<Field>)
    returns (r: TaxRecord, included: real, deductible: real)
    ensures r == RecordOf(a, taxInclusion, status, fields)
    ensures included == Sum(Filter(fields, Treated(status, Included)), TaxIn(a, taxInclusion))
    ensures deductible == Sum(Filter(fields, Treated(status, Deductible)), TaxIn(a, taxInclusion))
  {
    r := TaxRecord(map[], map[], map[]);
    included, deductible := 0.0, 0.0;
    var i := 0;
    while i < |fields|
      invariant 0 <= i <= |fields|
      invariant r == RecordOf(a, taxInclusion, status, fields[..i])
      invariant included == Sum(Filter(fields[..i], Treated(status, Included)), TaxIn(a, taxInclusion))
      invariant deductible == Sum(Filter(fields[..i], Treated(status, Deductible)), TaxIn(a, taxInclusion))
    {
      var f := fields[i];
      assert fields[..i + 1][..i] == fields[..i];
      SumFilterStep(fields, i, Treated(status, Included), TaxIn(a, taxInclusion));
      SumFilterStep(fields, i, Treated(status, Deductible), TaxIn(a, taxInclusion));
      var tax := if taxInclusion(f) then ValueOf(a, f) * 0.05 else 0.0;
      r := r.(tax := r.tax[f := tax]);
      if status(f) == Deductible {
        r := r.(deductible := r.deductible[f := tax]);
        deductible := deductible + tax;
      } else if status(f) == Included {
        r := r.(included := r.included[f := tax]);
        included := included + tax;
      }
      i := i + 1;
    }
    assert fields[..i] == fields;
  }

  /** calculateStats. The averages are left undefined when no row is an
      order, since each is then 0 / 0, and so is the cost rate when the
      average pre-discount amount is 0. */
  method CalculateStats(rt: Runtime, isThursday: Value -> bool, data: seq<Row>, m: Manual,
                        taxInclusion: Field -> bool, status: Field -> Treatment) returns (s: Stats)
    ensures s == StatsOf(rt, isThursday, data, m, taxInclusion, status)
  {
    var c := CountOrders(rt, isThursday, data);
    var averages := AveragesOf(c, m);
    if averages.None? {
      s := Stats(c, None, TaxRecord(map[], map[], map[]), None, None);
    } else {
      s := Summarize(c, averages.value, taxInclusion, status, TaxableFields);
    }
  }

  /** The part of calculateStats after the averages: the tax loop, the cost
      with tax and the order cost rate. */
  method Summarize(c: Counts, a: Averages, taxInclusion: Field -> bool, status: Field -> Treatment, fields: seq<Field>)
    returns (s: Stats)
    ensures s == Summary(c, a, taxInclusion, status, fields)
  {
    var r, included, deductible := RecordTaxes(a, taxInclusion, status, fields);
    var withTax := TotalCost(a) + included - deductible;
    var rate := if a.averagePreDiscountAmount != 0.0 then Some(withTax / a.averagePreDiscountAmount) else None;
    s := Stats(c, Some(a), r, Some(withTax), rate);
  }

  // -----------------------------------------------------------------------
  // Properties of the tax treatment

  function SignedTaxIn(a: Averages, taxInclusion: Field -> bool, status: Field -> Treatment): Field -> real {
    f => if status(f) == Included then TaxOf(a, taxInclusion, f)
         else if status(f) == Deductible then -TaxOf(a, taxInclusion, f)
         else 0.0
  }

  lemma SignedSum(a: Averages, taxInclusion: Field -> bool, status: Field -> Treatment, s: seq<Field>)
    ensures Sum(s, SignedTaxIn(a, taxInclusion, status))
      == Sum(Filter(s, Treated(status, Included)), TaxIn(a, taxInclusion))
        - Sum(Filter(s, Treated(status, Deductible)), TaxIn(a, taxInclusion))
  {
    SumSigned(s, Treated(status, Included), Treated(status, Deductible), TaxIn(a, taxInclusion), SignedTaxIn(a, taxInclusion, status));
  }

  /** The cost with tax adds the tax of every figure treated as included and
      takes off the tax of every figure treated as deductible; a figure with
      neither treatment, or with its tax switch off, changes nothing. The
      order cost rate is that cost over the average pre-discount amount. */
  lemma WithTaxSpec(rt: Runtime, isThursday: Value -> bool, data: seq<Row>, m: Manual,
                    taxInclusion: Field -> bool, status: Field -> Treatment)
    ensures var s := StatsOf(rt, isThursday, data, m, taxInclusion, status);
      && (s.averages.Some? <==> s.counts.totalOrders > 0)
      && (s.averages.Some? ==>
            && s.totalCostWithTax == Some(TotalCost(s.averages.value) + Sum(TaxableFields, SignedTaxIn(s.averages.value, taxInclusion, status)))
            && (s.orderCostRate.Some? <==> s.averages.value.averagePreDiscountAmount != 0.0)
            && (s.orderCostRate.Some? ==> s.orderCostRate.value * s.averages.value.averagePreDiscountAmount == s.totalCostWithTax.value))
  {
    var s := StatsOf(rt, isThursday, data, m, taxInclusion, status);
    if s.averages.Some? {
      var a := s.averages.value;
      SignedSum(a, taxInclusion, status, TaxableFields);
      if a.averagePreDiscountAmount != 0.0 {
        var q := s.totalCostWithTax.value / a.averagePreDiscountAmount;
        assert q * a.averagePreDiscountAmount == s.totalCostWithTax.value;
      }
    }
  }

  lemma {:induction false} ZeroSum(s: seq<Field>, g: Field -> real)
    requires forall i :: 0 <= i < |s| ==> g(s[i]) == 0.0
    ensures Sum(s, g) == 0.0
  {
    if s != [] {
      ZeroSum(s[..|s| - 1], g);
    }
  }

  /** With every tax switch off, or every treatment unset, the cost with
      tax is the plain total cost. */
  lemma NoTaxNoChange(a: Averages, taxInclusion: Field -> bool, status: Field -> Treatment)
    requires (forall f :: !taxInclusion(f)) || (forall f :: status(f) == Unset)
    ensures Sum(TaxableFields, SignedTaxIn(a, taxInclusion, status)) == 0.0
  {
    ZeroSum(TaxableFields, SignedTaxIn(a, taxInclusion, status));
  }

  /** The record after the figures of s holds the tax of each of them, and
      the deductible and included keys exactly for those treated so. */
  lemma {:induction false} RecordOfSpec(a: Averages, taxInclusion: Field -> bool, status: Field -> Treatment, s: seq<Field>)
    ensures var r := RecordOf(a, taxInclusion, status, s);
      && (forall f :: f in r.tax <==> f in s)
      && (forall f :: f in r.deductible <==> f in s && status(f) == Deductible)
      && (forall f :: f in r.included <==> f in s && status(f) == Included)
      && (forall f :: f in r.tax ==> r.tax[f] == TaxOf(a, taxInclusion, f))
      && (forall f :: f in r.deductible ==> r.deductible[f] == r.tax[f])
      && (forall f :: f in r.included ==> r.included[f] == r.tax[f])
  {
    if s != [] {
      RecordOfSpec(a, taxInclusion, status, s[..|s| - 1]);
      assert s == s[..|s| - 1] + [s[|s| - 1]];
    }
  }

  /** So the statistics record a tax for every taxable figure, 5% of it when
      its switch is on, and the deductible and included keys exactly for the
      figures treated so. */
  lemma TaxRecordSpec(a: Averages, taxInclusion: Field -> bool, status: Field -> Treatment)
    ensures var r := RecordOf(a, taxInclusion, status, TaxableFields);
      && (forall f :: f in r.tax && r.tax[f] == (if taxInclusion(f) then 0.05 * ValueOf(a, f) else 0.0))
      && (forall f :: f in r.deductible <==> status(f) == Deductible)
      && (forall f :: f in r.included <==> status(f) == Included)
      && (forall f :: f in r.deductible ==> r.deductible[f] == r.tax[f])
      && (forall f :: f in r.included ==> r.included[f] == r.tax[f])
  {
    RecordOfSpec(a, taxInclusion, status, TaxableFields);
    forall f ensures f in TaxableFields {
      assert f == TaxableFields[FieldIndex(f)];
    }
  }

  function FieldIndex(f: Field): (i: nat)
    ensures i < |TaxableFields| && TaxableFields[i] == f
  {
    match f
    case AverageActualAmount => 0
    case PaymentFee => 1
    case CyberbizFee => 2
    case KbGiftAverageCost => 3
    case KhGiftAverageCost => 4
    case ThursdayAverageCost => 5
    case Gift2800AverageCost => 6
    case Gift3300AverageCost => 7
    case KolAverageCost => 8
    case DiscountAverageCost => 9
    case WarehouseLogistics => 10
  }
}
