/** The dealer pricing calculator: the price for a target margin and the
    margin of a price, the per-row edit that keeps each price and its margin
    paired, clearing of the pricing fields, and the search filter. */
module PricingAnalysis {
  import opened Js
  import opened Seqs

  /** The three price tiers: dealer, special and bottom price. */
  datatype Tier = Dealer | Special | Bottom

  /** A row of the pricing table. totalCost is the BOM cost of the table. */
  datatype PricingRow = PricingRow(
    id: string, tableName: string, category: string,
    totalCost: Value, totalCostWithLogistics: Value, websitePrice: Value,
    logisticsCostRate: Value,
    dealerPrice: Value, specialPrice: Value, bottomPrice: Value,
    dealerMargin: Value, specialMargin: Value, bottomMargin: Value)

  function PriceOf(row: PricingRow, tier: Tier): Value {
    match tier
    case Dealer => row.dealerPrice
    case Special => row.specialPrice
    case Bottom => row.bottomPrice
  }

  function MarginOf(row: PricingRow, tier: Tier): Value {
    match tier
    case Dealer => row.dealerMargin
    case Special => row.specialMargin
    case Bottom => row.bottomMargin
  }

  function WithPrice(row: PricingRow, tier: Tier, v: Value): (r: PricingRow)
    ensures PriceOf(r, tier) == v
    ensures forall t :: t != tier ==> PriceOf(r, t) == PriceOf(row, t)
    ensures forall t :: MarginOf(r, t) == MarginOf(row, t)
    ensures r.logisticsCostRate == row.logisticsCostRate && r.totalCost == row.totalCost && r.id == row.id
  {
    match tier
    case Dealer => row.(dealerPrice := v)
    case Special => row.(specialPrice := v)
    case Bottom => row.(bottomPrice := v)
  }

  function WithMargin(row: PricingRow, tier: Tier, v: Value): (r: PricingRow)
    ensures MarginOf(r, tier) == v
    ensures forall t :: t != tier ==> MarginOf(r, t) == MarginOf(row, t)
    ensures forall t :: PriceOf(r, t) == PriceOf(row, t)
    ensures r.logisticsCostRate == row.logisticsCostRate && r.totalCost == row.totalCost && r.id == row.id
  {
    match tier
    case Dealer => row.(dealerMargin := v)
    case Special => row.(specialMargin := v)
    case Bottom => row.(bottomMargin := v)
  }

  // -----------------------------------------------------------------------
  // Price and margin

  /** The price that leaves margin m (in percent) after the logistics rate
      r (a fraction) is also taken off: cost / (1 - m/100 - r). */
  function PriceFor(cost: real, m: real, r: real): real
    requires 1.0 - m / 100.0 - r != 0.0
  {
    cost / (1.0 - m / 100.0 - r)
  }

  /** The margin of a price, in percent: (price - cost) / price * 100. */
  function MarginFor(price: real, cost: real): real
    requires price != 0.0
  {
    (price - cost) / price * 100.0
  }

  /** `parseFloat(rate) / 100 || 0`. */
  function RateDecimal(rt: Runtime, rate: Value): real {
    match ParseFloat(rt, rate)
    case Some(x) => x / 100.0
    case None => 0.0
  }

  /** calculatePrice: '' without a cost or a margin; otherwise the price
      with toFixed(2). A margin that is not a number, or one that leaves no
      room (the divisor is 0), gives "NaN" or "Infinity". */
  function CalculatePrice(rt: Runtime, cost: Option<real>, margin: Value, rate: Value): (r: Value)
    ensures r == Str("") <==> cost.None? || cost.value == 0.0 || margin == Str("") || margin == Undefined
  {
    if cost.None? || cost.value == 0.0 || margin == Str("") || margin == Undefined then Str("")
    else
      match ToNumber(rt, margin)
      case None => FixedNonFinite
      case Some(m) =>
        var d := 1.0 - m / 100.0 - RateDecimal(rt, rate);
        if d == 0.0 then FixedNonFinite else Fixed(PriceFor(cost.value, m, RateDecimal(rt, rate)))
  }

  /** calculateMargin: '' without a price or a cost, otherwise the margin
      with toFixed(2). */
  function CalculateMargin(price: Option<real>, cost: Option<real>): (r: Value)
    ensures r == Str("") <==> price.None? || price.value == 0.0 || cost.None? || cost.value == 0.0
  {
    if price.None? || price.value == 0.0 || cost.None? || cost.value == 0.0 then Str("")
    else Fixed(MarginFor(price.value, cost.value))
  }

  /** Without logistics, the price for margin m has margin m; with a
      logistics rate r the displayed margin is m + 100 r, because the margin
      ignores logistics. */
  lemma PriceThenMargin(cost: real, m: real, r: real)
    requires cost != 0.0 && 1.0 - m / 100.0 - r != 0.0
    ensures PriceFor(cost, m, r) != 0.0
    ensures MarginFor(PriceFor(cost, m, r), cost) == m + 100.0 * r
  {
    var d := 1.0 - m / 100.0 - r;
    var p := cost / d;
    assert p * d == cost;
    assert p != 0.0;
    assert p - cost == (1.0 - d) * p;
    DivOfProduct(1.0 - d, p, p - cost);
  }

  /** The margin of a price p, turned back into a price without logistics,
      gives p again. */
  lemma MarginThenPrice(price: real, cost: real)
    requires price != 0.0 && cost != 0.0
    ensures 1.0 - MarginFor(price, cost) / 100.0 != 0.0
    ensures PriceFor(cost, MarginFor(price, cost), 0.0) == price
  {
    var m := MarginFor(price, cost);
    var q := cost / price;
    assert q * price == cost;
    assert price - cost == (1.0 - q) * price;
    DivOfProduct(1.0 - q, price, price - cost);
    assert m / 100.0 == 1.0 - q;
    assert q != 0.0;
    DivOfProduct(price, q, cost);
  }

  /** The same round trip through the page's two calculators, at logistics
      rate 0 (or none): the price computed for a typed margin shows that
      margin again. */
  lemma CalculatorsRoundTrip(rt: Runtime, cost: real, m: real, rate: Value)
    requires cost != 0.0 && m != 100.0 && RateDecimal(rt, rate) == 0.0
    ensures CalculatePrice(rt, Some(cost), Num(m), rate).Fixed?
    ensures CalculateMargin(Some(CalculatePrice(rt, Some(cost), Num(m), rate).x), Some(cost)) == Fixed(m)
  {
    assert 1.0 - m / 100.0 - 0.0 != 0.0;
    PriceThenMargin(cost, m, 0.0);
  }

  // -----------------------------------------------------------------------
  // Editing a row

  datatype PricingField = LogisticsRate | PriceField(tier: Tier) | MarginField(tier: Tier) | OtherField

  /** A tier's price after a logistics-rate change: recomputed from the
      row's margin with the new rate when that margin is set. */
  function Repriced(rt: Runtime, table: PricingRow, t: PricingRow, tier: Tier, rate: Value): PricingRow {
    if Truthy(MarginOf(table, tier)) then
      WithPrice(t, tier, CalculatePrice(rt, ParseFloat(rt, table.totalCost), MarginOf(table, tier), rate))
    else t
  }

  /** The row handleValueChange produces for the row being edited. */
  function ChangedRow(rt: Runtime, table: PricingRow, field: PricingField, value: Value): PricingRow {
    var numValue := ParseFloat(rt, value);
    var cost := ParseFloat(rt, table.totalCost);
    match field
    case LogisticsRate =>
      var t := table.(logisticsCostRate := value);
      Repriced(rt, table, Repriced(rt, table, Repriced(rt, table, t, Dealer, value), Special, value), Bottom, value)
    case PriceField(tier) =>
      var t := WithPrice(table, tier, value);
      if Truthy(FloatValue(numValue)) then WithMargin(t, tier, CalculateMargin(numValue, cost)) else t
    case MarginField(tier) =>
      var t := WithMargin(table, tier, value);
      WithPrice(t, tier, CalculatePrice(rt, cost, FloatValue(numValue), table.logisticsCostRate))
    case OtherField => table
  }

  /** The body of the edited row's case in handleValueChange: a copy of the
      row whose fields are assigned one after another. */
  method UpdateRow(rt: Runtime, table: PricingRow, field: PricingField, value: Value) returns (newTable: PricingRow)
    ensures newTable == ChangedRow(rt, table, field, value)
  {
    newTable := table;
    var numValue := ParseFloat(rt, value);
    var cost := ParseFloat(rt, table.totalCost);
    if field == LogisticsRate {
      newTable := newTable.(logisticsCostRate := value);
      if Truthy(table.dealerMargin) {
        newTable := newTable.(dealerPrice := CalculatePrice(rt, cost, table.dealerMargin, value));
      }
      if Truthy(table.specialMargin) {
        newTable := newTable.(specialPrice := CalculatePrice(rt, cost, table.specialMargin, value));
      }
      if Truthy(table.bottomMargin) {
        newTable := newTable.(bottomPrice := CalculatePrice(rt, cost, table.bottomMargin, value));
      }
      return;
    }
    match field {
      case PriceField(tier) =>
        newTable := WithPrice(newTable, tier, value);
        if Truthy(FloatValue(numValue)) {
          newTable := WithMargin(newTable, tier, CalculateMargin(numValue, cost));
        }
      case MarginField(tier) =>
        newTable := WithMargin(newTable, tier, value);
        newTable := WithPrice(newTable, tier, CalculatePrice(rt, cost, FloatValue(numValue), table.logisticsCostRate));
      case OtherField =>
    }
  }

  function ChangeIn(rt: Runtime, id: string, field: PricingField, value: Value): PricingRow -> PricingRow {
    (table: PricingRow) => if table.id != id then table else ChangedRow(rt, table, field, value)
  }

  /** handleValueChange over the whole table. */
  function HandleValueChange(rt: Runtime, rows: seq<PricingRow>, id: string, field: PricingField, value: Value): seq<PricingRow> {
    Map(rows, ChangeIn(rt, id, field, value))
  }

  /** Only rows with the edited id change, and the table keeps its length
      and order. */
  lemma ValueChangeOnlyMatching(rt: Runtime, rows: seq<PricingRow>, id: string, field: PricingField, value: Value)
    ensures |HandleValueChange(rt, rows, id, field, value)| == |rows|
    ensures forall i :: 0 <= i < |rows| && rows[i].id != id ==> HandleValueChange(rt, rows, id, field, value)[i] == rows[i]
    ensures forall i :: 0 <= i < |rows| && rows[i].id == id ==>
      HandleValueChange(rt, rows, id, field, value)[i] == ChangedRow(rt, rows[i], field, value)
  {
  }

  /** A logistics-rate change stores the rate, keeps every margin, and
      reprices exactly the tiers whose margin is set. */
  lemma {:induction false} RateChangeSpec(rt: Runtime, table: PricingRow, value: Value)
    ensures var r := ChangedRow(rt, table, LogisticsRate, value);
      && r.logisticsCostRate == value && r.totalCost == table.totalCost
      && (forall t :: MarginOf(r, t) == MarginOf(table, t))
      && (forall t :: Truthy(MarginOf(table, t)) ==>
            PriceOf(r, t) == CalculatePrice(rt, ParseFloat(rt, table.totalCost), MarginOf(table, t), value))
      && (forall t :: !Truthy(MarginOf(table, t)) ==> PriceOf(r, t) == PriceOf(table, t))
  {
    var t0 := table.(logisticsCostRate := value);
    var t1 := Repriced(rt, table, t0, Dealer, value);
    var t2 := Repriced(rt, table, t1, Special, value);
    var t3 := Repriced(rt, table, t2, Bottom, value);
    assert forall t :: PriceOf(t0, t) == PriceOf(table, t);
  }

  /** A price edit stores the text and, when it reads as a nonzero number,
      rewrites that tier's margin; nothing else changes. */
  lemma PriceEditSpec(rt: Runtime, table: PricingRow, tier: Tier, value: Value)
    ensures var r := ChangedRow(rt, table, PriceField(tier), value);
      && PriceOf(r, tier) == value
      && (forall t :: t != tier ==> PriceOf(r, t) == PriceOf(table, t) && MarginOf(r, t) == MarginOf(table, t))
      && r.logisticsCostRate == table.logisticsCostRate
      && (ParseFloat(rt, value).Some? && ParseFloat(rt, value).value != 0.0 ==>
            MarginOf(r, tier) == CalculateMargin(ParseFloat(rt, value), ParseFloat(rt, table.totalCost)))
      && (ParseFloat(rt, value).None? || ParseFloat(rt, value).value == 0.0 ==> MarginOf(r, tier) == MarginOf(table, tier))
  {
  }

  /** A margin edit stores the text and always rewrites that tier's price,
      even when the text is not a number (the guard compares a number with
      '' and so never fails). */
  lemma MarginEditSpec(rt: Runtime, table: PricingRow, tier: Tier, value: Value)
    ensures var r := ChangedRow(rt, table, MarginField(tier), value);
      && MarginOf(r, tier) == value
      && PriceOf(r, tier) == CalculatePrice(rt, ParseFloat(rt, table.totalCost), FloatValue(ParseFloat(rt, value)), table.logisticsCostRate)
      && (forall t :: t != tier ==> PriceOf(r, t) == PriceOf(table, t) && MarginOf(r, t) == MarginOf(table, t))
      && r.logisticsCostRate == table.logisticsCostRate
  {
  }

  /** After a margin edit on a row that has a cost and no logistics rate,
      the margin of the new price is the margin typed. */
  lemma MarginEditRoundTrip(rt: Runtime, table: PricingRow, tier: Tier, value: Value, m: real)
    requires ParseFloat(rt, value) == Some(m) && m != 100.0
    requires ParseFloat(rt, table.totalCost).Some? && ParseFloat(rt, table.totalCost).value != 0.0
    requires RateDecimal(rt, table.logisticsCostRate) == 0.0
    ensures var r := ChangedRow(rt, table, MarginField(tier), value);
      && PriceOf(r, tier).Fixed?
      && CalculateMargin(Some(PriceOf(r, tier).x), ParseFloat(rt, table.totalCost)) == Fixed(m)
  {
    MarginEditSpec(rt, table, tier, value);
    CalculatorsRoundTrip(rt, ParseFloat(rt, table.totalCost).value, m, table.logisticsCostRate);
  }

  // -----------------------------------------------------------------------
  // Clearing and searching

  /** handleClearValues on one row. */
  function Cleared(row: PricingRow): PricingRow {
    row.(dealerPrice := Str(""), specialPrice := Str(""), bottomPrice := Str(""),
         dealerMargin := Str(""), specialMargin := Str(""), bottomMargin := Str(""),
         logisticsCostRate := Str(""))
  }

  function HandleClearValues(rows: seq<PricingRow>): seq<PricingRow> {
    Map(rows, Cleared)
  }

  /** Clearing blanks every price, margin and logistics rate and keeps each
      row's id, name, cost, category and website price; clearing twice is
      clearing once. */
  lemma ClearValuesSpec(rows: seq<PricingRow>)
    ensures |HandleClearValues(rows)| == |rows|
    ensures forall i, t :: 0 <= i < |rows| ==>
      PriceOf(HandleClearValues(rows)[i], t) == Str("") && MarginOf(HandleClearValues(rows)[i], t) == Str("")
    ensures forall i :: 0 <= i < |rows| ==>
      var c := HandleClearValues(rows)[i];
      && c.logisticsCostRate == Str("")
      && c.id == rows[i].id && c.tableName == rows[i].tableName && c.totalCost == rows[i].totalCost
      && c.category == rows[i].category && c.websitePrice == rows[i].websitePrice
      && c.totalCostWithLogistics == rows[i].totalCostWithLogistics
    ensures HandleClearValues(HandleClearValues(rows)) == HandleClearValues(rows)
  {
    forall i, t | 0 <= i < |rows|
      ensures PriceOf(HandleClearValues(rows)[i], t) == Str("") && MarginOf(HandleClearValues(rows)[i], t) == Str("")
    {
      assert HandleClearValues(rows)[i] == Cleared(rows[i]);
    }
  }

  /** A row matches the search when its category or its name contains the
      term, ignoring case. */
  predicate Matches(term: string, row: PricingRow) {
    Includes(Lower(row.category), Lower(term)) || Includes(Lower(row.tableName), Lower(term))
  }

  function MatchesIn(term: string): PricingRow -> bool {
    row => Matches(term, row)
  }

  /** filteredBomTables. */
  function FilteredBomTables(rows: seq<PricingRow>, term: string): seq<PricingRow> {
    Filter(rows, MatchesIn(term))
  }

  /** The filter keeps exactly the matching rows, and an empty search keeps
      them all. */
  lemma FilteredSpec(rows: seq<PricingRow>, term: string)
    ensures forall r :: r in FilteredBomTables(rows, term) <==> r in rows && Matches(term, r)
    ensures term == "" ==> FilteredBomTables(rows, term) == rows
  {
    if term == "" {
      FilterAll(rows, term);
    }
  }

  lemma {:induction false} FilterAll(rows: seq<PricingRow>, term: string)
    requires term == ""
    ensures FilteredBomTables(rows, term) == rows
  {
    if rows != [] {
      FilterAll(rows[..|rows| - 1], term);
      IncludesEmpty(Lower(rows[|rows| - 1].category));
      assert rows[..|rows| - 1] + [rows[|rows| - 1]] == rows;
    }
  }
}
