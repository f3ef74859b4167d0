/** The profit analysis of BOM tables: each table's cost, its gross margin
    against the website price with the 5% VAT taken out, the net margin after
    the order cost rate, the website-price edit and the search filter. */
module ProfitAnalysis {
  import opened Js
  import opened Seqs
  import Catalog

  // -----------------------------------------------------------------------
  // Cost

  /** The unit cost a line holds once the page has resolved it: a shared
      line's material reference becomes the material's unitCost, or 0 when
      the material is missing or its cost is falsy. */
  function ResolvedUnitCost(mats: Catalog.Materials, line: Catalog.StoredLine): Value {
    if Truthy(line.isShared) && line.unitCost.Ref? then
      Catalog.OrElse(if line.unitCost.path in mats then mats[line.unitCost.path] else Undefined, Num(0.0))
    else line.unitCost
  }

  /** One step of the totalCost reduce: quantity times unit cost, both read
      as parseFloat(x) || 0, plus 5% when taxed. */
  function LineCost(rt: Runtime, mats: Catalog.Materials, line: Catalog.StoredLine): real {
    var itemCost := NumOr0(rt, line.quantity) * NumOr0(rt, ResolvedUnitCost(mats, line));
    itemCost + (if Truthy(line.isTaxed) then itemCost * 0.05 else 0.0)
  }

  function LineCostIn(rt: Runtime, mats: Catalog.Materials): Catalog.StoredLine -> real {
    line => LineCost(rt, mats, line)
  }

  function TableCost(rt: Runtime, mats: Catalog.Materials, items: seq<Catalog.StoredLine>): real {
    Sum(items, LineCostIn(rt, mats))
  }

  /** Resolving first and reading later costs each line what the shipping
      page charges for it, as long as the empty string does not parse. */
  lemma LineCostAgrees(rt: Runtime, mats: Catalog.Materials, line: Catalog.StoredLine)
    requires rt.parseFloat("") == None
    ensures LineCost(rt, mats, line) == Catalog.LineCost(rt, mats, line)
  {
    var u := ResolvedUnitCost(mats, line);
    if Truthy(line.isShared) && line.unitCost.Ref? {
      var v := if line.unitCost.path in mats then mats[line.unitCost.path] else Undefined;
      assert NumOr0(rt, u) == NumOr0(rt, v);
    }
    assert NumOr0(rt, u) == Catalog.UnitCostOf(rt, mats, line);
  }

  /** So a table costs what the shipping page computes for it. */
  lemma {:induction false} TableCostAgrees(rt: Runtime, mats: Catalog.Materials, items: seq<Catalog.StoredLine>)
    requires rt.parseFloat("") == None
    ensures TableCost(rt, mats, items) == Catalog.BomCost(rt, mats, items)
  {
    if items != [] {
      TableCostAgrees(rt, mats, items[..|items| - 1]);
      LineCostAgrees(rt, mats, items[|items| - 1]);
    }
  }

  // -----------------------------------------------------------------------
  // Rows

  datatype ProfitRow = ProfitRow(id: string, tableName: string, totalCost: real, websitePrice: Value, category: string)

  /** The row fetchBomTables builds for one document. */
  function RowOf(rt: Runtime, mats: Catalog.Materials, cats: Catalog.Categories, doc: Catalog.PricedDoc): (r: ProfitRow)
    ensures r.id == doc.id && r.totalCost == TableCost(rt, mats, doc.items)
    ensures r.tableName == (if doc.tableName == "" then "未命名表格" else doc.tableName)
    ensures r.websitePrice == Catalog.OrElse(doc.websitePrice, Str(""))
    ensures r.category == Catalog.CategoryOf(cats, doc.category)
  {
    ProfitRow(
      doc.id, if doc.tableName == "" then "未命名表格" else doc.tableName,
      TableCost(rt, mats, doc.items), Catalog.OrElse(doc.websitePrice, Str("")),
      Catalog.CategoryOf(cats, doc.category))
  }

  function RowIn(rt: Runtime, mats: Catalog.Materials, cats: Catalog.Categories): Catalog.PricedDoc -> ProfitRow {
    doc => RowOf(rt, mats, cats, doc)
  }

  /** The sort of the fetched rows: by category only. */
  predicate CategoryLe(a: ProfitRow, b: ProfitRow) {
    LexLe(a.category, b.category)
  }

  lemma CategoryLeTotalPreorder()
    ensures TotalPreorder(CategoryLe)
  {
    forall a, b ensures CategoryLe(a, b) || CategoryLe(b, a) {
      LexLeTotal(a.category, b.category);
    }
    forall a, b, c | CategoryLe(a, b) && CategoryLe(b, c) ensures CategoryLe(a, c) {
      LexLeTrans(a.category, b.category, c.category);
    }
  }

  /** The rows of fetchBomTables. */
  function FetchedRows(rt: Runtime, mats: Catalog.Materials, cats: Catalog.Categories, docs: seq<Catalog.PricedDoc>): seq<ProfitRow> {
    SortBy(Map(docs, RowIn(rt, mats, cats)), CategoryLe)
  }

  /** One row per document, sorted by category. */
  lemma FetchedRowsSpec(rt: Runtime, mats: Catalog.Materials, cats: Catalog.Categories, docs: seq<Catalog.PricedDoc>)
    ensures |FetchedRows(rt, mats, cats, docs)| == |docs|
    ensures multiset(FetchedRows(rt, mats, cats, docs)) == multiset(Map(docs, RowIn(rt, mats, cats)))
    ensures SortedBy(FetchedRows(rt, mats, cats, docs), CategoryLe)
  {
    CategoryLeTotalPreorder();
    SortBySpec(Map(docs, RowIn(rt, mats, cats)), CategoryLe);
  }

  /** handleWebsitePriceChange. */
  function PriceChangeIn(id: string, value: Value): ProfitRow -> ProfitRow {
    (row: ProfitRow) => if row.id == id then row.(websitePrice := value) else row
  }

  function HandleWebsitePriceChange(rows: seq<ProfitRow>, id: string, value: Value): seq<ProfitRow> {
    Map(rows, PriceChangeIn(id, value))
  }

  /** The edit sets the website price of the rows with that id and touches
      nothing else; doing it twice is doing it once, and an unknown id
      changes nothing. */
  lemma WebsitePriceChangeSpec(rows: seq<ProfitRow>, id: string, value: Value)
    ensures var r := HandleWebsitePriceChange(rows, id, value);
      && |r| == |rows|
      && (forall i :: 0 <= i < |rows| ==>
            r[i].id == rows[i].id && r[i].tableName == rows[i].tableName
            && r[i].totalCost == rows[i].totalCost && r[i].category == rows[i].category
            && r[i].websitePrice == (if rows[i].id == id then value else rows[i].websitePrice))
      && HandleWebsitePriceChange(r, id, value) == r
      && ((forall i :: 0 <= i < |rows| ==> rows[i].id != id) ==> r == rows)
  {
    var r := HandleWebsitePriceChange(rows, id, value);
    assert HandleWebsitePriceChange(r, id, value) == r;
  }

  // -----------------------------------------------------------------------
  // Margins

  /** A margin as the page shows it: '-' or a percentage. */
  datatype Margin = NoMargin | Percent(value: real)

  /** calculateProfitMargin: the margin against the price without its 5%
      VAT; '-' when the price does not parse or is not positive. */
  function ProfitMargin(rt: Runtime, websitePrice: Value, totalCost: real): (m: Margin)
    ensures m.NoMargin? <==> ParseFloat(rt, websitePrice).None? || ParseFloat(rt, websitePrice).value <= 0.0
  {
    match ParseFloat(rt, websitePrice)
    case None => NoMargin
    case Some(price) =>
      if price <= 0.0 then NoMargin
      else Percent((((price / 1.05) - totalCost) / (price / 1.05)) * 100.0)
  }

  lemma NetOfVat(price: real, cost: real)
    requires price > 0.0
    ensures (((price / 1.05) - cost) / (price / 1.05)) * 100.0 == 100.0 - 105.0 * cost / price
  {
    var q := price / 1.05;
    assert q * 1.05 == price;
    var x := cost / q;
    assert x * q == cost;
    assert q - cost == (1.0 - x) * q;
    DivOfProduct(1.0 - x, q, q - cost);
    assert 1.05 * cost == x * price;
    DivOfProduct(x, price, 1.05 * cost);
    assert 105.0 * cost / price == 100.0 * (1.05 * cost / price);
  }

  /** For a positive price p the margin is 100 − 105·cost/p: it is 100 for a
      free table, at least 0 exactly when the cost does not exceed the price
      net of VAT, and it drops as the cost grows. */
  lemma ProfitMarginSpec(rt: Runtime, websitePrice: Value, totalCost: real)
    requires ParseFloat(rt, websitePrice).Some? && ParseFloat(rt, websitePrice).value > 0.0
    ensures var p := ParseFloat(rt, websitePrice).value;
      var m := ProfitMargin(rt, websitePrice, totalCost);
      && m.Percent?
      && m.value == 100.0 - 105.0 * totalCost / p
      && (totalCost == 0.0 ==> m.value == 100.0)
      && (m.value >= 0.0 <==> totalCost <= p / 1.05)
  {
    var p := ParseFloat(rt, websitePrice).value;
    NetOfVat(p, totalCost);
    if totalCost <= p / 1.05 {
      assert 105.0 * totalCost / p <= 100.0;
    } else {
      assert 105.0 * totalCost / p > 100.0;
    }
  }

  /** A higher cost never gives a higher margin at the same price. */
  lemma ProfitMarginMonotone(rt: Runtime, websitePrice: Value, c1: real, c2: real)
    requires c1 <= c2
    ensures ProfitMargin(rt, websitePrice, c1).Percent? ==>
      ProfitMargin(rt, websitePrice, c2).Percent? && ProfitMargin(rt, websitePrice, c2).value <= ProfitMargin(rt, websitePrice, c1).value
  {
    if ProfitMargin(rt, websitePrice, c1).Percent? {
      ProfitMarginSpec(rt, websitePrice, c1);
      ProfitMarginSpec(rt, websitePrice, c2);
      var p := ParseFloat(rt, websitePrice).value;
      DivMono(105.0 * c1, 105.0 * c2, p);
    }
  }

  lemma DivMono(a: real, b: real, p: real)
    requires a <= b && p > 0.0
    ensures a / p <= b / p
  {
    assert b / p - a / p == (b - a) / p;
    assert (b - a) / p >= 0.0;
  }

  /** calculateNetProfitMargin: the gross margin less the order cost rate
      (None when that rate is NaN); '-' carries over. */
  function NetProfitMargin(rt: Runtime, websitePrice: Value, totalCost: real, costOrderRate: Option<real>): (m: Margin)
    ensures m.NoMargin? <==> ProfitMargin(rt, websitePrice, totalCost).NoMargin? || costOrderRate.None?
  {
    match ProfitMargin(rt, websitePrice, totalCost)
    case NoMargin => NoMargin
    case Percent(gross) => if costOrderRate.None? then NoMargin else Percent(gross - costOrderRate.value)
  }

  /** The net margin is the gross margin shifted down by the rate: equal to
      it at rate 0, below it for a positive rate. */
  lemma NetProfitMarginSpec(rt: Runtime, websitePrice: Value, totalCost: real, rate: real)
    ensures var g := ProfitMargin(rt, websitePrice, totalCost);
      var n := NetProfitMargin(rt, websitePrice, totalCost, Some(rate));
      && (g.Percent? <==> n.Percent?)
      && (g.Percent? ==> n.value + rate == g.value)
      && (rate == 0.0 ==> n == g)
  {
  }

  // -----------------------------------------------------------------------
  // Search

  /** A row matches when its category or name contains the term (both lower
      cased), or the printed cost or the website price contains the term as
      typed. */
  predicate Matches(rt: Runtime, term: string, row: ProfitRow) {
    || Includes(Lower(row.category), Lower(term))
    || Includes(Lower(row.tableName), Lower(term))
    || Includes(PropertyKey(rt, Num(row.totalCost)), term)
    || (Truthy(row.websitePrice) && Includes(PropertyKey(rt, row.websitePrice), term))
  }

  function MatchesIn(rt: Runtime, term: string): ProfitRow -> bool {
    row => Matches(rt, term, row)
  }

  /** filteredBomTables. */
  function FilteredBomTables(rt: Runtime, rows: seq<ProfitRow>, term: string): seq<ProfitRow> {
    Filter(rows, MatchesIn(rt, term))
  }

  lemma FilterAll(rt: Runtime, rows: seq<ProfitRow>)
    ensures FilteredBomTables(rt, rows, "") == rows
  {
    forall r ensures MatchesIn(rt, "")(r) {
      IncludesEmpty(Lower(r.category));
    }
    FilterKeepsAll(rows, MatchesIn(rt, ""));
  }

  /** The filter keeps exactly the matching rows (that it keeps their order
      is Seqs.FilterConcat); a row whose
      website price contains the term matches even when its name does not,
      and an empty search keeps every row. */
  lemma FilteredSpec(rt: Runtime, rows: seq<ProfitRow>, term: string)
    ensures forall r :: r in FilteredBomTables(rt, rows, term) <==> r in rows && Matches(rt, term, r)
    ensures |FilteredBomTables(rt, rows, term)| == Count(rows, MatchesIn(rt, term))
    ensures term == "" ==> FilteredBomTables(rt, rows, term) == rows
  {
    if term == "" {
      FilterAll(rt, rows);
    }
  }

  /** A website price given as text whose text contains the term makes the
      row match. */
  lemma PriceTextMatches(rt: Runtime, term: string, row: ProfitRow)
    requires row.websitePrice.Str? && Includes(row.websitePrice.s, term) && row.websitePrice.s != ""
    ensures Matches(rt, term, row)
  {
  }
}
