/** The first half of the shipping page's box calculation: every order row
    of the uploaded sheet is read, its SKU token is parsed, it is matched
    against the BOM tables and then the bundles, and its quantity is added
    to a per-SKU tally. */
module ShippingRows {
  import opened Js
  import opened Seqs
  import opened Catalog

  /** A cell as sheet_to_json gives it with its default options: text, a
      number or a boolean. */
  datatype Cell = Text(s: string) | Number(x: real) | Boolean(b: bool)

  function CellValue(c: Cell): Value {
    match c
    case Text(s) => Str(s)
    case Number(x) => Num(x)
    case Boolean(b) => Bool(b)
  }

  /** String(c): a text cell is its own text. */
  function CellText(rt: Runtime, c: Cell): (t: string)
    ensures c.Text? ==> t == c.s
  {
    PropertyKey(rt, CellValue(c))
  }

  /** One sheet row: header text to cell. */
  type OrderRow = map<string, Cell>

  /** A cell is filled when it is present and truthy: not "", 0 or false. */
  predicate Filled(row: OrderRow, k: string) {
    k in row && Truthy(CellValue(row[k]))
  }

  /** `row[k0] || row[k1] || ... || d`: the first filled cell among the
      headers, or the default. */
  function FirstFilled(row: OrderRow, keys: seq<string>, d: Cell): Cell {
    if keys == [] then d
    else if Filled(row, keys[0]) then row[keys[0]]
    else FirstFilled(row, keys[1..], d)
  }

  /** The fallback chain yields the default when no header is filled, and
      otherwise the cell of the first filled header; it is never empty when
      the default is not. */
  lemma FirstFilledSpec(row: OrderRow, keys: seq<string>, d: Cell)
    ensures (forall i :: 0 <= i < |keys| ==> !Filled(row, keys[i])) ==> FirstFilled(row, keys, d) == d
    ensures forall i :: 0 <= i < |keys| && Filled(row, keys[i]) && (forall j :: 0 <= j < i ==> !Filled(row, keys[j])) ==>
      FirstFilled(row, keys, d) == row[keys[i]]
    ensures Truthy(CellValue(d)) ==> Truthy(CellValue(FirstFilled(row, keys, d)))
  {
    if forall i :: 0 <= i < |keys| ==> !Filled(row, keys[i]) {
      FirstFilledNone(row, keys, d);
    }
    forall i | 0 <= i < |keys| && Filled(row, keys[i]) && (forall j :: 0 <= j < i ==> !Filled(row, keys[j]))
      ensures FirstFilled(row, keys, d) == row[keys[i]]
    {
      FirstFilledAt(row, keys, d, i);
    }
    FirstFilledNonEmpty(row, keys, d);
  }

  lemma {:induction false} FirstFilledNone(row: OrderRow, keys: seq<string>, d: Cell)
    requires forall i :: 0 <= i < |keys| ==> !Filled(row, keys[i])
    ensures FirstFilled(row, keys, d) == d
  {
    if keys != [] {
      assert !Filled(row, keys[0]);
      forall i | 0 <= i < |keys[1..]|
        ensures !Filled(row, keys[1..][i])
      {
        assert keys[1..][i] == keys[i + 1];
      }
      FirstFilledNone(row, keys[1..], d);
    }
  }

  lemma {:induction false} FirstFilledAt(row: OrderRow, keys: seq<string>, d: Cell, i: nat)
    requires i < |keys| && Filled(row, keys[i])
    requires forall j :: 0 <= j < i ==> !Filled(row, keys[j])
    ensures FirstFilled(row, keys, d) == row[keys[i]]
    decreases i
  {
    if i > 0 {
      assert !Filled(row, keys[0]);
      forall j | 0 <= j < i - 1
        ensures !Filled(row, keys[1..][j])
      {
        assert keys[1..][j] == keys[j + 1];
      }
      assert keys[1..][i - 1] == keys[i];
      FirstFilledAt(row, keys[1..], d, i - 1);
    }
  }

  lemma {:induction false} FirstFilledNonEmpty(row: OrderRow, keys: seq<string>, d: Cell)
    ensures Truthy(CellValue(d)) ==> Truthy(CellValue(FirstFilled(row, keys, d)))
  {
    if keys != [] && !Filled(row, keys[0]) {
      FirstFilledNonEmpty(row, keys[1..], d);
    }
  }

  /** `parseInt(row['數量'] || row['quantity'] || 1)`, where parseInt reads
      String(v): a cell holding the number 0, "" or false is passed over. */
  function OrderQuantity(rt: Runtime, row: OrderRow): (q: int)
    ensures !Filled(row, "數量") && !Filled(row, "quantity") ==> q == 1
    ensures Filled(row, "數量") ==> q == rt.parseInt(CellText(rt, row["數量"]))
    ensures !Filled(row, "數量") && Filled(row, "quantity") ==> q == rt.parseInt(CellText(rt, row["quantity"]))
    ensures "數量" in row && row["數量"] == Number(0.0) && !Filled(row, "quantity") ==> q == 1
    ensures "數量" in row && row["數量"] == Number(0.0) && Filled(row, "quantity") ==> q == rt.parseInt(CellText(rt, row["quantity"]))
  {
    if Filled(row, "數量") then rt.parseInt(CellText(rt, row["數量"]))
    else if Filled(row, "quantity") then rt.parseInt(CellText(rt, row["quantity"]))
    else 1
  }

  /** A quantity cell holding the number 0 is passed over: the row counts
      as one piece unless its `quantity` cell says otherwise. */
  lemma ZeroQuantityCell(rt: Runtime, row: OrderRow)
    requires "數量" in row && row["數量"] == Number(0.0)
    ensures OrderQuantity(rt, row) == if Filled(row, "quantity") then rt.parseInt(CellText(rt, row["quantity"])) else 1
  {
  }

  /** isNaN(s) is false. isNaN coerces with Number, so "" and blanks count as numbers. */
  predicate IsNumeric(rt: Runtime, s: string) {
    ToNumber(rt, Str(s)).Some?
  }

  /** The `CODE*N` rule: a SKU with a '*' that splits into exactly two parts,
      the second numeric, becomes the trimmed first part with the star
      quantity parseInt of the second; any other SKU is kept with star
      quantity 1. */
  function ParseSku(rt: Runtime, raw: string): (string, int) {
    if '*' in raw then
      var parts := Split(raw, '*');
      if |parts| == 2 && IsNumeric(rt, parts[1]) then (Trim(parts[0]), rt.parseInt(parts[1]))
      else (raw, 1)
    else (raw, 1)
  }

  /** A SKU is rewritten exactly when it holds one '*' and the text after it
      is numeric; it is then the trimmed text before the star, and the star
      splits the token into those two texts. */
  lemma StarSkuSpec(rt: Runtime, raw: string)
    ensures |Split(raw, '*')| == 2 <==> Occurrences(raw, '*') == 1
    ensures var parts := Split(raw, '*');
      |parts| == 2 && IsNumeric(rt, parts[1]) ==>
        && raw == parts[0] + ['*'] + parts[1]
        && '*' !in parts[0] && '*' !in parts[1]
        && ParseSku(rt, raw) == (Trim(parts[0]), rt.parseInt(parts[1]))
    ensures var parts := Split(raw, '*');
      !(|parts| == 2 && IsNumeric(rt, parts[1])) ==> ParseSku(rt, raw) == (raw, 1)
  {
    var parts := Split(raw, '*');
    SplitSpec(raw, '*');
    OccurrencesNone(raw, '*');
    if |parts| == 2 {
      assert parts[1..] == [parts[1]];
      assert Join(parts, '*') == parts[0] + ['*'] + parts[1];
      assert parts[0] in parts && parts[1] in parts;
    }
  }

  /** Example: the token "SS005*5" stands for 5 of SS005. */
  lemma StarSkuExample(rt: Runtime)
    requires rt.toNumber("5") == Some(5.0) && rt.parseInt("5") == 5
    ensures ParseSku(rt, "SS005*5") == ("SS005", 5)
  {
    var raw := "SS005*5";
    assert raw[5] == '*';
    StarSplitExample();
    var parts := Split(raw, '*');
    assert parts[0] == "SS005" && parts[1] == "5";
    TrimExample();
    assert IsNumeric(rt, parts[1]);
  }

  lemma TrimExample()
    ensures Trim("SS005") == "SS005" && Trim("5") == "5"
  {
    TrimTrimmed("SS005");
    TrimTrimmed("5");
  }

  lemma StarSplitExample()
    ensures Split("SS005*5", '*') == ["SS005", "5"]
  {
    var raw := "SS005*5";
    assert raw[..5] == "SS005" && raw[6..] == "5";
    assert '*' !in raw[..5];
    assert IndexOfChar(raw, '*') == 5;
    assert Split("5", '*') == ["5"];
  }

  // -----------------------------------------------------------------------
  // Matching

  datatype Matched = ByBom(bom: BomEntry) | ByBundle(bundle: BundleEntry) | NoMatch

  function HasCode(sku: string): BomEntry -> bool { (b: BomEntry) => b.productCode == Str(sku) }
  function BundleHasCode(sku: string): BundleEntry -> bool { (b: BundleEntry) => b.productCode == Str(sku) }

  /** The BOM tables are searched first, and the bundles only when no BOM
      table carries the SKU as its product code; the first hit wins. */
  function MatchSku(boms: seq<BomEntry>, bundles: seq<BundleEntry>, sku: string): (m: Matched)
    ensures m.ByBom? <==> exists i :: 0 <= i < |boms| && boms[i].productCode == Str(sku)
    ensures m.ByBom? ==> exists i ::
      && 0 <= i < |boms| && boms[i] == m.bom && boms[i].productCode == Str(sku)
      && forall j :: 0 <= j < i ==> boms[j].productCode != Str(sku)
    ensures m.ByBundle? ==> exists i ::
      && 0 <= i < |bundles| && bundles[i] == m.bundle && bundles[i].productCode == Str(sku)
      && forall j :: 0 <= j < i ==> bundles[j].productCode != Str(sku)
    ensures m.NoMatch? <==>
      && (forall i :: 0 <= i < |boms| ==> boms[i].productCode != Str(sku))
      && (forall i :: 0 <= i < |bundles| ==> bundles[i].productCode != Str(sku))
  {
    match FindFirst(boms, HasCode(sku))
    case Some(i) => ByBom(boms[i])
    case None =>
      match FindFirst(bundles, BundleHasCode(sku))
      case Some(i) => ByBundle(bundles[i])
      case None => NoMatch
  }

  function HasId(id: string): BomEntry -> bool { (b: BomEntry) => b.id == id }

  /** What one component adds to a bundle row's unit cost: the cost of the
      BOM table with the component's id times the component quantity, or
      nothing when that table is missing or its cost is 0. */
  function ComponentRowCost(boms: seq<BomEntry>, c: Component): real {
    match FindFirst(boms, HasId(c.id))
    case Some(i) => if boms[i].cost != 0.0 then boms[i].cost * c.quantity else 0.0
    case None => 0.0
  }

  function ComponentRowCostIn(boms: seq<BomEntry>): Component -> real {
    c => ComponentRowCost(boms, c)
  }

  /** The unit cost of a row matched to a bundle. */
  function BundleRowCost(boms: seq<BomEntry>, comps: seq<Component>): real {
    Sum(comps, ComponentRowCostIn(boms))
  }

  // -----------------------------------------------------------------------
  // Processed rows

  datatype Status = Matched | Unmatched
  datatype Source = FromBom | FromCustom | FromNone

  datatype ProcessedOrder = ProcessedOrder(
    orderNumber: string, customerName: string, address: string, phone: string,
    sku: string, productName: string,
    quantity: int, orderQuantity: int, starQuantity: int,
    unitVolume: real, totalVolume: real, unitCost: real, totalCost: real,
    status: Status, source: Source, bomName: Value,
    customComponents: Option<seq<Component>>)

  /** An amount per piece times a number of pieces. */
  function Times(x: real, n: int): real {
    x * n as real
  }

  /** The SKU cell: `order["SKU"] || order["sku"] || order["商品編號"] || "未知"`. */
  function RawSku(row: OrderRow): Cell {
    FirstFilled(row, ["SKU", "sku", "商品編號"], Text("未知"))
  }

  /** `sku.includes('*')` needs a string: on a number or a boolean it throws
      a TypeError, which ends the whole calculation (ProcessOrders). */
  predicate SkuIsText(row: OrderRow) {
    RawSku(row).Text?
  }

  /** The SKU text of a row whose SKU cell is text. */
  function SkuText(rt: Runtime, row: OrderRow): (s: string)
    ensures SkuIsText(row) ==> s == RawSku(row).s
  {
    CellText(rt, RawSku(row))
  }

  /** The processed row for an order whose SKU and star quantity are parsed
      and whose match is found. An unmatched row keeps the source 'bom' the
      code starts from. */
  function BuildRow(rt: Runtime, boms: seq<BomEntry>, row: OrderRow, sku: string, starQuantity: int, m: Matched): (r: ProcessedOrder)
    ensures r.sku == sku && r.starQuantity == starQuantity
    ensures r.orderQuantity == OrderQuantity(rt, row)
    ensures r.quantity == r.orderQuantity * r.starQuantity
    ensures r.totalCost == Times(r.unitCost, r.quantity)
    ensures r.totalVolume == Times(r.unitVolume, r.quantity)
    ensures r.status == Unmatched <==> m.NoMatch?
    ensures IsBomMatch(r) <==> m.ByBom?
    ensures IsCustomMatch(r) <==> m.ByBundle?
    ensures m.NoMatch? ==>
      r.unitVolume == 0.0 && r.totalVolume == 0.0 && r.unitCost == 0.0 && r.totalCost == 0.0
    ensures m.ByBom? ==> r.unitCost == m.bom.cost && r.unitVolume == m.bom.volume
    ensures m.ByBundle? ==>
      && r.unitCost == BundleRowCost(boms, m.bundle.components)
      && r.unitVolume == m.bundle.volume
      && r.customComponents == Some(m.bundle.components)
  {
    var orderNumber := CellText(rt, FirstFilled(row, ["訂單編號", "order_number"], Text("未知")));
    var customerName := CellText(rt, FirstFilled(row, ["收件人名稱", "customer_name"], Text("未知")));
    var orderQuantity := OrderQuantity(rt, row);
    var quantity := orderQuantity * starQuantity;
    var address := CellText(rt, FirstFilled(row, ["收件人地址", "address"], Text("未知")));
    var phone := CellText(rt, FirstFilled(row, ["收件人電話", "phone"], Text("未知")));
    var productName := CellText(rt, FirstFilled(row, ["商品名稱", "product_name"], Text("未知")));
    match m
    case ByBom(b) =>
      ProcessedOrder(orderNumber, customerName, address, phone, sku, productName,
        quantity, orderQuantity, starQuantity, b.volume, Times(b.volume, quantity), b.cost, Times(b.cost, quantity),
        Matched, FromBom, OrElse(b.tableName, Undefined), None)
    case ByBundle(c) =>
      var unitCost := BundleRowCost(boms, c.components);
      ProcessedOrder(orderNumber, customerName, address, phone, sku, productName,
        quantity, orderQuantity, starQuantity, c.volume, Times(c.volume, quantity), unitCost, Times(unitCost, quantity),
        Matched, FromCustom, c.name, Some(c.components))
    case NoMatch =>
      ProcessedOrder(orderNumber, customerName, address, phone, sku, productName,
        quantity, orderQuantity, starQuantity, 0.0, 0.0, 0.0, 0.0,
        Unmatched, FromBom, Str("未找到匹配的商品"), None)
  }

  /** The row callback of calculateBoxTypes, for a row whose SKU cell is
      text; on any other row the callback throws (ProcessOrders). */
  function ProcessOrder(rt: Runtime, boms: seq<BomEntry>, bundles: seq<BundleEntry>, row: OrderRow): ProcessedOrder {
    var parsed := ParseSku(rt, SkuText(rt, row));
    BuildRow(rt, boms, row, parsed.0, parsed.1, MatchSku(boms, bundles, parsed.0))
  }

  /** A processed row carries the parsed SKU and the effective quantity
      orderQuantity × starQuantity; it is unmatched exactly when neither a
      BOM table nor a bundle has the SKU as product code, and then all its
      volumes and costs are 0; it is a bundle row exactly when no BOM table
      but some bundle has the code. */
  lemma ProcessOrderSpec(rt: Runtime, boms: seq<BomEntry>, bundles: seq<BundleEntry>, row: OrderRow)
    ensures var r := ProcessOrder(rt, boms, bundles, row);
      && (r.sku, r.starQuantity) == ParseSku(rt, SkuText(rt, row))
      && r.quantity == OrderQuantity(rt, row) * r.starQuantity
      && r.totalCost == Times(r.unitCost, r.quantity)
      && r.totalVolume == Times(r.unitVolume, r.quantity)
      && (r.status == Unmatched <==>
          && (forall i :: 0 <= i < |boms| ==> boms[i].productCode != Str(r.sku))
          && (forall i :: 0 <= i < |bundles| ==> bundles[i].productCode != Str(r.sku)))
      && (r.status == Unmatched ==> r.totalVolume == 0.0 && r.totalCost == 0.0 && r.unitCost == 0.0 && r.unitVolume == 0.0)
      && (IsBomMatch(r) <==> exists i :: 0 <= i < |boms| && boms[i].productCode == Str(r.sku))
      && (IsCustomMatch(r) ==> forall i :: 0 <= i < |boms| ==> boms[i].productCode != Str(r.sku))
  {
    var parsed := ParseSku(rt, SkuText(rt, row));
    var m := MatchSku(boms, bundles, parsed.0);
    var r := BuildRow(rt, boms, row, parsed.0, parsed.1, m);
    assert ProcessOrder(rt, boms, bundles, row) == r;
  }

  predicate IsBomMatch(r: ProcessedOrder) { r.status == Matched && r.source == FromBom }
  predicate IsCustomMatch(r: ProcessedOrder) { r.status == Matched && r.source == FromCustom }
  predicate IsUnmatched(r: ProcessedOrder) { r.status == Unmatched }

  lemma CountStep(rows: seq<ProcessedOrder>, r: ProcessedOrder, p: ProcessedOrder -> bool)
    ensures Count(rows + [r], p) == Count(rows, p) + (if p(r) then 1 else 0)
  {
    assert (rows + [r])[..|rows + [r]| - 1] == rows;
  }

  // -----------------------------------------------------------------------
  // The per-SKU tally, a dictionary in insertion order

  /** A counting dictionary: its keys in insertion order and their counts. */
  datatype Tally = Tally(keys: seq<string>, counts: map<string, real>)

  ghost predicate TallyValid(t: Tally) {
    Distinct(t.keys) && (forall k :: k in t.counts <==> k in t.keys)
  }

  /** `if (k in c) c[k] += v; else c[k] = v;` */
  function TallyAdd(t: Tally, k: string, v: real): Tally {
    if k in t.counts then Tally(t.keys, t.counts[k := t.counts[k] + v])
    else Tally(t.keys + [k], t.counts[k := v])
  }

  /** The dictionary update `if (k in c) c[k] += v; else c[k] = v;`. */
  method Bump(t: Tally, k: string, v: real) returns (t': Tally)
    ensures t' == TallyAdd(t, k, v)
  {
    if k in t.counts {
      t' := t.(counts := t.counts[k := t.counts[k] + v]);
    } else {
      t' := Tally(t.keys + [k], t.counts[k := v]);
    }
  }

  function PairKey(p: (string, real)): string { p.0 }
  function PairValue(p: (string, real)): real { p.1 }

  /** The tally of a sequence of (key, amount) additions. */
  function TallyOf(pairs: seq<(string, real)>): Tally {
    if pairs == [] then Tally([], map[])
    else
      var p := pairs[|pairs| - 1];
      TallyAdd(TallyOf(pairs[..|pairs| - 1]), p.0, p.1)
  }

  /** A tally lists every key once, in first-occurrence order, and counts
      for each key exactly the sum of the amounts added under it. */
  lemma TallySpec(pairs: seq<(string, real)>)
    ensures TallyValid(TallyOf(pairs))
    ensures TallyOf(pairs).keys == Dedupe(Map(pairs, PairKey))
    ensures forall k :: k in TallyOf(pairs).counts ==>
      TallyOf(pairs).counts[k] == Sum(Having(pairs, PairKey, k), PairValue)
  {
    TallyKeys(pairs);
    forall k | k in TallyOf(pairs).counts
      ensures TallyOf(pairs).counts[k] == Sum(Having(pairs, PairKey, k), PairValue)
    {
      TallyCount(pairs, k);
    }
  }

  lemma {:induction false} TallyKeys(pairs: seq<(string, real)>)
    ensures TallyValid(TallyOf(pairs))
    ensures TallyOf(pairs).keys == Dedupe(Map(pairs, PairKey))
  {
    if pairs != [] {
      var init := pairs[..|pairs| - 1];
      var p := pairs[|pairs| - 1];
      assert pairs == init + [p];
      TallyKeys(init);
      MapSnoc(init, p, PairKey);
      DedupeSnoc(Map(init, PairKey), p.0);
    }
  }

  lemma {:induction false} TallyCount(pairs: seq<(string, real)>, k: string)
    ensures k in TallyOf(pairs).counts ==> TallyOf(pairs).counts[k] == Sum(Having(pairs, PairKey, k), PairValue)
    ensures k !in TallyOf(pairs).counts ==> Having(pairs, PairKey, k) == []
  {
    if pairs != [] {
      var init := pairs[..|pairs| - 1];
      var p := pairs[|pairs| - 1];
      assert pairs == init + [p];
      TallyCount(init, k);
      PairHavingSnoc(init, p, k);
    }
  }

  /** `counter[k] || 0`: the count of a key, 0 when it was never added. */
  function CountOf(t: Tally, k: string): real {
    if k in t.counts then t.counts[k] else 0.0
  }

  function CountIn(t: Tally): string -> real { k => CountOf(t, k) }

  /** The count of any key is the sum of the amounts added under it. */
  lemma TallyCountOf(pairs: seq<(string, real)>, k: string)
    ensures CountOf(TallyOf(pairs), k) == Sum(Having(pairs, PairKey, k), PairValue)
  {
    TallyCount(pairs, k);
  }

  /** A tally conserves the amounts: the counts over its keys add up to the
      sum of everything added. */
  lemma TallyTotal(pairs: seq<(string, real)>)
    ensures Sum(TallyOf(pairs).keys, CountIn(TallyOf(pairs))) == Sum(pairs, PairValue)
  {
    var t := TallyOf(pairs);
    TallyKeys(pairs);
    forall k ensures CountIn(t)(k) == Sum(Having(pairs, PairKey, k), PairValue) {
      TallyCountOf(pairs, k);
    }
    SumPerBy(pairs, PairKey, t.keys, PairValue, CountIn(t));
    PartitionSum(pairs, PairKey, PairValue);
  }

  lemma PairHavingSnoc(init: seq<(string, real)>, p: (string, real), k: string)
    ensures Having(init + [p], PairKey, k) == Having(init, PairKey, k) + (if p.0 == k then [p] else [])
    ensures Sum(Having(init + [p], PairKey, k), PairValue)
         == Sum(Having(init, PairKey, k), PairValue) + (if p.0 == k then p.1 else 0.0)
  {
    var h := Having(init, PairKey, k);
    var extra := if PairKey(p) == k then [p] else [];
    HavingSnoc(init, p, PairKey, k);
    SumConcat(h, extra, PairValue);
    if PairKey(p) == k {
      SumSingle(p, PairValue);
    }
  }

  function RowSkuPair(r: ProcessedOrder): (string, real) { (r.sku, r.quantity as real) }

  /** The SKU tally of calculateBoxTypes. */
  function SkuTally(rows: seq<ProcessedOrder>): Tally {
    TallyOf(Map(rows, RowSkuPair))
  }

  /** Adding one row to the rows tallied adds its quantity under its SKU. */
  lemma SkuTallyStep(rows: seq<ProcessedOrder>, r: ProcessedOrder)
    ensures SkuTally(rows + [r]) == TallyAdd(SkuTally(rows), r.sku, r.quantity as real)
  {
    MapSnoc(rows, r, RowSkuPair);
    var m := Map(rows, RowSkuPair) + [RowSkuPair(r)];
    assert m[..|m| - 1] == Map(rows, RowSkuPair);
  }

  function ProcessOrderIn(rt: Runtime, boms: seq<BomEntry>, bundles: seq<BundleEntry>): OrderRow -> ProcessedOrder {
    row => ProcessOrder(rt, boms, bundles, row)
  }

  /** The body of the row loop: parse, match and build one row, and say
      which counter it raises. */
  method ProcessOne(rt: Runtime, boms: seq<BomEntry>, bundles: seq<BundleEntry>, row: OrderRow)
    returns (r: ProcessedOrder, isBom: bool, isCustom: bool)
    ensures r == ProcessOrder(rt, boms, bundles, row)
    ensures isBom == IsBomMatch(r) && isCustom == IsCustomMatch(r)
    ensures IsUnmatched(r) <==> !isBom && !isCustom
    ensures !(isBom && isCustom)
  {
    var parsed := ParseSku(rt, SkuText(rt, row));
    var sku := parsed.0;
    var m := MatchSku(boms, bundles, sku);
    r := BuildRow(rt, boms, row, sku, parsed.1, m);
    isBom := m.ByBom?;
    isCustom := m.ByBundle?;
  }

  /** The counters after one more row: the SKU dictionary gets its
      quantity, and the counter of its match, if any, goes up by one. */
  method CountRow(rows: seq<ProcessedOrder>, bomMatchCount: nat, customMatchCount: nat, skuCounter: Tally,
                  r: ProcessedOrder, isBom: bool, isCustom: bool)
    returns (bomMatchCount': nat, customMatchCount': nat, skuCounter': Tally)
    requires bomMatchCount == Count(rows, IsBomMatch) && customMatchCount == Count(rows, IsCustomMatch)
    requires skuCounter == SkuTally(rows)
    requires isBom == IsBomMatch(r) && isCustom == IsCustomMatch(r)
    requires IsUnmatched(r) <==> !isBom && !isCustom
    requires !(isBom && isCustom)
    ensures bomMatchCount' == Count(rows + [r], IsBomMatch)
    ensures customMatchCount' == Count(rows + [r], IsCustomMatch)
    ensures bomMatchCount' + customMatchCount' + Count(rows + [r], IsUnmatched)
      == bomMatchCount + customMatchCount + Count(rows, IsUnmatched) + 1
    ensures skuCounter' == SkuTally(rows + [r])
  {
    skuCounter' := Bump(skuCounter, r.sku, r.quantity as real);
    bomMatchCount', customMatchCount' := bomMatchCount, customMatchCount;
    if isBom {
      bomMatchCount' := bomMatchCount + 1;
    } else if isCustom {
      customMatchCount' := customMatchCount + 1;
    }
    CountStep(rows, r, IsBomMatch);
    CountStep(rows, r, IsCustomMatch);
    CountStep(rows, r, IsUnmatched);
    SkuTallyStep(rows, r);
  }

  /** Every row's SKU cell is text, so the row loop runs to the end. */
  predicate SkusAreText(orders: seq<OrderRow>) {
    forall i :: 0 <= i < |orders| ==> SkuIsText(orders[i])
  }

  /** The rows, the two match counters and the SKU dictionary after the
      loop has processed the given orders. */
  predicate ProcessedAs(rt: Runtime, boms: seq<BomEntry>, bundles: seq<BundleEntry>, orders: seq<OrderRow>,
                        rows: seq<ProcessedOrder>, bomMatchCount: nat, customMatchCount: nat, skuCounter: Tally)
  {
    && rows == Map(orders, ProcessOrderIn(rt, boms, bundles))
    && bomMatchCount == Count(rows, IsBomMatch)
    && customMatchCount == Count(rows, IsCustomMatch)
    && bomMatchCount + customMatchCount + Count(rows, IsUnmatched) == |orders|
    && skuCounter == SkuTally(rows)
  }

  /** The `orders.map` loop of calculateBoxTypes with its match counters and
      its SKU dictionary. Each row raises at most one of the two counters.
      The loop fails (ok is false: the callback threw) exactly when some
      row's SKU cell is not text. */
  method ProcessOrders(rt: Runtime, boms: seq<BomEntry>, bundles: seq<BundleEntry>, orders: seq<OrderRow>)
    returns (ok: bool, rows: seq<ProcessedOrder>, bomMatchCount: nat, customMatchCount: nat, skuCounter: Tally)
    ensures ok <==> SkusAreText(orders)
    ensures ok ==> ProcessedAs(rt, boms, bundles, orders, rows, bomMatchCount, customMatchCount, skuCounter)
  {
    rows := [];
    bomMatchCount := 0;
    customMatchCount := 0;
    skuCounter := Tally([], map[]);
    var i := 0;
    while i < |orders|
      invariant 0 <= i <= |orders|
      invariant ProcessedAs(rt, boms, bundles, orders[..i], rows, bomMatchCount, customMatchCount, skuCounter)
      invariant SkusAreText(orders[..i])
    {
      if !SkuIsText(orders[i]) {
        return false, rows, bomMatchCount, customMatchCount, skuCounter;
      }
      SkusAreTextNext(orders, i);
      rows, bomMatchCount, customMatchCount, skuCounter := ProcessNext(rt, boms, bundles, orders, i, rows, bomMatchCount, customMatchCount, skuCounter);
      i := i + 1;
    }
    assert orders[..i] == orders;
    ok := true;
  }

  lemma SkusAreTextNext(orders: seq<OrderRow>, i: nat)
    requires i < |orders| && SkusAreText(orders[..i]) && SkuIsText(orders[i])
    ensures SkusAreText(orders[..i + 1])
  {
    assert orders[..i + 1] == orders[..i] + [orders[i]];
  }

  /** One turn of the row loop on a row whose SKU cell is text. */
  method ProcessNext(rt: Runtime, boms: seq<BomEntry>, bundles: seq<BundleEntry>, orders: seq<OrderRow>, i: nat,
                     rows: seq<ProcessedOrder>, bomMatchCount: nat, customMatchCount: nat, skuCounter: Tally)
    returns (rows': seq<ProcessedOrder>, bomMatchCount': nat, customMatchCount': nat, skuCounter': Tally)
    requires i < |orders|
    requires ProcessedAs(rt, boms, bundles, orders[..i], rows, bomMatchCount, customMatchCount, skuCounter)
    ensures ProcessedAs(rt, boms, bundles, orders[..i + 1], rows', bomMatchCount', customMatchCount', skuCounter')
  {
    var r, isBom, isCustom := ProcessOne(rt, boms, bundles, orders[i]);
    bomMatchCount', customMatchCount', skuCounter' := CountRow(rows, bomMatchCount, customMatchCount, skuCounter, r, isBom, isCustom);
    MapPrefix(orders, i, ProcessOrderIn(rt, boms, bundles));
    rows' := rows + [r];
  }

  // -----------------------------------------------------------------------
  // Unmatched SKUs

  function RowSku(r: ProcessedOrder): string { r.sku }

  /** `rows.filter(unmatched).map(sku).filter((v, i, a) => a.indexOf(v) === i)`. */
  function UnmatchedSkus(rows: seq<ProcessedOrder>): seq<string> {
    var skus := Map(Filter(rows, IsUnmatched), RowSku);
    KeepFirst(skus, |skus|)
  }

  /** The unmatched SKUs are the SKUs of the unmatched rows, de-duplicated in
      the order in which they first occur. */
  lemma UnmatchedSkusSpec(rows: seq<ProcessedOrder>)
    ensures UnmatchedSkus(rows) == Dedupe(Map(Filter(rows, IsUnmatched), RowSku))
    ensures Distinct(UnmatchedSkus(rows))
  {
    var skus := Map(Filter(rows, IsUnmatched), RowSku);
    KeepFirstIsDedupe(skus, |skus|);
    assert skus[..|skus|] == skus;
  }

  /** Every unmatched row's SKU is listed, and every listed SKU is that of an
      unmatched row. */
  lemma UnmatchedSkusCover(rows: seq<ProcessedOrder>)
    ensures forall i :: 0 <= i < |rows| && rows[i].status == Unmatched ==> rows[i].sku in UnmatchedSkus(rows)
    ensures forall s :: s in UnmatchedSkus(rows) ==> exists i :: 0 <= i < |rows| && rows[i].status == Unmatched && rows[i].sku == s
  {
    UnmatchedSkusSpec(rows);
    DedupeFilterMap(rows, IsUnmatched, RowSku);
  }
}
