/** The SKU statistics of the shipping page: the per-SKU demand list that
    calculateBoxTypes builds from its SKU dictionary, and calculateTotalSkuCounts,
    which adds the demand for the BOM tables inside ordered bundles. */
module SkuStats {
  import opened Js
  import opened Seqs
  import opened Catalog
  import opened ShippingRows

  /** `matchedProduct.tableName || matchedProduct.name`: a BOM entry has no
      name field and a bundle entry no tableName field. */
  function MatchedName(m: Matched): Value {
    match m
    case ByBom(b) => OrElse(b.tableName, Undefined)
    case ByBundle(c) => c.name
    case NoMatch => Str("未找到匹配的商品")
  }

  function MatchedStatus(m: Matched): Status {
    if m.NoMatch? then Unmatched else Matched
  }

  function MatchedSource(m: Matched): Source {
    match m
    case ByBom(_) => FromBom
    case ByBundle(_) => FromCustom
    case NoMatch => FromNone
  }

  // -----------------------------------------------------------------------
  // skuStatsArray of calculateBoxTypes

  datatype SkuStat = SkuStat(sku: string, count: real, name: Value, status: Status, source: Source)

  function SkuStatOf(boms: seq<BomEntry>, bundles: seq<BundleEntry>, t: Tally, sku: string): SkuStat {
    var m := MatchSku(boms, bundles, sku);
    SkuStat(sku, CountOf(t, sku), MatchedName(m), MatchedStatus(m), MatchedSource(m))
  }

  function SkuStatIn(boms: seq<BomEntry>, bundles: seq<BundleEntry>, t: Tally): string -> SkuStat {
    sku => SkuStatOf(boms, bundles, t, sku)
  }

  /** The comparator `(a, b) => b.count - a.count`: a may precede b when its
      count is not smaller. */
  predicate CountGe(a: SkuStat, b: SkuStat) { a.count >= b.count }

  function StatSku(s: SkuStat): string { s.sku }
  function StatCount(s: SkuStat): real { s.count }
  function RowQuantity(r: ProcessedOrder): real { r.quantity as real }

  /** `Object.entries(skuCounter).map(...).sort(...)`. */
  function SkuStatsOf(boms: seq<BomEntry>, bundles: seq<BundleEntry>, t: Tally): seq<SkuStat> {
    SortBy(Map(t.keys, SkuStatIn(boms, bundles, t)), CountGe)
  }

  /** The order of the statistics on their SKUs: a may precede b when its
      count is not smaller. */
  function KeyCountGe(t: Tally): (string, string) -> bool {
    (a: string, b: string) => CountOf(t, a) >= CountOf(t, b)
  }

  /** The dictionary's SKUs in the order of the statistics. */
  function SortedSkus(t: Tally): seq<string> {
    SortBy(t.keys, KeyCountGe(t))
  }

  /** Sorting the statistics is taking the statistics of the sorted SKUs. */
  lemma SkuStatsByKeys(boms: seq<BomEntry>, bundles: seq<BundleEntry>, t: Tally)
    ensures SkuStatsOf(boms, bundles, t) == Map(SortedSkus(t), SkuStatIn(boms, bundles, t))
  {
    SortMap(t.keys, SkuStatIn(boms, bundles, t), KeyCountGe(t), CountGe);
  }

  /** The sorted SKUs are the dictionary's SKUs, each once, by descending count. */
  lemma SortedSkusSpec(rows: seq<ProcessedOrder>)
    ensures var t := SkuTally(rows);
      var sk := SortedSkus(t);
      && multiset(sk) == multiset(t.keys)
      && Distinct(sk)
      && forall i, j :: 0 <= i < j < |sk| ==> CountOf(t, sk[i]) >= CountOf(t, sk[j])
  {
    var t := SkuTally(rows);
    TallySpec(Map(rows, RowSkuPair));
    assert TotalPreorder(KeyCountGe(t));
    SortBySpec(t.keys, KeyCountGe(t));
    DistinctPermutation(t.keys, SortedSkus(t));
  }

  /** The statistics come out in descending order of count, each SKU once. */
  lemma SkuStatsOrder(boms: seq<BomEntry>, bundles: seq<BundleEntry>, rows: seq<ProcessedOrder>)
    ensures var stats := SkuStatsOf(boms, bundles, SkuTally(rows));
      && (forall i, j :: 0 <= i < j < |stats| ==> stats[i].count >= stats[j].count)
      && (forall i, j :: 0 <= i < j < |stats| ==> stats[i].sku != stats[j].sku)
  {
    SkuStatsByKeys(boms, bundles, SkuTally(rows));
    SortedSkusSpec(rows);
  }

  /** Each statistic is for a SKU of the dictionary; its count is the sum of
      the quantities of the rows with that SKU; it is unmatched exactly when
      no BOM table and no bundle carries the SKU as product code. */
  lemma SkuStatsEntries(boms: seq<BomEntry>, bundles: seq<BundleEntry>, rows: seq<ProcessedOrder>)
    ensures var t := SkuTally(rows);
      var stats := SkuStatsOf(boms, bundles, t);
      forall i :: 0 <= i < |stats| ==>
        && stats[i].sku in t.keys
        && stats[i].count == Sum(Having(Map(rows, RowSkuPair), PairKey, stats[i].sku), PairValue)
        && (stats[i].status == Unmatched <==>
              && (forall j :: 0 <= j < |boms| ==> boms[j].productCode != Str(stats[i].sku))
              && (forall j :: 0 <= j < |bundles| ==> bundles[j].productCode != Str(stats[i].sku)))
  {
    var t := SkuTally(rows);
    var sk := SortedSkus(t);
    var stats := SkuStatsOf(boms, bundles, t);
    SkuStatsByKeys(boms, bundles, t);
    SortedSkusSpec(rows);
    forall i | 0 <= i < |stats|
      ensures stats[i].sku in t.keys
      ensures stats[i].count == Sum(Having(Map(rows, RowSkuPair), PairKey, stats[i].sku), PairValue)
      ensures stats[i].status == Unmatched <==>
              && (forall j :: 0 <= j < |boms| ==> boms[j].productCode != Str(stats[i].sku))
              && (forall j :: 0 <= j < |bundles| ==> bundles[j].productCode != Str(stats[i].sku))
    {
      assert stats[i] == SkuStatOf(boms, bundles, t, sk[i]);
      assert sk[i] in multiset(t.keys);
      SkuStatOfSpec(boms, bundles, rows, sk[i]);
    }
  }

  /** One SKU's statistic: its tallied quantity, unmatched exactly when no
      table carries its code. */
  lemma SkuStatOfSpec(boms: seq<BomEntry>, bundles: seq<BundleEntry>, rows: seq<ProcessedOrder>, sku: string)
    ensures var st := SkuStatOf(boms, bundles, SkuTally(rows), sku);
      && st.sku == sku
      && st.count == Sum(Having(Map(rows, RowSkuPair), PairKey, sku), PairValue)
      && (st.status == Unmatched <==>
            && (forall j :: 0 <= j < |boms| ==> boms[j].productCode != Str(sku))
            && (forall j :: 0 <= j < |bundles| ==> bundles[j].productCode != Str(sku)))
  {
    TallyCountOf(Map(rows, RowSkuPair), sku);
  }

  /** Every SKU some row has gets a statistic. */
  lemma SkuStatsCover(boms: seq<BomEntry>, bundles: seq<BundleEntry>, rows: seq<ProcessedOrder>, n: nat)
    requires n < |rows|
    ensures exists i :: 0 <= i < |SkuStatsOf(boms, bundles, SkuTally(rows))| && SkuStatsOf(boms, bundles, SkuTally(rows))[i].sku == rows[n].sku
  {
    var pairs := Map(rows, RowSkuPair);
    var t := SkuTally(rows);
    var sk := SortedSkus(t);
    TallySpec(pairs);
    assert Map(pairs, PairKey)[n] == rows[n].sku;
    assert rows[n].sku in t.keys;
    SortedSkusSpec(rows);
    assert rows[n].sku in multiset(sk);
    var i :| 0 <= i < |sk| && sk[i] == rows[n].sku;
    SkuStatsByKeys(boms, bundles, t);
    assert SkuStatsOf(boms, bundles, t)[i].sku == rows[n].sku;
  }

  /** The counts of the statistics add up to the total quantity ordered. */
  lemma SkuStatsTotal(boms: seq<BomEntry>, bundles: seq<BundleEntry>, rows: seq<ProcessedOrder>)
    ensures Sum(SkuStatsOf(boms, bundles, SkuTally(rows)), StatCount) == Sum(rows, RowQuantity)
  {
    var pairs := Map(rows, RowSkuPair);
    var t := SkuTally(rows);
    SkuStatsByKeys(boms, bundles, t);
    SumMap(SortedSkus(t), SkuStatIn(boms, bundles, t), StatCount, CountIn(t));
    SortedSkusSpec(rows);
    SumPermutation(SortedSkus(t), t.keys, CountIn(t));
    TallyTotal(pairs);
    SumMap(rows, RowSkuPair, PairValue, RowQuantity);
  }

  // -----------------------------------------------------------------------
  // calculateTotalSkuCounts: the four dictionaries

  /** A row's bundle components, when the row was matched to a bundle that has any. */
  function RowComponents(r: ProcessedOrder): seq<Component> {
    if r.source == FromCustom && r.customComponents.Some? && |r.customComponents.value| > 0
    then r.customComponents.value else []
  }

  /** The key and amount a component adds: `component.quantity * quantity`
      under the component's product code. */
  function ComponentPair(rt: Runtime, qty: int): Component -> (string, real) {
    (c: Component) => (PropertyKey(rt, c.productCode), Times(c.quantity, qty))
  }

  /** The component additions of the rows, in order. */
  function ComponentPairs(rt: Runtime, rows: seq<ProcessedOrder>): seq<(string, real)> {
    if rows == [] then []
    else
      var r := rows[|rows| - 1];
      ComponentPairs(rt, rows[..|rows| - 1]) + Map(RowComponents(r), ComponentPair(rt, r.quantity))
  }

  /** The components of the rows, in order. */
  function AllComponents(rows: seq<ProcessedOrder>): seq<Component> {
    if rows == [] then [] else AllComponents(rows[..|rows| - 1]) + RowComponents(rows[|rows| - 1])
  }

  function HasValueCode(v: Value): BomEntry -> bool { (b: BomEntry) => b.productCode == v }

  /** componentCosts after the components: a component whose product code is
      some BOM table's records that table's cost under its key
      (`matchedBom.cost || 0`, which is the cost itself for a number). */
  function CostsOf(rt: Runtime, boms: seq<BomEntry>, comps: seq<Component>): map<string, real> {
    if comps == [] then map[]
    else
      var m := CostsOf(rt, boms, comps[..|comps| - 1]);
      var c := comps[|comps| - 1];
      match FindFirst(boms, HasValueCode(c.productCode))
      case Some(i) => m[PropertyKey(rt, c.productCode) := boms[i].cost]
      case None => m
  }

  /** skuCosts after the rows: each SKU's unit cost is that of its last row. */
  function LastCosts(rows: seq<ProcessedOrder>): map<string, real> {
    if rows == [] then map[]
    else
      var r := rows[|rows| - 1];
      LastCosts(rows[..|rows| - 1])[r.sku := r.unitCost]
  }

  /** The four dictionaries of calculateTotalSkuCounts. */
  datatype SkuAcc = SkuAcc(
    skuCounter: Tally, skuCosts: map<string, real>,
    componentCounter: Tally, componentCosts: map<string, real>)

  function SkuAccOf(rt: Runtime, boms: seq<BomEntry>, rows: seq<ProcessedOrder>): SkuAcc {
    SkuAcc(SkuTally(rows), LastCosts(rows), TallyOf(ComponentPairs(rt, rows)), CostsOf(rt, boms, AllComponents(rows)))
  }

  /** skuCosts holds a SKU exactly when some row has it, and then the unit
      cost of the last such row. */
  lemma LastCostsSpec(rows: seq<ProcessedOrder>, sku: string)
    ensures sku in LastCosts(rows) <==> exists i :: 0 <= i < |rows| && rows[i].sku == sku
    ensures sku in LastCosts(rows) ==> exists i ::
      && 0 <= i < |rows| && rows[i].sku == sku && LastCosts(rows)[sku] == rows[i].unitCost
      && forall j :: i < j < |rows| ==> rows[j].sku != sku
  {
    LastCostsKeys(rows, sku);
    if sku in LastCosts(rows) {
      LastCostsLast(rows, sku);
    }
  }

  lemma {:induction false} LastCostsKeys(rows: seq<ProcessedOrder>, sku: string)
    ensures sku in LastCosts(rows) <==> exists i :: 0 <= i < |rows| && rows[i].sku == sku
  {
    if rows != [] {
      var init := rows[..|rows| - 1];
      LastCostsKeys(init, sku);
      assert forall i :: 0 <= i < |init| ==> init[i] == rows[i];
      if rows[|rows| - 1].sku != sku && exists i :: 0 <= i < |rows| && rows[i].sku == sku {
        var i :| 0 <= i < |rows| && rows[i].sku == sku;
        assert i < |init| && init[i].sku == sku;
      }
    }
  }

  lemma {:induction false} LastCostsLast(rows: seq<ProcessedOrder>, sku: string)
    requires sku in LastCosts(rows)
    ensures exists i ::
      && 0 <= i < |rows| && rows[i].sku == sku && LastCosts(rows)[sku] == rows[i].unitCost
      && forall j :: i < j < |rows| ==> rows[j].sku != sku
  {
    var init := rows[..|rows| - 1];
    var r := rows[|rows| - 1];
    if r.sku == sku {
      assert rows[|rows| - 1].sku == sku;
    } else {
      LastCostsLast(init, sku);
      var i :| 0 <= i < |init| && init[i].sku == sku && LastCosts(init)[sku] == init[i].unitCost
        && forall j :: i < j < |init| ==> init[j].sku != sku;
      assert forall j :: 0 <= j < |init| ==> init[j] == rows[j];
      assert rows[i] == init[i];
    }
  }

  /** componentCosts holds only keys of components whose product code is that
      of a BOM table, each with the cost of such a table. */
  lemma {:induction false} CostsOfSpec(rt: Runtime, boms: seq<BomEntry>, comps: seq<Component>, key: string)
    requires key in CostsOf(rt, boms, comps)
    ensures exists i, j ::
      && 0 <= i < |comps| && 0 <= j < |boms|
      && PropertyKey(rt, comps[i].productCode) == key && boms[j].productCode == comps[i].productCode
      && CostsOf(rt, boms, comps)[key] == boms[j].cost
  {
    var init := comps[..|comps| - 1];
    var c := comps[|comps| - 1];
    match FindFirst(boms, HasValueCode(c.productCode))
    case Some(j) =>
      if PropertyKey(rt, c.productCode) == key {
        assert comps[|comps| - 1] == c;
      } else {
        CostsOfSpec(rt, boms, init, key);
        var i, j' :| 0 <= i < |init| && 0 <= j' < |boms|
          && PropertyKey(rt, init[i].productCode) == key && boms[j'].productCode == init[i].productCode
          && CostsOf(rt, boms, init)[key] == boms[j'].cost;
        assert comps[i] == init[i];
      }
    case None =>
      CostsOfSpec(rt, boms, init, key);
      var i, j :| 0 <= i < |init| && 0 <= j < |boms|
        && PropertyKey(rt, init[i].productCode) == key && boms[j].productCode == init[i].productCode
        && CostsOf(rt, boms, init)[key] == boms[j].cost;
      assert comps[i] == init[i];
  }

  lemma TallyOfSnoc(pairs: seq<(string, real)>, p: (string, real))
    ensures TallyOf(pairs + [p]) == TallyAdd(TallyOf(pairs), p.0, p.1)
  {
    assert (pairs + [p])[..|pairs + [p]| - 1] == pairs;
  }

  lemma CostsOfSnoc(rt: Runtime, boms: seq<BomEntry>, comps: seq<Component>, c: Component)
    ensures CostsOf(rt, boms, comps + [c]) ==
      match FindFirst(boms, HasValueCode(c.productCode))
      case Some(i) => CostsOf(rt, boms, comps)[PropertyKey(rt, c.productCode) := boms[i].cost]
      case None => CostsOf(rt, boms, comps)
  {
    assert (comps + [c])[..|comps + [c]| - 1] == comps;
  }

  /** The inner `customComponents.forEach` of one bundle row. */
  /** One component more: its amount is tallied and its cost recorded. */
  lemma ComponentStep(rt: Runtime, boms: seq<BomEntry>, pairs0: seq<(string, real)>, comps0: seq<Component>,
                      comps: seq<Component>, qty: int, j: nat)
    requires j < |comps|
    ensures var c := comps[j];
      TallyOf(pairs0 + Map(comps[..j + 1], ComponentPair(rt, qty)))
      == TallyAdd(TallyOf(pairs0 + Map(comps[..j], ComponentPair(rt, qty))), PropertyKey(rt, c.productCode), Times(c.quantity, qty))
    ensures var c := comps[j];
      CostsOf(rt, boms, comps0 + comps[..j + 1]) ==
        match FindFirst(boms, HasValueCode(c.productCode))
        case Some(i) => CostsOf(rt, boms, comps0 + comps[..j])[PropertyKey(rt, c.productCode) := boms[i].cost]
        case None => CostsOf(rt, boms, comps0 + comps[..j])
  {
    var c := comps[j];
    var before := pairs0 + Map(comps[..j], ComponentPair(rt, qty));
    MapPrefix(comps, j, ComponentPair(rt, qty));
    assert pairs0 + Map(comps[..j + 1], ComponentPair(rt, qty)) == before + [ComponentPair(rt, qty)(c)];
    TallyOfSnoc(before, ComponentPair(rt, qty)(c));
    assert comps0 + comps[..j + 1] == (comps0 + comps[..j]) + [c];
    CostsOfSnoc(rt, boms, comps0 + comps[..j], c);
  }

  /** The inner `customComponents.forEach` of one bundle row. */
  method AddComponents(rt: Runtime, boms: seq<BomEntry>, ghost pairs0: seq<(string, real)>, ghost comps0: seq<Component>,
                       counter0: Tally, costs0: map<string, real>, comps: seq<Component>, qty: int)
    returns (counter: Tally, costs: map<string, real>)
    requires counter0 == TallyOf(pairs0) && costs0 == CostsOf(rt, boms, comps0)
    ensures counter == TallyOf(pairs0 + Map(comps, ComponentPair(rt, qty)))
    ensures costs == CostsOf(rt, boms, comps0 + comps)
  {
    counter := counter0;
    costs := costs0;
    var j := 0;
    assert pairs0 + Map(comps[..0], ComponentPair(rt, qty)) == pairs0;
    assert comps0 + comps[..0] == comps0;
    while j < |comps|
      invariant 0 <= j <= |comps|
      invariant counter == TallyOf(pairs0 + Map(comps[..j], ComponentPair(rt, qty)))
      invariant costs == CostsOf(rt, boms, comps0 + comps[..j])
    {
      var c := comps[j];
      var key := PropertyKey(rt, c.productCode);
      ComponentStep(rt, boms, pairs0, comps0, comps, qty, j);
      counter := Bump(counter, key, Times(c.quantity, qty));
      var found := FindFirst(boms, HasValueCode(c.productCode));
      if found.Some? {
        costs := costs[key := boms[found.value].cost];
      }
      j := j + 1;
    }
    assert comps[..j] == comps;
  }

  lemma AccPrefix(rt: Runtime, rows: seq<ProcessedOrder>, i: nat)
    requires i < |rows|
    ensures ComponentPairs(rt, rows[..i + 1]) == ComponentPairs(rt, rows[..i]) + Map(RowComponents(rows[i]), ComponentPair(rt, rows[i].quantity))
    ensures AllComponents(rows[..i + 1]) == AllComponents(rows[..i]) + RowComponents(rows[i])
    ensures LastCosts(rows[..i + 1]) == LastCosts(rows[..i])[rows[i].sku := rows[i].unitCost]
    ensures SkuTally(rows[..i + 1]) == TallyAdd(SkuTally(rows[..i]), rows[i].sku, rows[i].quantity as real)
  {
    assert rows[..i + 1][..i] == rows[..i];
    assert rows[..i + 1] == rows[..i] + [rows[i]];
    SkuTallyStep(rows[..i], rows[i]);
  }

  /** The row loop of calculateTotalSkuCounts, filling the four dictionaries. */
  method CountSkus(rt: Runtime, boms: seq<BomEntry>, rows: seq<ProcessedOrder>) returns (acc: SkuAcc)
    ensures acc == SkuAccOf(rt, boms, rows)
  {
    acc := SkuAcc(Tally([], map[]), map[], Tally([], map[]), map[]);
    var i := 0;
    while i < |rows|
      invariant 0 <= i <= |rows|
      invariant acc == SkuAccOf(rt, boms, rows[..i])
    {
      acc := CountSkuRow(rt, boms, rows, i, acc);
      i := i + 1;
    }
    assert rows[..i] == rows;
  }

  /** One turn of that loop: row i bumps its SKU, sets its cost and, for a
      custom combination, adds its components. */
  method CountSkuRow(rt: Runtime, boms: seq<BomEntry>, rows: seq<ProcessedOrder>, i: nat, acc: SkuAcc) returns (acc': SkuAcc)
    requires i < |rows|
    requires acc == SkuAccOf(rt, boms, rows[..i])
    ensures acc' == SkuAccOf(rt, boms, rows[..i + 1])
  {
    var r := rows[i];
    AccPrefix(rt, rows, i);
    var skuCounter := Bump(acc.skuCounter, r.sku, r.quantity as real);
    var skuCosts := acc.skuCosts[r.sku := r.unitCost];
    var componentCounter := acc.componentCounter;
    var componentCosts := acc.componentCosts;
    if r.source == FromCustom && r.customComponents.Some? && |r.customComponents.value| > 0 {
      componentCounter, componentCosts := AddComponents(rt, boms, ComponentPairs(rt, rows[..i]), AllComponents(rows[..i]),
        componentCounter, componentCosts, r.customComponents.value, r.quantity);
    } else {
      assert ComponentPairs(rt, rows[..i]) + Map(RowComponents(r), ComponentPair(rt, r.quantity)) == ComponentPairs(rt, rows[..i]);
      assert AllComponents(rows[..i]) + RowComponents(r) == AllComponents(rows[..i]);
    }
    acc' := SkuAcc(skuCounter, skuCosts, componentCounter, componentCosts);
  }

  // -----------------------------------------------------------------------
  // calculateTotalSkuCounts: the statistics

  datatype TotalStat = TotalStat(
    sku: string, count: real, componentCount: real, totalCount: real,
    unitCost: real, totalCost: real, name: Value, status: Status, source: Source,
    components: seq<Component>)

  /** `costs[k] || 0`. */
  function CostOr0(costs: map<string, real>, k: string): real {
    if k in costs then costs[k] else 0.0
  }

  /** The statistic of a SKU that was ordered directly. */
  function TotalStatOf(boms: seq<BomEntry>, bundles: seq<BundleEntry>, acc: SkuAcc, sku: string): TotalStat {
    var m := MatchSku(boms, bundles, sku);
    var count := CountOf(acc.skuCounter, sku);
    var componentCount := CountOf(acc.componentCounter, sku);
    var unitCost := CostOr0(acc.skuCosts, sku);
    var componentUnitCost := CostOr0(acc.componentCosts, sku);
    TotalStat(sku, count, componentCount, count + componentCount, unitCost,
      count * unitCost + componentCount * componentUnitCost,
      MatchedName(m), MatchedStatus(m), MatchedSource(m),
      if m.ByBundle? then m.bundle.components else [])
  }

  function TotalStatIn(boms: seq<BomEntry>, bundles: seq<BundleEntry>, acc: SkuAcc): string -> TotalStat {
    sku => TotalStatOf(boms, bundles, acc, sku)
  }

  /** A component key gets a statistic of its own when it is not listed
      already and some BOM table carries it as product code. */
  function IsExtra(boms: seq<BomEntry>, listed: string -> bool): string -> bool {
    k => !listed(k) && FindFirst(boms, HasCode(k)).Some?
  }

  function ExtraKeys(boms: seq<BomEntry>, keys: seq<string>, listed: string -> bool): seq<string> {
    Filter(keys, IsExtra(boms, listed))
  }

  /** The statistic pushed for a SKU that occurs only inside bundles, named
      after the first BOM table that carries it. */
  function ExtraStatOf(boms: seq<BomEntry>, acc: SkuAcc, sku: string): TotalStat {
    var count := CountOf(acc.componentCounter, sku);
    var unitCost := CostOr0(acc.componentCosts, sku);
    var name := match FindFirst(boms, HasCode(sku))
      case Some(i) => OrElse(boms[i].tableName, Str("未命名產品"))
      case None => Str("未命名產品");
    TotalStat(sku, 0.0, count, count, unitCost, count * unitCost, name, Matched, FromBom, [])
  }

  function ExtraStatIn(boms: seq<BomEntry>, acc: SkuAcc): string -> TotalStat {
    sku => ExtraStatOf(boms, acc, sku)
  }

  /** The guard as written, `!skuCounter[sku]`: a SKU counts as listed only
      when its direct count is truthy, that is present and not 0. */
  function ListedAsWritten(acc: SkuAcc): string -> bool {
    k => k in acc.skuCounter.counts && acc.skuCounter.counts[k] != 0.0
  }

  /** The guard as intended: the SKU already has a direct statistic. */
  function Listed(acc: SkuAcc): string -> bool {
    k => k in acc.skuCounter.counts
  }

  /** The comparator `(a, b) => b.totalCount - a.totalCount`. */
  predicate TotalGe(a: TotalStat, b: TotalStat) { a.totalCount >= b.totalCount }

  /** The direct statistics followed by the component-only ones, sorted. */
  function TotalStats(boms: seq<BomEntry>, bundles: seq<BundleEntry>, acc: SkuAcc, listed: string -> bool): seq<TotalStat> {
    SortBy(Map(acc.skuCounter.keys, TotalStatIn(boms, bundles, acc))
           + Map(ExtraKeys(boms, acc.componentCounter.keys, listed), ExtraStatIn(boms, acc)), TotalGe)
  }

  /** calculateTotalSkuCounts as written. */
  function TotalSkuCountsAsWritten(rt: Runtime, boms: seq<BomEntry>, bundles: seq<BundleEntry>, rows: seq<ProcessedOrder>): seq<TotalStat> {
    var acc := SkuAccOf(rt, boms, rows);
    TotalStats(boms, bundles, acc, ListedAsWritten(acc))
  }

  /** calculateTotalSkuCounts with the guard that lists a SKU once. */
  function TotalSkuCounts(rt: Runtime, boms: seq<BomEntry>, bundles: seq<BundleEntry>, rows: seq<ProcessedOrder>): seq<TotalStat> {
    var acc := SkuAccOf(rt, boms, rows);
    TotalStats(boms, bundles, acc, Listed(acc))
  }

  /** The component-only statistics of the first n component keys. */
  function ExtrasUpTo(boms: seq<BomEntry>, acc: SkuAcc, listed: string -> bool, n: nat): seq<TotalStat>
    requires n <= |acc.componentCounter.keys|
  {
    Map(ExtraKeys(boms, acc.componentCounter.keys[..n], listed), ExtraStatIn(boms, acc))
  }

  /** One component key more: it adds a statistic exactly when it is not
      listed and some BOM table carries it. */
  lemma ExtraStep(boms: seq<BomEntry>, acc: SkuAcc, listed: string -> bool, j: nat)
    requires j < |acc.componentCounter.keys|
    ensures var k := acc.componentCounter.keys[j];
      ExtrasUpTo(boms, acc, listed, j + 1) ==
        if !listed(k) && FindFirst(boms, HasCode(k)).Some?
        then ExtrasUpTo(boms, acc, listed, j) + [ExtraStatOf(boms, acc, k)]
        else ExtrasUpTo(boms, acc, listed, j)
  {
    var keys := acc.componentCounter.keys;
    FilterPrefix(keys, j, IsExtra(boms, listed));
    MapSnoc(ExtraKeys(boms, keys[..j], listed), keys[j], ExtraStatIn(boms, acc));
  }

  /** The `Object.entries(bomComponentsCounter).forEach(... push ...)` loop,
      under the guard `listed`. */
  method AppendExtras(boms: seq<BomEntry>, acc: SkuAcc, listed: string -> bool, stats0: seq<TotalStat>)
    returns (stats: seq<TotalStat>)
    ensures stats == stats0 + Map(ExtraKeys(boms, acc.componentCounter.keys, listed), ExtraStatIn(boms, acc))
  {
    var keys := acc.componentCounter.keys;
    stats := stats0;
    var j := 0;
    while j < |keys|
      invariant 0 <= j <= |keys|
      invariant stats == stats0 + ExtrasUpTo(boms, acc, listed, j)
    {
      stats := PushExtra(boms, acc, listed, stats0, stats, j);
      j := j + 1;
    }
    assert keys[..j] == keys;
  }

  /** One turn of that loop: the statistic of component key j is pushed
      when the key is not listed and some BOM table carries it. */
  method PushExtra(boms: seq<BomEntry>, acc: SkuAcc, listed: string -> bool, stats0: seq<TotalStat>, stats: seq<TotalStat>, j: nat)
    returns (stats': seq<TotalStat>)
    requires j < |acc.componentCounter.keys|
    requires stats == stats0 + ExtrasUpTo(boms, acc, listed, j)
    ensures stats' == stats0 + ExtrasUpTo(boms, acc, listed, j + 1)
  {
    var sku := acc.componentCounter.keys[j];
    ExtraStep(boms, acc, listed, j);
    stats' := stats;
    if !listed(sku) {
      var found := FindFirst(boms, HasCode(sku));
      if found.Some? {
        SnocAssoc(stats0, ExtrasUpTo(boms, acc, listed, j), ExtraStatOf(boms, acc, sku));
        stats' := stats + [ExtraStatOf(boms, acc, sku)];
      }
    }
  }

  /** calculateTotalSkuCounts with the intended guard: fill the dictionaries,
      map the direct SKUs, push the component-only ones, and sort by total
      count. */
  method CalculateTotalSkuCounts(rt: Runtime, boms: seq<BomEntry>, bundles: seq<BundleEntry>, rows: seq<ProcessedOrder>)
    returns (stats: seq<TotalStat>)
    ensures stats == TotalSkuCounts(rt, boms, bundles, rows)
  {
    var acc := CountSkus(rt, boms, rows);
    var direct := Map(acc.skuCounter.keys, TotalStatIn(boms, bundles, acc));
    stats := AppendExtras(boms, acc, Listed(acc), direct);
    stats := SortBy(stats, TotalGe);
  }

  /** calculateTotalSkuCounts as written: the same steps, with the push
      guarded by `!skuCounter[sku]`. */
  method CalculateTotalSkuCountsAsWritten(rt: Runtime, boms: seq<BomEntry>, bundles: seq<BundleEntry>, rows: seq<ProcessedOrder>)
    returns (stats: seq<TotalStat>)
    ensures stats == TotalSkuCountsAsWritten(rt, boms, bundles, rows)
  {
    var acc := CountSkus(rt, boms, rows);
    var direct := Map(acc.skuCounter.keys, TotalStatIn(boms, bundles, acc));
    stats := AppendExtras(boms, acc, ListedAsWritten(acc), direct);
    stats := SortBy(stats, TotalGe);
  }

  /** The two guards agree when no SKU was ordered directly with total
      count 0: then the totals as written are the intended ones. */
  lemma AsWrittenAgrees(rt: Runtime, boms: seq<BomEntry>, bundles: seq<BundleEntry>, rows: seq<ProcessedOrder>)
    requires forall k :: k in SkuAccOf(rt, boms, rows).skuCounter.counts ==> SkuAccOf(rt, boms, rows).skuCounter.counts[k] != 0.0
    ensures TotalSkuCountsAsWritten(rt, boms, bundles, rows) == TotalSkuCounts(rt, boms, bundles, rows)
  {
    var acc := SkuAccOf(rt, boms, rows);
    FilterSame(acc.componentCounter.keys, IsExtra(boms, ListedAsWritten(acc)), IsExtra(boms, Listed(acc)));
  }

  function TotalSku(s: TotalStat): string { s.sku }

  /** With the guard as written, a SKU that some row orders directly with
      quantities summing to 0, that also occurs as a bundle component, and
      that some BOM table carries, gets two statistics. */
  lemma ListedTwiceAsWritten(rt: Runtime, boms: seq<BomEntry>, bundles: seq<BundleEntry>, rows: seq<ProcessedOrder>, sku: string)
    requires exists i :: 0 <= i < |rows| && rows[i].sku == sku
    requires Sum(Having(Map(rows, RowSkuPair), PairKey, sku), PairValue) == 0.0
    requires exists i :: 0 <= i < |ComponentPairs(rt, rows)| && ComponentPairs(rt, rows)[i].0 == sku
    requires exists j :: 0 <= j < |boms| && boms[j].productCode == Str(sku)
    ensures var stats := TotalSkuCountsAsWritten(rt, boms, bundles, rows);
      exists i, j :: 0 <= i < j < |stats| && stats[i].sku == sku && stats[j].sku == sku
  {
    var n :| 0 <= n < |rows| && rows[n].sku == sku;
    assert Map(rows, RowSkuPair)[n].0 == sku;
    TalliedKey(Map(rows, RowSkuPair), sku);
    TalliedKey(ComponentPairs(rt, rows), sku);
    var acc := SkuAccOf(rt, boms, rows);
    ListedTwiceIn(boms, bundles, acc, sku);
    var stats := TotalStats(boms, bundles, acc, ListedAsWritten(acc));
    assert stats == TotalSkuCountsAsWritten(rt, boms, bundles, rows);
    var i, j :| 0 <= i < j < |stats| && stats[i].sku == sku && stats[j].sku == sku;
  }

  /** A key some pair has is tallied, with the sum of its pairs' amounts. */
  lemma TalliedKey(pairs: seq<(string, real)>, k: string)
    requires exists i :: 0 <= i < |pairs| && pairs[i].0 == k
    ensures TallyValid(TallyOf(pairs))
    ensures k in TallyOf(pairs).keys && k in TallyOf(pairs).counts
    ensures TallyOf(pairs).counts[k] == Sum(Having(pairs, PairKey, k), PairValue)
  {
    TallySpec(pairs);
    var n :| 0 <= n < |pairs| && pairs[n].0 == k;
    assert Map(pairs, PairKey)[n] == k;
    DedupeMember(Map(pairs, PairKey), k);
  }

  /** The same on the dictionaries: a SKU with direct count 0 that is a
      component key carried by some BOM table is listed twice. */
  lemma ListedTwiceIn(boms: seq<BomEntry>, bundles: seq<BundleEntry>, acc: SkuAcc, sku: string)
    requires TallyValid(acc.skuCounter)
    requires sku in acc.skuCounter.counts && acc.skuCounter.counts[sku] == 0.0
    requires sku in acc.componentCounter.keys
    requires exists j :: 0 <= j < |boms| && boms[j].productCode == Str(sku)
    ensures var stats := TotalStats(boms, bundles, acc, ListedAsWritten(acc));
      exists i, j :: 0 <= i < j < |stats| && stats[i].sku == sku && stats[j].sku == sku
  {
    var listed := ListedAsWritten(acc);
    assert !listed(sku);
    ExtraKeyIn(boms, acc.componentCounter.keys, listed, sku);
    var ks := acc.skuCounter.keys;
    var es := ExtraKeys(boms, acc.componentCounter.keys, listed);
    var a :| 0 <= a < |ks| && ks[a] == sku;
    var e :| 0 <= e < |es| && es[e] == sku;
    TwoStats(boms, bundles, acc, listed, a, e);
  }

  /** A component key that the guard does not list and some BOM table
      carries is pushed. */
  lemma ExtraKeyIn(boms: seq<BomEntry>, keys: seq<string>, listed: string -> bool, sku: string)
    requires sku in keys && !listed(sku)
    requires exists j :: 0 <= j < |boms| && boms[j].productCode == Str(sku)
    ensures sku in ExtraKeys(boms, keys, listed)
  {
    var b :| 0 <= b < |boms| && boms[b].productCode == Str(sku);
    assert HasCode(sku)(boms[b]);
    var c :| 0 <= c < |keys| && keys[c] == sku;
    assert IsExtra(boms, listed)(keys[c]);
  }

  /** A SKU that is both a direct key and a pushed key has two statistics. */
  lemma TwoStats(boms: seq<BomEntry>, bundles: seq<BundleEntry>, acc: SkuAcc, listed: string -> bool, a: nat, e: nat)
    requires a < |acc.skuCounter.keys| && e < |ExtraKeys(boms, acc.componentCounter.keys, listed)|
    requires acc.skuCounter.keys[a] == ExtraKeys(boms, acc.componentCounter.keys, listed)[e]
    ensures var stats := TotalStats(boms, bundles, acc, listed);
      var sku := acc.skuCounter.keys[a];
      exists i, j :: 0 <= i < j < |stats| && stats[i].sku == sku && stats[j].sku == sku
  {
    var ks := acc.skuCounter.keys;
    var es := ExtraKeys(boms, acc.componentCounter.keys, listed);
    var all := Map(ks, TotalStatIn(boms, bundles, acc)) + Map(es, ExtraStatIn(boms, acc));
    StatSkusAt(boms, bundles, acc, ks, es, a, e);
    var stats := TotalStats(boms, bundles, acc, listed);
    assert stats == SortBy(all, TotalGe);
    SortedTwice(all, stats, a, |ks| + e, ks[a]);
  }

  /** Two statistics of one SKU are still two after a permutation. */
  lemma SortedTwice(all: seq<TotalStat>, stats: seq<TotalStat>, p: nat, q: nat, sku: string)
    requires multiset(all) == multiset(stats)
    requires p < q < |all| && all[p].sku == sku && all[q].sku == sku
    ensures exists i, j :: 0 <= i < j < |stats| && stats[i].sku == sku && stats[j].sku == sku
  {
    assert TotalSku(all[p]) == TotalSku(all[q]);
    RepeatedKey(all, stats, TotalSku, p, q);
    var i, j :| 0 <= i < j < |stats| && TotalSku(stats[i]) == sku && TotalSku(stats[j]) == sku;
    assert stats[i].sku == sku && stats[j].sku == sku;
  }

  /** The direct statistics and the component-only ones carry their keys. */
  lemma StatSkusAt(boms: seq<BomEntry>, bundles: seq<BundleEntry>, acc: SkuAcc, ks: seq<string>, es: seq<string>, a: nat, e: nat)
    requires a < |ks| && e < |es|
    ensures var all := Map(ks, TotalStatIn(boms, bundles, acc)) + Map(es, ExtraStatIn(boms, acc));
      all[a].sku == ks[a] && all[|ks| + e].sku == es[e]
  {
    var direct := Map(ks, TotalStatIn(boms, bundles, acc));
    var extra := Map(es, ExtraStatIn(boms, acc));
    assert (direct + extra)[a] == direct[a] == TotalStatOf(boms, bundles, acc, ks[a]);
    assert (direct + extra)[|ks| + e] == extra[e] == ExtraStatOf(boms, acc, es[e]);
  }

  // -----------------------------------------------------------------------
  // Properties of the intended calculateTotalSkuCounts

  /** The statistic each listed SKU gets. */
  function StatFor(boms: seq<BomEntry>, bundles: seq<BundleEntry>, acc: SkuAcc, k: string): (s: TotalStat)
    ensures s.sku == k
  {
    if k in acc.skuCounter.counts then TotalStatOf(boms, bundles, acc, k) else ExtraStatOf(boms, acc, k)
  }

  function StatForIn(boms: seq<BomEntry>, bundles: seq<BundleEntry>, acc: SkuAcc): string -> TotalStat {
    k => StatFor(boms, bundles, acc, k)
  }

  /** The SKUs with a statistic: the direct ones, then the component-only ones. */
  function ListedKeys(boms: seq<BomEntry>, acc: SkuAcc): seq<string> {
    acc.skuCounter.keys + ExtraKeys(boms, acc.componentCounter.keys, Listed(acc))
  }

  function KeyTotalGe(boms: seq<BomEntry>, bundles: seq<BundleEntry>, acc: SkuAcc): (string, string) -> bool {
    (a: string, b: string) => StatFor(boms, bundles, acc, a).totalCount >= StatFor(boms, bundles, acc, b).totalCount
  }

  function SortedTotalKeys(boms: seq<BomEntry>, bundles: seq<BundleEntry>, acc: SkuAcc): seq<string> {
    SortBy(ListedKeys(boms, acc), KeyTotalGe(boms, bundles, acc))
  }

  lemma ListedStats(boms: seq<BomEntry>, bundles: seq<BundleEntry>, acc: SkuAcc)
    requires TallyValid(acc.skuCounter)
    ensures Map(acc.skuCounter.keys, TotalStatIn(boms, bundles, acc))
            + Map(ExtraKeys(boms, acc.componentCounter.keys, Listed(acc)), ExtraStatIn(boms, acc))
            == Map(ListedKeys(boms, acc), StatForIn(boms, bundles, acc))
  {
    var ks := acc.skuCounter.keys;
    var es := ExtraKeys(boms, acc.componentCounter.keys, Listed(acc));
    MapConcat(ks, es, StatForIn(boms, bundles, acc));
    assert Map(ks, TotalStatIn(boms, bundles, acc)) == Map(ks, StatForIn(boms, bundles, acc));
    assert Map(es, ExtraStatIn(boms, acc)) == Map(es, StatForIn(boms, bundles, acc));
  }

  /** Sorting the statistics is taking the statistics of the sorted SKUs. */
  lemma TotalStatsByKeys(boms: seq<BomEntry>, bundles: seq<BundleEntry>, acc: SkuAcc)
    requires TallyValid(acc.skuCounter)
    ensures TotalStats(boms, bundles, acc, Listed(acc)) == Map(SortedTotalKeys(boms, bundles, acc), StatForIn(boms, bundles, acc))
  {
    ListedStats(boms, bundles, acc);
    SortMap(ListedKeys(boms, acc), StatForIn(boms, bundles, acc), KeyTotalGe(boms, bundles, acc), TotalGe);
  }

  /** A SKU is listed exactly when it was ordered directly, or it is a
      component key that some BOM table carries as product code. */
  lemma ListedKeysSpec(boms: seq<BomEntry>, acc: SkuAcc, k: string)
    requires TallyValid(acc.skuCounter)
    ensures k in ListedKeys(boms, acc) <==>
      || k in acc.skuCounter.counts
      || (k in acc.componentCounter.keys && exists j :: 0 <= j < |boms| && boms[j].productCode == Str(k))
  {
    var p := IsExtra(boms, Listed(acc));
    var cs := acc.componentCounter.keys;
    if k in cs && k !in acc.skuCounter.counts && exists j :: 0 <= j < |boms| && boms[j].productCode == Str(k) {
      var j :| 0 <= j < |boms| && boms[j].productCode == Str(k);
      assert HasCode(k)(boms[j]);
      var n :| 0 <= n < |cs| && cs[n] == k;
      assert p(cs[n]);
    }
    if k in ExtraKeys(boms, cs, Listed(acc)) {
      assert p(k);
      var j := FindFirst(boms, HasCode(k)).value;
      assert boms[j].productCode == Str(k);
    }
  }

  /** The listed SKUs are duplicate-free. */
  lemma ListedKeysDistinct(boms: seq<BomEntry>, acc: SkuAcc)
    requires TallyValid(acc.skuCounter) && TallyValid(acc.componentCounter)
    ensures Distinct(ListedKeys(boms, acc))
  {
    var ks := acc.skuCounter.keys;
    var es := ExtraKeys(boms, acc.componentCounter.keys, Listed(acc));
    FilterDistinct(acc.componentCounter.keys, IsExtra(boms, Listed(acc)));
    forall i, j | 0 <= i < |ks| && 0 <= j < |es| ensures ks[i] != es[j] {
      assert IsExtra(boms, Listed(acc))(es[j]);
    }
    DistinctConcat(ks, es);
  }

  /** The sorted SKUs are the listed SKUs, each once, by descending total. */
  lemma SortedTotalKeysSpec(boms: seq<BomEntry>, bundles: seq<BundleEntry>, acc: SkuAcc)
    requires TallyValid(acc.skuCounter) && TallyValid(acc.componentCounter)
    ensures var sk := SortedTotalKeys(boms, bundles, acc);
      && multiset(sk) == multiset(ListedKeys(boms, acc))
      && Distinct(sk)
      && (forall i, j :: 0 <= i < j < |sk| ==>
           StatFor(boms, bundles, acc, sk[i]).totalCount >= StatFor(boms, bundles, acc, sk[j]).totalCount)
  {
    assert TotalPreorder(KeyTotalGe(boms, bundles, acc));
    SortBySpec(ListedKeys(boms, acc), KeyTotalGe(boms, bundles, acc));
    ListedKeysDistinct(boms, acc);
    DistinctPermutation(ListedKeys(boms, acc), SortedTotalKeys(boms, bundles, acc));
  }

  /** The sorted SKUs are exactly the listed ones. */
  lemma SortedTotalKeysMembers(boms: seq<BomEntry>, bundles: seq<BundleEntry>, acc: SkuAcc)
    ensures var sk := SortedTotalKeys(boms, bundles, acc);
      && (forall i :: 0 <= i < |sk| ==> sk[i] in ListedKeys(boms, acc))
      && (forall k :: k in ListedKeys(boms, acc) ==> k in sk)
  {
    var sk := SortedTotalKeys(boms, bundles, acc);
    var ks := ListedKeys(boms, acc);
    forall i | 0 <= i < |sk| ensures sk[i] in ks {
      assert sk[i] in multiset(ks);
    }
    forall k | k in ks ensures k in sk {
      assert k in multiset(sk);
    }
  }

  /** Every statistic's counts are what the rows say: the direct count sums
      the quantities of the rows with the SKU, the component count sums the
      component quantity times row quantity over the bundle rows containing
      it, and the total is their sum. */
  lemma StatForCounts(rt: Runtime, boms: seq<BomEntry>, bundles: seq<BundleEntry>, rows: seq<ProcessedOrder>, k: string)
    ensures var s := StatFor(boms, bundles, SkuAccOf(rt, boms, rows), k);
      && s.count == Sum(Having(Map(rows, RowSkuPair), PairKey, k), PairValue)
      && s.componentCount == Sum(Having(ComponentPairs(rt, rows), PairKey, k), PairValue)
      && s.totalCount == s.count + s.componentCount
  {
    TallyCountOf(Map(rows, RowSkuPair), k);
    TallyCountOf(ComponentPairs(rt, rows), k);
  }

  /** A component-only statistic is matched to a BOM table that carries its SKU. */
  lemma ExtraStatMatched(boms: seq<BomEntry>, bundles: seq<BundleEntry>, acc: SkuAcc, k: string)
    requires TallyValid(acc.skuCounter)
    requires k in ListedKeys(boms, acc) && k !in acc.skuCounter.counts
    ensures var s := StatFor(boms, bundles, acc, k);
      && s.count == 0.0 && s.status == Matched && s.source == FromBom
      && exists j :: 0 <= j < |boms| && boms[j].productCode == Str(k) && s.name == OrElse(boms[j].tableName, Str("未命名產品"))
  {
    ListedKeysSpec(boms, acc, k);
    var j := FindFirst(boms, HasCode(k)).value;
    assert boms[j].productCode == Str(k);
  }

  /** With the intended guard, each listed SKU gets exactly one statistic,
      in descending order of total count. */
  lemma TotalStatsSpec(boms: seq<BomEntry>, bundles: seq<BundleEntry>, acc: SkuAcc)
    requires TallyValid(acc.skuCounter) && TallyValid(acc.componentCounter)
    ensures var stats := TotalStats(boms, bundles, acc, Listed(acc));
      && (forall i, j :: 0 <= i < j < |stats| ==> stats[i].totalCount >= stats[j].totalCount)
      && (forall i, j :: 0 <= i < j < |stats| ==> stats[i].sku != stats[j].sku)
      && (forall i :: 0 <= i < |stats| ==>
            stats[i].sku in ListedKeys(boms, acc) && stats[i] == StatFor(boms, bundles, acc, stats[i].sku))
      && (forall k :: k in ListedKeys(boms, acc) ==> exists i :: 0 <= i < |stats| && stats[i].sku == k)
  {
    TotalStatsByKeys(boms, bundles, acc);
    SortedTotalKeysSpec(boms, bundles, acc);
    SortedTotalKeysMembers(boms, bundles, acc);
    KeyedStats(SortedTotalKeys(boms, bundles, acc), ListedKeys(boms, acc), StatForIn(boms, bundles, acc));
  }

  /** The statistics of distinct keys sorted by count, one per key. */
  lemma KeyedStats(sk: seq<string>, ks: seq<string>, f: string -> TotalStat)
    requires Distinct(sk)
    requires forall k :: f(k).sku == k
    requires forall i :: 0 <= i < |sk| ==> sk[i] in ks
    requires forall k :: k in ks ==> k in sk
    requires forall i, j :: 0 <= i < j < |sk| ==> f(sk[i]).totalCount >= f(sk[j]).totalCount
    ensures var stats := Map(sk, f);
      && (forall i, j :: 0 <= i < j < |stats| ==> stats[i].totalCount >= stats[j].totalCount)
      && (forall i, j :: 0 <= i < j < |stats| ==> stats[i].sku != stats[j].sku)
      && (forall i :: 0 <= i < |stats| ==> stats[i].sku in ks && stats[i] == f(stats[i].sku))
      && (forall k :: k in ks ==> exists i :: 0 <= i < |stats| && stats[i].sku == k)
  {
    var stats := Map(sk, f);
    forall k | k in ks ensures exists i :: 0 <= i < |stats| && stats[i].sku == k {
      var i :| 0 <= i < |sk| && sk[i] == k;
      assert stats[i].sku == k;
    }
  }

  /** calculateTotalSkuCounts, with the intended guard, gives each listed SKU
      of the rows exactly one statistic, in descending order of total count. */
  lemma TotalSkuCountsSpec(rt: Runtime, boms: seq<BomEntry>, bundles: seq<BundleEntry>, rows: seq<ProcessedOrder>)
    ensures var acc := SkuAccOf(rt, boms, rows);
      var stats := TotalSkuCounts(rt, boms, bundles, rows);
      && (forall i, j :: 0 <= i < j < |stats| ==> stats[i].totalCount >= stats[j].totalCount)
      && (forall i, j :: 0 <= i < j < |stats| ==> stats[i].sku != stats[j].sku)
      && (forall i :: 0 <= i < |stats| ==>
            stats[i].sku in ListedKeys(boms, acc) && stats[i] == StatFor(boms, bundles, acc, stats[i].sku))
      && (forall k :: k in ListedKeys(boms, acc) ==> exists i :: 0 <= i < |stats| && stats[i].sku == k)
  {
    TallySpec(Map(rows, RowSkuPair));
    TallySpec(ComponentPairs(rt, rows));
    TotalStatsSpec(boms, bundles, SkuAccOf(rt, boms, rows));
  }

  // -----------------------------------------------------------------------
  // The guard as written lists a SKU twice

  /** A BOM table carrying product code "C". */
  function TableC(): BomEntry {
    BomEntry("c", Str("C"), 1.0, Str("C table"), 2.0)
  }

  /** Dictionaries in which SKU "C" was ordered directly with total quantity 0
      (a row whose quantity cell reads 0) and also occurs once as a bundle
      component. */
  function ZeroDirectAcc(): SkuAcc {
    SkuAcc(Tally(["C"], map["C" := 0.0]), map["C" := 2.0], Tally(["C"], map["C" := 1.0]), map["C" := 2.0])
  }

  /** With the guard as written, SKU "C" is listed twice: once among the
      direct statistics and once more as component-only, because its direct
      count 0 is falsy. */
  lemma DuplicateSkuAsWritten(bundles: seq<BundleEntry>)
    ensures var stats := TotalStats([TableC()], bundles, ZeroDirectAcc(), ListedAsWritten(ZeroDirectAcc()));
      |stats| == 2 && stats[0].sku == "C" && stats[1].sku == "C"
  {
    var acc := ZeroDirectAcc();
    var boms := [TableC()];
    assert ["C"][..0] == [];
    assert HasCode("C")(boms[0]);
    assert IsExtra(boms, ListedAsWritten(acc))("C");
    assert ExtraKeys(boms, acc.componentCounter.keys, ListedAsWritten(acc)) == ["C"];
    var all := Map(["C"], TotalStatIn(boms, bundles, acc)) + Map(["C"], ExtraStatIn(boms, acc));
    assert |all| == 2 && all[0].sku == "C" && all[1].sku == "C";
    var stats := TotalStats(boms, bundles, acc, ListedAsWritten(acc));
    assert stats[0] in multiset(all) && stats[1] in multiset(all);
  }

  /** The same dictionaries with the intended guard list "C" once. */
  lemma DuplicateSkuCorrected(bundles: seq<BundleEntry>)
    ensures var stats := TotalStats([TableC()], bundles, ZeroDirectAcc(), Listed(ZeroDirectAcc()));
      |stats| == 1 && stats[0].sku == "C"
  {
    var acc := ZeroDirectAcc();
    assert ["C"][..0] == [];
    assert !IsExtra([TableC()], Listed(acc))("C");
    assert ExtraKeys([TableC()], acc.componentCounter.keys, Listed(acc)) == [];
    var all := Map(["C"], TotalStatIn([TableC()], bundles, acc));
    var stats := TotalStats([TableC()], bundles, acc, Listed(acc));
    assert stats[0] in multiset(all);
  }

  /** The direct count 0 of ZeroDirectAcc comes from calculateBoxTypes'
      rows: a single row with SKU "C" and quantity 0 tallies to it. */
  lemma ZeroQuantityRow(r: ProcessedOrder)
    requires r.sku == "C" && r.quantity == 0
    ensures SkuTally([r]) == ZeroDirectAcc().skuCounter
  {
    assert [r][..0] == [];
    assert Map([r], RowSkuPair) == [("C", 0.0)];
    assert [("C", 0.0)][..0] == [];
  }
}
