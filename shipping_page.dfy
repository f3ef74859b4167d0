/** The state of the shipping page: the uploaded orders, the results of the
    last calculation, the transient picked flags and the pagination. */
module ShippingPage {
  import opened Js
  import opened Seqs
  import opened Catalog
  import opened ShippingRows
  import opened ShippingGroups
  import opened SkuStats

  // -----------------------------------------------------------------------
  // Picked flags: an order number -> bool dictionary

  /** `!!verified[k]`: a missing key reads as not picked. */
  function Flag(verified: map<string, bool>, k: string): bool {
    k in verified && verified[k]
  }

  function FlagIn(verified: map<string, bool>): string -> bool {
    k => Flag(verified, k)
  }

  /** `{...prev, [k]: !prev[k]}`. */
  function Toggled(verified: map<string, bool>, k: string): (m: map<string, bool>)
    ensures Flag(m, k) == !Flag(verified, k)
    ensures forall j :: j != k ==> Flag(m, j) == Flag(verified, j)
  {
    verified[k := !Flag(verified, k)]
  }

  /** The keys whose value is true: `Object.values(verified).filter(Boolean)`
      has one element for each. */
  function VerifiedKeys(verified: map<string, bool>): set<string> {
    set k | k in verified && verified[k]
  }

  function VerifiedCount(verified: map<string, bool>): nat {
    |VerifiedKeys(verified)|
  }

  /** Toggling a flag changes the picked count by exactly one, up when the
      order was not picked and down when it was. */
  lemma ToggleCount(verified: map<string, bool>, k: string)
    ensures VerifiedCount(Toggled(verified, k)) ==
      if Flag(verified, k) then VerifiedCount(verified) - 1 else VerifiedCount(verified) + 1
  {
    var m := Toggled(verified, k);
    if Flag(verified, k) {
      assert VerifiedKeys(m) == VerifiedKeys(verified) - {k};
    } else {
      assert VerifiedKeys(m) == VerifiedKeys(verified) + {k};
    }
  }

  /** Toggling twice gives back every flag. */
  lemma ToggleTwice(verified: map<string, bool>, k: string)
    ensures forall j :: Flag(Toggled(Toggled(verified, k), k), j) == Flag(verified, j)
  {
  }

  function GroupNumber(g: Group): string { g.orderNumber }

  /** Every picked order number is that of a shipment on the page. */
  predicate VerifiedInGroups(verified: map<string, bool>, grouped: seq<Group>) {
    forall k :: k in VerifiedKeys(verified) ==> k in Map(grouped, GroupNumber)
  }

  datatype VerificationSummary = VerificationSummary(verifiedCount: int, unverifiedCount: int, totalCount: int)

  /** getVerificationSummary. */
  function VerificationSummaryOf(verified: map<string, bool>, grouped: seq<Group>): VerificationSummary {
    var verifiedCount := VerifiedCount(verified);
    VerificationSummary(verifiedCount, |grouped| - verifiedCount, |grouped|)
  }

  /** When only shown shipments are picked, the picked count is the number
      of shipments that are picked, and neither count exceeds the total. */
  lemma VerificationSummarySpec(verified: map<string, bool>, grouped: seq<Group>)
    requires VerifiedInGroups(verified, grouped)
    requires Distinct(Map(grouped, GroupNumber))
    ensures var s := VerificationSummaryOf(verified, grouped);
      && s.verifiedCount == Count(Map(grouped, GroupNumber), FlagIn(verified))
      && 0 <= s.verifiedCount <= s.totalCount
      && 0 <= s.unverifiedCount <= s.totalCount
  {
    var ns := Map(grouped, GroupNumber);
    assert VerifiedKeys(verified) == SetWhere(ns, FlagIn(verified));
    DistinctCountSet(ns, FlagIn(verified));
    VerifiedCountBound(verified, grouped);
  }

  /** Without distinct order numbers the picked count still stays within the
      total. */
  lemma VerifiedCountBound(verified: map<string, bool>, grouped: seq<Group>)
    requires VerifiedInGroups(verified, grouped)
    ensures VerifiedCount(verified) <= |grouped|
  {
    var ns := Map(grouped, GroupNumber);
    SubsetCard(VerifiedKeys(verified), set x | x in ns);
    SeqSetCard(ns);
  }

  // -----------------------------------------------------------------------
  // Pagination

  /** `Math.ceil(n / per)`: the fewest pages of per items that hold n items. */
  function CeilDiv(n: nat, per: nat): (r: nat)
    requires per > 0
    ensures n <= r * per < n + per
  {
    var r := (n + per - 1) / per;
    assert r * per + (n + per - 1) % per == n + per - 1;
    r
  }

  /** No fewer pages would do. */
  lemma CeilDivLeast(n: nat, per: nat, r': nat)
    requires per > 0 && r' * per >= n
    ensures r' >= CeilDiv(n, per)
  {
    var r := CeilDiv(n, per);
    assert (r - 1) * per == r * per - per;
    if r' < r {
      MulMono(r', r - 1, per);
    }
  }

  lemma MulMono(a: nat, b: nat, c: nat)
    requires a <= b
    ensures a * c <= b * c
  {
    assert b * c == a * c + (b - a) * c;
  }

  /** A `slice` bound: a negative one counts from the end, and both are
      clamped to the sequence. */
  function SliceIndex(i: int, n: nat): (k: nat)
    ensures k <= n
    ensures 0 <= i <= n ==> k == i
  {
    if i < 0 then (if n + i < 0 then 0 else n + i) else if i > n then n else i
  }

  /** `s.slice(start, end)`. */
  function JsSlice<T>(s: seq<T>, start: int, end: int): seq<T> {
    var a := SliceIndex(start, |s|);
    var b := SliceIndex(end, |s|);
    if a < b then s[a..b] else []
  }

  function Min(a: int, b: int): int { if a <= b then a else b }

  /** paginatedOrders: the slice of page `page` (counted from 1). */
  function Page<T>(s: seq<T>, page: int, per: int): seq<T> {
    var start := (page - 1) * per;
    JsSlice(s, start, start + per)
  }

  /** Page `page` holds the items from position (page - 1) * per up to
      page * per, those that exist. */
  lemma PageSpec<T>(s: seq<T>, page: int, per: int)
    requires page >= 1 && per > 0
    ensures (page - 1) * per <= page * per
    ensures Page(s, page, per) == s[Min((page - 1) * per, |s|)..Min(page * per, |s|)]
    ensures |Page(s, page, per)| <= per
  {
    var start := (page - 1) * per;
    MulMono(0, page - 1, per);
    MulPred(page, per);
    assert page * per == start + per;
    assert Page(s, page, per) == JsSlice(s, start, start + per);
    SliceClamped(s, start, start + per);
  }

  lemma MulPred(a: int, b: int)
    ensures a * b == (a - 1) * b + b
  {
  }

  /** With both bounds non-negative, a slice is the part of s between them. */
  lemma SliceClamped<T>(s: seq<T>, start: nat, end: nat)
    requires start <= end
    ensures JsSlice(s, start, end) == s[Min(start, |s|)..Min(end, |s|)]
    ensures |JsSlice(s, start, end)| <= end - start
  {
  }

  /** The pages up to the last one are never empty, and pages after it are. */
  lemma PageEmpty<T>(s: seq<T>, page: int, per: int)
    requires page >= 1 && per > 0
    ensures Page(s, page, per) == [] <==> page > CeilDiv(|s|, per)
  {
    if page <= CeilDiv(|s|, per) {
      PageFilled(s, page, per);
    } else {
      PageBeyond(s, page, per);
    }
  }

  lemma PageFilled<T>(s: seq<T>, page: int, per: int)
    requires per > 0 && 1 <= page <= CeilDiv(|s|, per)
    ensures |Page(s, page, per)| > 0
  {
    PageSpec(s, page, per);
    PageStartsInside(|s|, page, per);
    assert page * per == (page - 1) * per + per;
  }

  /** A page up to the last one starts before the end. */
  lemma PageStartsInside(n: nat, page: int, per: int)
    requires per > 0 && 1 <= page <= CeilDiv(n, per)
    ensures (page - 1) * per < n
  {
    var r := CeilDiv(n, per);
    MulMono(page - 1, r - 1, per);
    assert (r - 1) * per == r * per - per;
  }

  lemma PageBeyond<T>(s: seq<T>, page: int, per: int)
    requires per > 0 && page > CeilDiv(|s|, per)
    ensures Page(s, page, per) == []
  {
    PageSpec(s, page, per);
    MulMono(CeilDiv(|s|, per), page - 1, per);
  }

  /** The first k pages, one after another. */
  function Pages<T>(s: seq<T>, per: int, k: nat): seq<T> {
    if k == 0 then [] else Pages(s, per, k - 1) + Page(s, k, per)
  }

  /** The first k pages are the first k * per items. */
  lemma {:induction false} PagesPrefix<T>(s: seq<T>, per: int, k: nat)
    requires per > 0
    ensures Pages(s, per, k) == s[..Min(k * per, |s|)]
  {
    if k > 0 {
      var a := (k - 1) * per;
      var b := k * per;
      PagesPrefix(s, per, k - 1);
      PageSpec(s, k, per);
      MulMono(0, k - 1, per);
      PagesStep(s, per, k, Min(a, |s|), Min(b, |s|));
    }
  }

  /** The first k pages are the first k - 1 pages followed by page k. */
  lemma PagesStep<T>(s: seq<T>, per: int, k: nat, i: nat, j: nat)
    requires k > 0 && i <= j <= |s|
    requires Pages(s, per, k - 1) == s[..i]
    requires Page(s, k, per) == s[i..j]
    ensures Pages(s, per, k) == s[..j]
  {
    assert s[..i] + s[i..j] == s[..j];
  }

  /** The pages 1..totalPages show every shipment once, in order. */
  lemma PagesCover<T>(s: seq<T>, per: int)
    requires per > 0
    ensures Pages(s, per, CeilDiv(|s|, per)) == s
  {
    PagesPrefix(s, per, CeilDiv(|s|, per));
  }

  // -----------------------------------------------------------------------
  // The page

  /** The skuStats state holds the statistics of the last calculation or,
      once the statistics window has been opened, the totals with the
      bundles' components. */
  datatype ShownStats = DirectStats(stats: seq<SkuStat>) | AllStats(totals: seq<TotalStat>)

  /** How calculateBoxTypes ended: no orders to work on, a row callback that
      threw, or a stored calculation. */
  datatype CalculationOutcome = NoOrders | Aborted | Done

  class ShippingPageState {
    var orders: seq<OrderRow>
    var calculatedOrders: seq<ProcessedOrder>
    var skuStats: ShownStats
    var groupedOrders: seq<Group>
    var summary: Summary
    var verifiedOrders: map<string, bool>
    var currentPage: int
    var itemsPerPage: int

    /** Pages have a positive size, the shipments have distinct order
        numbers, and only shipments on the page are picked. */
    ghost predicate Valid()
      reads this
    {
      && itemsPerPage > 0
      && Distinct(Map(groupedOrders, GroupNumber))
      && VerifiedInGroups(verifiedOrders, groupedOrders)
    }

    /** The initial summary has no totalOrdersCost field; the model's
        summary always has one, and starts it at 0. */
    constructor ()
      ensures Valid()
      ensures orders == [] && calculatedOrders == [] && skuStats == DirectStats([]) && groupedOrders == []
      ensures summary == ShippingGroups.Summary(0, 0, [], 0, 0, 0.0)
      ensures verifiedOrders == map[] && currentPage == 1 && itemsPerPage == 5
    {
      orders := [];
      calculatedOrders := [];
      skuStats := DirectStats([]);
      groupedOrders := [];
      summary := ShippingGroups.Summary(0, 0, [], 0, 0, 0.0);
      verifiedOrders := map[];
      currentPage := 1;
      itemsPerPage := 5;
    }

    /** The end of handleFileUpload: the parsed rows become the orders. */
    method SetOrders(rows: seq<OrderRow>)
      requires Valid()
      modifies this
      ensures Valid()
      ensures orders == rows
      ensures calculatedOrders == old(calculatedOrders) && skuStats == old(skuStats)
      ensures groupedOrders == old(groupedOrders) && summary == old(summary)
      ensures verifiedOrders == old(verifiedOrders)
      ensures currentPage == old(currentPage) && itemsPerPage == old(itemsPerPage)
    {
      orders := rows;
    }

    /** calculateBoxTypes: with no orders nothing changes. Otherwise the
        picked flags are cleared first; when a row's SKU cell is not text the
        row callback throws and nothing else changes; else the rows are
        processed, the SKU statistics, shipments and summary are rebuilt and
        the first page is shown. */
    method CalculateBoxTypes(rt: Runtime, boms: seq<BomEntry>, bundles: seq<BundleEntry>) returns (outcome: CalculationOutcome)
      requires Valid()
      modifies this
      ensures Valid()
      ensures outcome == NoOrders <==> |old(orders)| == 0
      ensures outcome == Aborted <==> |old(orders)| > 0 && CalculationOf(rt, boms, bundles, old(orders)).None?
      ensures outcome == NoOrders ==> unchanged(this)
      ensures outcome == Aborted ==>
        && verifiedOrders == map[]
        && orders == old(orders) && calculatedOrders == old(calculatedOrders) && skuStats == old(skuStats)
        && groupedOrders == old(groupedOrders) && summary == old(summary)
        && currentPage == old(currentPage) && itemsPerPage == old(itemsPerPage)
      ensures outcome == Done ==>
        && orders == old(orders)
        && CalculationOf(rt, boms, bundles, orders) == Some(Calculated(calculatedOrders, StatsOf(skuStats), groupedOrders, summary))
        && skuStats.DirectStats?
        && verifiedOrders == map[] && currentPage == 1 && itemsPerPage == old(itemsPerPage)
    {
      if |orders| == 0 {
        return NoOrders;
      }
      ClearPicks();
      var c := Calculate(rt, boms, bundles, orders);
      if c.None? {
        return Aborted;
      }
      Store(c.value);
      outcome := Done;
    }

    /** setVerifiedOrders({}). */
    method ClearPicks()
      requires Valid()
      modifies this
      ensures Valid()
      ensures verifiedOrders == map[]
      ensures orders == old(orders) && calculatedOrders == old(calculatedOrders) && skuStats == old(skuStats)
      ensures groupedOrders == old(groupedOrders) && summary == old(summary)
      ensures currentPage == old(currentPage) && itemsPerPage == old(itemsPerPage)
    {
      verifiedOrders := map[];
    }

    /** openSkuStatsModal: the statistics shown become the totals of the
        stored rows, the bundles' components included; nothing else changes. */
    method OpenSkuStatsModal(rt: Runtime, boms: seq<BomEntry>, bundles: seq<BundleEntry>)
      requires Valid()
      modifies this
      ensures Valid()
      ensures skuStats == AllStats(TotalSkuCounts(rt, boms, bundles, calculatedOrders))
      ensures orders == old(orders) && calculatedOrders == old(calculatedOrders)
      ensures groupedOrders == old(groupedOrders) && summary == old(summary)
      ensures verifiedOrders == old(verifiedOrders)
      ensures currentPage == old(currentPage) && itemsPerPage == old(itemsPerPage)
    {
      var totals := CalculateTotalSkuCounts(rt, boms, bundles, calculatedOrders);
      ShowStats(AllStats(totals));
    }

    /** setSkuStats. */
    method ShowStats(s: ShownStats)
      requires Valid()
      modifies this
      ensures Valid()
      ensures skuStats == s
      ensures orders == old(orders) && calculatedOrders == old(calculatedOrders)
      ensures groupedOrders == old(groupedOrders) && summary == old(summary)
      ensures verifiedOrders == old(verifiedOrders)
      ensures currentPage == old(currentPage) && itemsPerPage == old(itemsPerPage)
    {
      skuStats := s;
    }

    /** The state updates at the end of calculateBoxTypes. */
    method Store(c: Calculated)
      requires Distinct(Map(c.grouped, GroupNumber))
      requires itemsPerPage > 0
      modifies this
      ensures Valid()
      ensures orders == old(orders) && itemsPerPage == old(itemsPerPage)
      ensures calculatedOrders == c.rows && skuStats == DirectStats(c.stats)
      ensures groupedOrders == c.grouped && summary == c.summary
      ensures verifiedOrders == map[] && currentPage == 1
    {
      verifiedOrders := map[];
      calculatedOrders := c.rows;
      skuStats := DirectStats(c.stats);
      groupedOrders := c.grouped;
      summary := c.summary;
      currentPage := 1;
    }

    /** toggleVerification: one flag flips and every other stays. */
    method ToggleVerification(orderNumber: string)
      requires Valid()
      modifies this
      ensures verifiedOrders == Toggled(old(verifiedOrders), orderNumber)
      ensures orders == old(orders) && calculatedOrders == old(calculatedOrders) && skuStats == old(skuStats)
      ensures groupedOrders == old(groupedOrders) && summary == old(summary)
      ensures currentPage == old(currentPage) && itemsPerPage == old(itemsPerPage)
      ensures orderNumber in Map(groupedOrders, GroupNumber) ==> Valid()
    {
      verifiedOrders := verifiedOrders[orderNumber := !Flag(verifiedOrders, orderNumber)];
    }

    /** getVerificationSummary. */
    function GetVerificationSummary(): VerificationSummary
      reads this
    {
      VerificationSummaryOf(verifiedOrders, groupedOrders)
    }

    /** handlePageChange. */
    method HandlePageChange(activePage: int)
      requires Valid()
      modifies this
      ensures Valid()
      ensures currentPage == activePage
      ensures orders == old(orders) && calculatedOrders == old(calculatedOrders) && skuStats == old(skuStats)
      ensures groupedOrders == old(groupedOrders) && summary == old(summary)
      ensures verifiedOrders == old(verifiedOrders) && itemsPerPage == old(itemsPerPage)
    {
      currentPage := activePage;
    }

    /** handleItemsPerPageChange, with the page sizes the dropdown offers. */
    method HandleItemsPerPageChange(value: int)
      requires Valid()
      requires value == 5 || value == 10 || value == 20 || value == 50
      modifies this
      ensures Valid()
      ensures itemsPerPage == value && currentPage == 1
      ensures orders == old(orders) && calculatedOrders == old(calculatedOrders) && skuStats == old(skuStats)
      ensures groupedOrders == old(groupedOrders) && summary == old(summary)
      ensures verifiedOrders == old(verifiedOrders)
    {
      itemsPerPage := value;
      currentPage := 1;
    }

    /** totalPages. */
    function TotalPages(): nat
      reads this
      requires Valid()
    {
      CeilDiv(|groupedOrders|, itemsPerPage)
    }

    /** paginatedOrders. */
    function PaginatedOrders(): seq<Group>
      reads this
    {
      Page(groupedOrders, currentPage, itemsPerPage)
    }
  }

  /** What calculateBoxTypes computes from the orders. */
  datatype Calculated = Calculated(rows: seq<ProcessedOrder>, stats: seq<SkuStat>, grouped: seq<Group>, summary: Summary)

  /** The statistics a ShownStats holds, in the row-dictionary shape. */
  function StatsOf(s: ShownStats): seq<SkuStat> {
    if s.DirectStats? then s.stats else []
  }

  /** Nothing when some row's SKU cell is not text (the row callback
      throws); otherwise the rows processed one by one, the SKU statistics
      of their dictionary, the shipments sorted by order number, and the
      summary. */
  function CalculationOf(rt: Runtime, boms: seq<BomEntry>, bundles: seq<BundleEntry>, orders: seq<OrderRow>): Option<Calculated> {
    if !SkusAreText(orders) then None
    else
      var rows := Map(orders, ProcessOrderIn(rt, boms, bundles));
      var grouped := GroupedOrders(rows);
      Some(Calculated(rows, SkuStatsOf(boms, bundles, SkuTally(rows)), grouped,
        SummaryOf(rows, Count(rows, IsBomMatch), Count(rows, IsCustomMatch), grouped)))
  }

  /** A row whose SKU cell is a nonzero number or true makes the calculation
      fail, whatever the other rows hold. */
  lemma NonTextSkuAborts(rt: Runtime, boms: seq<BomEntry>, bundles: seq<BundleEntry>, orders: seq<OrderRow>, i: nat)
    requires i < |orders| && "SKU" in orders[i]
    requires orders[i]["SKU"] == Boolean(true) || (orders[i]["SKU"].Number? && orders[i]["SKU"].x != 0.0)
    ensures CalculationOf(rt, boms, bundles, orders).None?
  {
    assert !SkuIsText(orders[i]);
  }

  /** The computation of calculateBoxTypes: process the rows, build the SKU
      statistics, group the rows into shipments sorted by order number, and
      summarise. */
  method Calculate(rt: Runtime, boms: seq<BomEntry>, bundles: seq<BundleEntry>, orders: seq<OrderRow>)
    returns (c: Option<Calculated>)
    ensures c == CalculationOf(rt, boms, bundles, orders)
    ensures c.Some? ==> Distinct(Map(c.value.grouped, GroupNumber))
  {
    var ok, rows, bomMatchCount, customMatchCount, skuCounter := ProcessOrders(rt, boms, bundles, orders);
    if !ok {
      return None;
    }
    var stats := SortBy(Map(skuCounter.keys, SkuStatIn(boms, bundles, skuCounter)), CountGe);
    var keys, groups := GroupByOrderNumber(rows);
    ValuesAreGroups(rows);
    var grouped := SortBy(ValuesOf(keys, groups), GroupLe);
    GroupedDistinct(rows);
    c := Some(Calculated(rows, stats, grouped, SummaryOf(rows, bomMatchCount, customMatchCount, grouped)));
  }

  /** The shipments of a calculation have pairwise different order numbers. */
  lemma GroupedDistinct(rows: seq<ProcessedOrder>)
    ensures Distinct(Map(GroupedOrders(rows), GroupNumber))
  {
    GroupedOrdersSorted(rows);
  }
}
