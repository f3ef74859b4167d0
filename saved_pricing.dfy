/** Applying a saved pricing scheme: for every current BOM table, its cost
    recomputed from its lines, the saved prices carried over, the flags that
    say whether the website price or the cost moved since the scheme was
    saved, and the result sorted by category and then by name. Database
    reads are replaced by maps of the documents that exist. */
module SavedPricing {
  import opened Js
  import opened Seqs
  import Catalog

  /** A row of the saved scheme. */
  datatype SavedRow = SavedRow(
    id: string, websitePrice: Value, totalCost: Value, totalCostWithLogistics: Value,
    logisticsCostRate: Value,
    dealerPrice: Value, specialPrice: Value, bottomPrice: Value,
    dealerMargin: Value, specialMargin: Value, bottomMargin: Value)

  /** A row of the applied scheme. totalCost None stands for NaN. */
  datatype AppliedRow = AppliedRow(
    id: string, tableName: string, category: string,
    totalCost: Option<real>, oldTotalCost: Value, costChanged: bool,
    websitePrice: Value, oldWebsitePrice: Value, websitePriceChanged: bool,
    logisticsCostRate: Value,
    dealerPrice: Value, specialPrice: Value, bottomPrice: Value,
    dealerMargin: Value, specialMargin: Value, bottomMargin: Value,
    totalCostWithLogistics: Value, isNewItem: bool)

  // -----------------------------------------------------------------------
  // Cost

  /** The unit cost of one line on this page. A shared line's material cost
      is used as stored (a missing material costs 0) and coerced by the
      multiplication, so an unreadable one is NaN (None); any other unit cost
      reads as parseFloat(x) || 0. */
  function UnitCost(rt: Runtime, mats: Catalog.Materials, line: Catalog.StoredLine): Option<real> {
    if Truthy(line.isShared) && line.unitCost.Ref? then
      (if line.unitCost.path in mats then ToNumber(rt, mats[line.unitCost.path]) else Some(0.0))
    else Some(NumOr0(rt, line.unitCost))
  }

  /** The cost of one line: quantity times unit cost, plus 5% when taxed. */
  function LineCost(rt: Runtime, mats: Catalog.Materials, line: Catalog.StoredLine): Option<real> {
    var unit := UnitCost(rt, mats, line);
    if unit.None? then None
    else
      var itemCost := NumOr0(rt, line.quantity) * unit.value;
      Some(itemCost + (if Truthy(line.isTaxed) then itemCost * 0.05 else 0.0))
  }

  /** `cost += itemCost + tax` over the lines; NaN stays NaN. */
  function CostOf(rt: Runtime, mats: Catalog.Materials, lines: seq<Catalog.StoredLine>): Option<real> {
    if lines == [] then Some(0.0)
    else
      match (CostOf(rt, mats, lines[..|lines| - 1]), LineCost(rt, mats, lines[|lines| - 1]))
      case (Some(a), Some(b)) => Some(a + b)
      case _ => None
  }

  /** The cost loop of handleApply. */
  method ComputeCost(rt: Runtime, mats: Catalog.Materials, lines: seq<Catalog.StoredLine>) returns (cost: Option<real>)
    ensures cost == CostOf(rt, mats, lines)
  {
    cost := Some(0.0);
    var i := 0;
    while i < |lines|
      invariant 0 <= i <= |lines|
      invariant cost == CostOf(rt, mats, lines[..i])
    {
      assert lines[..i + 1][..i] == lines[..i];
      var c := LineCost(rt, mats, lines[i]);
      cost := if cost.Some? && c.Some? then Some(cost.value + c.value) else None;
      i := i + 1;
    }
    assert lines[..i] == lines;
  }

  /** A material cost that Number() and parseFloat read alike. */
  predicate ReadsAlike(rt: Runtime, mats: Catalog.Materials, line: Catalog.StoredLine) {
    Truthy(line.isShared) && line.unitCost.Ref? && line.unitCost.path in mats ==>
      ToNumber(rt, mats[line.unitCost.path]) == Some(NumOr0(rt, mats[line.unitCost.path]))
  }

  /** When every material cost reads alike, the cost is the one the shipping
      page computes for the same table. */
  lemma {:induction false} CostAgrees(rt: Runtime, mats: Catalog.Materials, lines: seq<Catalog.StoredLine>)
    requires forall i :: 0 <= i < |lines| ==> ReadsAlike(rt, mats, lines[i])
    ensures CostOf(rt, mats, lines) == Some(Catalog.BomCost(rt, mats, lines))
  {
    if lines != [] {
      var init := lines[..|lines| - 1];
      var x := lines[|lines| - 1];
      CostAgrees(rt, mats, init);
      LineCostAgrees(rt, mats, x);
    }
  }

  lemma LineCostAgrees(rt: Runtime, mats: Catalog.Materials, line: Catalog.StoredLine)
    requires ReadsAlike(rt, mats, line)
    ensures LineCost(rt, mats, line) == Some(Catalog.LineCost(rt, mats, line))
  {
    var u := Catalog.UnitCostOf(rt, mats, line);
    assert UnitCost(rt, mats, line) == Some(u);
    var itemCost := NumOr0(rt, line.quantity) * u;
    assert Catalog.LineCost(rt, mats, line) == itemCost + (if Truthy(line.isTaxed) then itemCost * 0.05 else 0.0);
    assert LineCost(rt, mats, line).Some?;
    assert LineCost(rt, mats, line).value == itemCost + (if Truthy(line.isTaxed) then itemCost * 0.05 else 0.0);
    assert LineCost(rt, mats, line) == Some(itemCost + (if Truthy(line.isTaxed) then itemCost * 0.05 else 0.0));
  }

  // -----------------------------------------------------------------------
  // One applied row

  /** `v ? parseFloat(v) : null`. */
  function PriceRead(rt: Runtime, v: Value): (r: Value)
    ensures r == Null <==> !Truthy(v)
  {
    if Truthy(v) then FloatValue(ParseFloat(rt, v)) else Null
  }

  /** The website price moved: both are known and they differ. */
  predicate PriceChanged(current: Value, saved: Value) {
    current != Null && saved != Null && !StrictEq(current, saved)
  }

  /** The cost moved by more than a cent against a saved cost. */
  predicate CostChanged(rt: Runtime, current: Option<real>, saved: Value) {
    && saved != Null
    && current.Some? && ToNumber(rt, saved).Some?
    && (current.value - ToNumber(rt, saved).value > 0.01 || ToNumber(rt, saved).value - current.value > 0.01)
  }

  /** The toFixed(2) text of a number, NaN included. */
  function FixedOf(x: Option<real>): Value {
    if x.Some? then Fixed(x.value) else FixedNonFinite
  }

  function SameId(id: string): SavedRow -> bool {
    (s: SavedRow) => s.id == id
  }

  /** The applied row for one BOM document, given its cost: the blank row
      with the current cost and prices, overlaid with the saved row of the
      same id when there is one. */
  function RowWith(rt: Runtime, cats: Catalog.Categories, saved: seq<SavedRow>, doc: Catalog.PricedDoc, cost: Option<real>): AppliedRow {
    var found := FindFirst(saved, SameId(doc.id));
    var currentPrice := PriceRead(rt, doc.websitePrice);
    var savedPrice := if found.Some? then PriceRead(rt, saved[found.value].websitePrice) else Null;
    var savedCost := if found.Some? && Truthy(saved[found.value].totalCost) then saved[found.value].totalCost else Null;
    var base := AppliedRow(
      doc.id, if doc.tableName == "" then "未命名表格" else doc.tableName, Catalog.CategoryOf(cats, doc.category),
      cost, savedCost, CostChanged(rt, cost, savedCost),
      currentPrice, savedPrice, PriceChanged(currentPrice, savedPrice),
      Str(""), Str(""), Str(""), Str(""), Str(""), Str(""), Str(""),
      FixedOf(cost), found.None?);
    if found.None? then base
    else
      var s := saved[found.value];
      base.(logisticsCostRate := Catalog.OrElse(s.logisticsCostRate, Str("")),
            dealerPrice := Catalog.OrElse(s.dealerPrice, Str("")),
            specialPrice := Catalog.OrElse(s.specialPrice, Str("")),
            bottomPrice := Catalog.OrElse(s.bottomPrice, Str("")),
            dealerMargin := Catalog.OrElse(s.dealerMargin, Str("")),
            specialMargin := Catalog.OrElse(s.specialMargin, Str("")),
            bottomMargin := Catalog.OrElse(s.bottomMargin, Str("")),
            totalCostWithLogistics := Catalog.OrElse(s.totalCostWithLogistics, FixedOf(cost)))
  }

  function RowOf(rt: Runtime, mats: Catalog.Materials, cats: Catalog.Categories, saved: seq<SavedRow>, doc: Catalog.PricedDoc): AppliedRow {
    RowWith(rt, cats, saved, doc, CostOf(rt, mats, doc.items))
  }

  function RowIn(rt: Runtime, mats: Catalog.Materials, cats: Catalog.Categories, saved: seq<SavedRow>): Catalog.PricedDoc -> AppliedRow {
    doc => RowOf(rt, mats, cats, saved, doc)
  }

  predicate SavedFor(saved: seq<SavedRow>, id: string) {
    exists j :: 0 <= j < |saved| && saved[j].id == id
  }

  /** The row of a document keeps its id and its recomputed cost; it is new
      exactly when the scheme has no row with its id. */
  lemma RowIdentity(rt: Runtime, mats: Catalog.Materials, cats: Catalog.Categories, saved: seq<SavedRow>, doc: Catalog.PricedDoc)
    ensures var r := RowOf(rt, mats, cats, saved, doc);
      && r.id == doc.id && r.totalCost == CostOf(rt, mats, doc.items)
      && (r.isNewItem <==> !SavedFor(saved, doc.id))
  {
    var found := FindFirst(saved, SameId(doc.id));
    if found.Some? {
      assert SameId(doc.id)(saved[found.value]);
    } else {
      forall j | 0 <= j < |saved| ensures saved[j].id != doc.id {
        assert !SameId(doc.id)(saved[j]);
      }
    }
  }

  /** Without a saved row the pricing fields stay blank; with one, its
      values replace them, a blank saved value staying blank. */
  lemma RowPricing(rt: Runtime, mats: Catalog.Materials, cats: Catalog.Categories, saved: seq<SavedRow>, doc: Catalog.PricedDoc)
    ensures var r := RowOf(rt, mats, cats, saved, doc);
      && (!SavedFor(saved, doc.id) ==>
            && r.dealerPrice == r.specialPrice == r.bottomPrice == Str("")
            && r.dealerMargin == r.specialMargin == r.bottomMargin == Str("")
            && r.logisticsCostRate == Str("")
            && r.totalCostWithLogistics == FixedOf(r.totalCost))
      && (SavedFor(saved, doc.id) ==>
            exists j :: 0 <= j < |saved| && saved[j].id == doc.id
              && (forall k :: 0 <= k < j ==> saved[k].id != doc.id)
              && r.dealerPrice == Catalog.OrElse(saved[j].dealerPrice, Str(""))
              && r.specialPrice == Catalog.OrElse(saved[j].specialPrice, Str(""))
              && r.bottomPrice == Catalog.OrElse(saved[j].bottomPrice, Str(""))
              && r.dealerMargin == Catalog.OrElse(saved[j].dealerMargin, Str(""))
              && r.specialMargin == Catalog.OrElse(saved[j].specialMargin, Str(""))
              && r.bottomMargin == Catalog.OrElse(saved[j].bottomMargin, Str(""))
              && r.logisticsCostRate == Catalog.OrElse(saved[j].logisticsCostRate, Str("")))
  {
    RowIdentity(rt, mats, cats, saved, doc);
    var found := FindFirst(saved, SameId(doc.id));
    if found.Some? {
      assert SameId(doc.id)(saved[found.value]);
    }
  }

  /** The website price is flagged exactly when the current and the saved
      one are both set and differ (NaN differs from everything). */
  lemma PriceFlag(rt: Runtime, mats: Catalog.Materials, cats: Catalog.Categories, saved: seq<SavedRow>, doc: Catalog.PricedDoc)
    ensures var r := RowOf(rt, mats, cats, saved, doc);
      && r.websitePrice == PriceRead(rt, doc.websitePrice)
      && (r.websitePriceChanged <==> r.websitePrice != Null && r.oldWebsitePrice != Null && (r.websitePrice != r.oldWebsitePrice || r.websitePrice == NaN))
      && (!SavedFor(saved, doc.id) ==> !r.websitePriceChanged)
  {
    RowIdentity(rt, mats, cats, saved, doc);
  }

  /** The cost is flagged exactly when the saved cost is set (a saved 0
      counts as unset) and the two differ by more than 0.01. */
  lemma CostFlag(rt: Runtime, mats: Catalog.Materials, cats: Catalog.Categories, saved: seq<SavedRow>, doc: Catalog.PricedDoc)
    ensures var r := RowOf(rt, mats, cats, saved, doc);
      && (r.oldTotalCost == Null || Truthy(r.oldTotalCost))
      && (r.costChanged <==>
            r.oldTotalCost != Null && r.totalCost.Some? && ToNumber(rt, r.oldTotalCost).Some?
            && (r.totalCost.value - ToNumber(rt, r.oldTotalCost).value > 0.01 || ToNumber(rt, r.oldTotalCost).value - r.totalCost.value > 0.01))
      && (!SavedFor(saved, doc.id) ==> !r.costChanged)
  {
    RowIdentity(rt, mats, cats, saved, doc);
  }

  // -----------------------------------------------------------------------
  // Order

  /** `(a.category || '未分類').toLowerCase()`. */
  function CategoryKey(r: AppliedRow): string {
    Lower(if r.category == "" then "未分類" else r.category)
  }

  function NameKey(r: AppliedRow): string {
    Lower(r.tableName)
  }

  /** The comparator of the sort, as "a may come before b": a smaller
      category, or the same category and a name that is not larger. */
  predicate PairLe(ca: string, na: string, cb: string, nb: string) {
    LexLt(ca, cb) || (ca == cb && LexLe(na, nb))
  }

  predicate RowLe(a: AppliedRow, b: AppliedRow) {
    PairLe(CategoryKey(a), NameKey(a), CategoryKey(b), NameKey(b))
  }

  lemma PairLeTotal(ca: string, na: string, cb: string, nb: string)
    ensures PairLe(ca, na, cb, nb) || PairLe(cb, nb, ca, na)
  {
    LexLeTotal(ca, cb);
    LexLeTotal(na, nb);
  }

  lemma PairLeTrans(ca: string, na: string, cb: string, nb: string, cc: string, nc: string)
    requires PairLe(ca, na, cb, nb) && PairLe(cb, nb, cc, nc)
    ensures PairLe(ca, na, cc, nc)
  {
    LexLeRefl(ca);
    LexLeRefl(cb);
    LexLeTrans(ca, cb, cc);
    if ca == cc {
      LexLeAntisym(ca, cb);
      LexLeTrans(na, nb, nc);
    }
  }

  lemma RowLeTotalPreorder()
    ensures TotalPreorder(RowLe)
  {
    forall a, b ensures RowLe(a, b) || RowLe(b, a) {
      PairLeTotal(CategoryKey(a), NameKey(a), CategoryKey(b), NameKey(b));
    }
    forall a, b, c | RowLe(a, b) && RowLe(b, c) ensures RowLe(a, c) {
      PairLeTrans(CategoryKey(a), NameKey(a), CategoryKey(b), NameKey(b), CategoryKey(c), NameKey(c));
    }
  }

  // -----------------------------------------------------------------------
  // handleApply

  /** The applied scheme, as a function of the documents. */
  function Applied(rt: Runtime, mats: Catalog.Materials, cats: Catalog.Categories, saved: seq<SavedRow>, docs: seq<Catalog.PricedDoc>): seq<AppliedRow> {
    SortBy(Map(docs, RowIn(rt, mats, cats, saved)), RowLe)
  }

  /** handleApply: the loop over the BOM documents that pushes one row per
      document, then the sort. */
  method HandleApply(rt: Runtime, mats: Catalog.Materials, cats: Catalog.Categories, saved: seq<SavedRow>, docs: seq<Catalog.PricedDoc>)
    returns (rows: seq<AppliedRow>)
    ensures rows == Applied(rt, mats, cats, saved, docs)
  {
    var updated: seq<AppliedRow> := [];
    var i := 0;
    while i < |docs|
      invariant 0 <= i <= |docs|
      invariant updated == Map(docs[..i], RowIn(rt, mats, cats, saved))
    {
      MapPrefix(docs, i, RowIn(rt, mats, cats, saved));
      var cost := ComputeCost(rt, mats, docs[i].items);
      var row := RowWith(rt, cats, saved, docs[i], cost);
      updated := updated + [row];
      i := i + 1;
    }
    assert docs[..i] == docs;
    rows := SortBy(updated, RowLe);
  }

  /** The applied scheme has exactly one row per BOM document (as many rows,
      the same rows counted with multiplicity), and it is sorted by category
      and then by name. */
  lemma AppliedSpec(rt: Runtime, mats: Catalog.Materials, cats: Catalog.Categories, saved: seq<SavedRow>, docs: seq<Catalog.PricedDoc>)
    ensures |Applied(rt, mats, cats, saved, docs)| == |docs|
    ensures multiset(Applied(rt, mats, cats, saved, docs)) == multiset(Map(docs, RowIn(rt, mats, cats, saved)))
    ensures SortedBy(Applied(rt, mats, cats, saved, docs), RowLe)
  {
    RowLeTotalPreorder();
    SortBySpec(Map(docs, RowIn(rt, mats, cats, saved)), RowLe);
  }

  /** Every row of the applied scheme is the row of one of the documents,
      and every document's row is in it. */
  lemma AppliedRows(rt: Runtime, mats: Catalog.Materials, cats: Catalog.Categories, saved: seq<SavedRow>, docs: seq<Catalog.PricedDoc>)
    ensures forall r :: r in Applied(rt, mats, cats, saved, docs) <==>
      exists i :: 0 <= i < |docs| && r == RowOf(rt, mats, cats, saved, docs[i])
  {
    var f := RowIn(rt, mats, cats, saved);
    var a := Applied(rt, mats, cats, saved, docs);
    var m := Map(docs, f);
    assert multiset(a) == multiset(m);
    forall r ensures r in a <==> exists i :: 0 <= i < |docs| && r == RowOf(rt, mats, cats, saved, docs[i]) {
      SameMembers(a, m, r);
      if r in m {
        var i :| 0 <= i < |m| && m[i] == r;
        assert r == RowOf(rt, mats, cats, saved, docs[i]);
      }
      if exists i :: 0 <= i < |docs| && r == RowOf(rt, mats, cats, saved, docs[i]) {
        var i :| 0 <= i < |docs| && r == RowOf(rt, mats, cats, saved, docs[i]);
        assert m[i] == r;
      }
    }
  }
}
