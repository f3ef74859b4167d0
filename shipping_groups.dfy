/** The second half of calculateBoxTypes: the processed rows are grouped into
    shipments by order number, each shipment gets a carton class from its
    total volume, the shipments are sorted by order number, and the summary
    counts the cartons and adds up the cost. */
module ShippingGroups {
  import opened Js
  import opened Seqs
  import opened ShippingRows

  /** The carton class; Unset is the `boxType: null` of a group that has no
      row yet. */
  datatype BoxType = Unset | S60 | S90

  /** The largest total volume that still fits an S60 carton. */
  const S60MaxVolume: real := 14.0

  /** `totalVolume <= 14 ? 'S60' : 'S90'`. */
  function BoxFor(volume: real): (b: BoxType)
    ensures b == S60 <==> volume <= S60MaxVolume
    ensures b == S90 <==> volume > S60MaxVolume
  {
    if volume <= S60MaxVolume then S60 else S90
  }

  /** One shipment: the rows of one order number. */
  datatype Group = Group(
    orderNumber: string, customerName: string, address: string, phone: string,
    items: seq<ProcessedOrder>, totalVolume: real, totalCost: real, boxType: BoxType)

  /** The dictionary the `reduce` builds, with its keys in insertion order. */
  datatype GroupAcc = GroupAcc(keys: seq<string>, groups: map<string, Group>)

  function RowOrderNumber(r: ProcessedOrder): string { r.orderNumber }
  function RowVolume(r: ProcessedOrder): real { r.totalVolume }
  function RowCost(r: ProcessedOrder): real { r.totalCost }
  function GroupVolume(g: Group): real { g.totalVolume }
  function GroupCost(g: Group): real { g.totalCost }
  function GroupSize(g: Group): real { |g.items| as real }
  function RowOne(r: ProcessedOrder): real { 1.0 }

  /** The group a new order number starts with: the customer fields of its
      first row, no items, zero totals. */
  function NewGroup(r: ProcessedOrder): Group {
    Group(r.orderNumber, r.customerName, r.address, r.phone, [], 0.0, 0.0, Unset)
  }

  /** Push the row, add its volume and cost, and recompute the carton. */
  function AddToGroup(g: Group, r: ProcessedOrder): Group {
    var v := g.totalVolume + r.totalVolume;
    g.(items := g.items + [r], totalVolume := v, totalCost := g.totalCost + r.totalCost, boxType := BoxFor(v))
  }

  /** One step of the `reduce`. */
  function GroupStep(acc: GroupAcc, r: ProcessedOrder): GroupAcc {
    var k := r.orderNumber;
    if k in acc.groups then GroupAcc(acc.keys, acc.groups[k := AddToGroup(acc.groups[k], r)])
    else GroupAcc(acc.keys + [k], acc.groups[k := AddToGroup(NewGroup(r), r)])
  }

  /** The dictionary after the `reduce` over the rows. */
  function GroupAccOf(rows: seq<ProcessedOrder>): GroupAcc {
    if rows == [] then GroupAcc([], map[])
    else GroupStep(GroupAccOf(rows[..|rows| - 1]), rows[|rows| - 1])
  }

  /** The reference definition of the shipment of order number k: all rows
      with that number in their order, the customer fields of the first of
      them, the summed volume and cost, and the carton for that volume. */
  function GroupOf(rows: seq<ProcessedOrder>, k: string): (g: Group)
    ensures g.orderNumber == k
  {
    var items := Having(rows, RowOrderNumber, k);
    if items == [] then Group(k, "", "", "", [], 0.0, 0.0, Unset)
    else
      var v := Sum(items, RowVolume);
      Group(k, items[0].customerName, items[0].address, items[0].phone, items, v, Sum(items, RowCost), BoxFor(v))
  }

  function GroupOfIn(rows: seq<ProcessedOrder>): string -> Group {
    k => GroupOf(rows, k)
  }

  /** The order numbers of the rows, each once, in first-occurrence order. */
  function OrderNumbers(rows: seq<ProcessedOrder>): seq<string> {
    Dedupe(Map(rows, RowOrderNumber))
  }

  /** The `reduce` over the rows is the dictionary from each order number that
      occurs to its shipment, with the keys in first-occurrence order. */
  lemma GroupAccSpec(rows: seq<ProcessedOrder>)
    ensures GroupAccOf(rows).keys == OrderNumbers(rows)
    ensures forall k :: k in GroupAccOf(rows).groups <==> k in OrderNumbers(rows)
    ensures forall k :: k in GroupAccOf(rows).groups ==> GroupAccOf(rows).groups[k] == GroupOf(rows, k)
  {
    GroupAccKeys(rows);
    forall k | k in GroupAccOf(rows).groups ensures GroupAccOf(rows).groups[k] == GroupOf(rows, k) {
      GroupAccAt(rows, k);
    }
  }

  lemma {:induction false} GroupAccKeys(rows: seq<ProcessedOrder>)
    ensures GroupAccOf(rows).keys == OrderNumbers(rows)
    ensures forall k :: k in GroupAccOf(rows).groups <==> k in OrderNumbers(rows)
  {
    if rows != [] {
      var init := rows[..|rows| - 1];
      var r := rows[|rows| - 1];
      assert rows == init + [r];
      GroupAccKeys(init);
      MapSnoc(init, r, RowOrderNumber);
      DedupeSnoc(Map(init, RowOrderNumber), r.orderNumber);
    }
  }

  lemma {:induction false} GroupAccAt(rows: seq<ProcessedOrder>, k: string)
    ensures k in GroupAccOf(rows).groups ==> GroupAccOf(rows).groups[k] == GroupOf(rows, k)
    ensures k in GroupAccOf(rows).groups <==> Having(rows, RowOrderNumber, k) != []
  {
    if rows != [] {
      var init := rows[..|rows| - 1];
      var r := rows[|rows| - 1];
      assert rows == init + [r];
      var acc0 := GroupAccOf(init);
      assert GroupAccOf(rows) == GroupStep(acc0, r);
      GroupAccAt(init, k);
      HavingSnoc(init, r, RowOrderNumber, k);
      if r.orderNumber == k {
        GroupOfSnoc(init, r);
        if k in acc0.groups {
          assert GroupAccOf(rows).groups[k] == AddToGroup(acc0.groups[k], r);
        } else {
          assert GroupAccOf(rows).groups[k] == AddToGroup(NewGroup(r), r);
        }
      } else {
        assert Having(rows, RowOrderNumber, k) == Having(init, RowOrderNumber, k);
        assert GroupOf(rows, k) == GroupOf(init, k);
        assert (k in GroupAccOf(rows).groups <==> k in acc0.groups);
      }
    }
  }

  /** Adding a row to the rows of its order number adds it to that shipment. */
  lemma GroupOfSnoc(init: seq<ProcessedOrder>, r: ProcessedOrder)
    ensures var k := r.orderNumber;
      GroupOf(init + [r], k) ==
        if Having(init, RowOrderNumber, k) == [] then AddToGroup(NewGroup(r), r)
        else AddToGroup(GroupOf(init, k), r)
  {
    var k := r.orderNumber;
    var h := Having(init, RowOrderNumber, k);
    HavingSnoc(init, r, RowOrderNumber, k);
    if h == [] {
      GroupOfFirst(init, r);
    } else {
      GroupOfNext(init, r);
    }
  }

  lemma GroupOfFirst(init: seq<ProcessedOrder>, r: ProcessedOrder)
    requires Having(init + [r], RowOrderNumber, r.orderNumber) == [r]
    ensures GroupOf(init + [r], r.orderNumber) == AddToGroup(NewGroup(r), r)
  {
    SumSingle(r, RowVolume);
    SumSingle(r, RowCost);
  }

  lemma GroupOfNext(init: seq<ProcessedOrder>, r: ProcessedOrder)
    requires Having(init, RowOrderNumber, r.orderNumber) != []
    requires Having(init + [r], RowOrderNumber, r.orderNumber) == Having(init, RowOrderNumber, r.orderNumber) + [r]
    ensures GroupOf(init + [r], r.orderNumber) == AddToGroup(GroupOf(init, r.orderNumber), r)
  {
    var h := Having(init, RowOrderNumber, r.orderNumber);
    SumSnoc(h, r, RowVolume);
    SumSnoc(h, r, RowCost);
    assert (h + [r])[0] == h[0];
  }

  /** The `reduce` of calculateBoxTypes: look the order number up, start a
      group if it is new, push the row into it, add its volume and cost, and
      set the carton from the new total. */
  method GroupByOrderNumber(rows: seq<ProcessedOrder>) returns (keys: seq<string>, groups: map<string, Group>)
    ensures GroupAcc(keys, groups) == GroupAccOf(rows)
  {
    keys := [];
    groups := map[];
    var i := 0;
    while i < |rows|
      invariant 0 <= i <= |rows|
      invariant GroupAcc(keys, groups) == GroupAccOf(rows[..i])
    {
      var r := rows[i];
      var k := r.orderNumber;
      if k !in groups {
        keys := keys + [k];
        groups := groups[k := NewGroup(r)];
      }
      var g := groups[k];
      g := g.(items := g.items + [r]);
      g := g.(totalVolume := g.totalVolume + r.totalVolume);
      g := g.(totalCost := g.totalCost + r.totalCost);
      g := g.(boxType := BoxFor(g.totalVolume));
      groups := groups[k := g];
      assert rows[..i + 1][..i] == rows[..i];
      i := i + 1;
    }
    assert rows[..i] == rows;
  }

  // -----------------------------------------------------------------------
  // Object.values(grouped), sorted by order number

  /** The groups of the listed keys, in that order. */
  function ValuesOf(keys: seq<string>, groups: map<string, Group>): (vs: seq<Group>)
    requires forall i :: 0 <= i < |keys| ==> keys[i] in groups
    ensures |vs| == |keys|
    ensures forall i :: 0 <= i < |keys| ==> vs[i] == groups[keys[i]]
  {
    if keys == [] then []
    else ValuesOf(keys[..|keys| - 1], groups) + [groups[keys[|keys| - 1]]]
  }

  /** `a.orderNumber.localeCompare(b.orderNumber) <= 0`. */
  predicate GroupLe(a: Group, b: Group) {
    LexLe(a.orderNumber, b.orderNumber)
  }

  lemma LexLeTotalPreorder()
    ensures TotalPreorder(LexLe)
  {
    forall a: string, b: string ensures LexLe(a, b) || LexLe(b, a) {
      LexLeTotal(a, b);
    }
    forall a: string, b: string, c: string | LexLe(a, b) && LexLe(b, c) ensures LexLe(a, c) {
      LexLeTrans(a, b, c);
    }
  }

  /** The shipments of calculateBoxTypes: the dictionary's values sorted by
      order number. */
  function GroupedOrders(rows: seq<ProcessedOrder>): seq<Group> {
    SortBy(Map(OrderNumbers(rows), GroupOfIn(rows)), GroupLe)
  }

  /** The values of the dictionary, in key order, are the shipments of the
      distinct order numbers. */
  lemma ValuesAreGroups(rows: seq<ProcessedOrder>)
    ensures var acc := GroupAccOf(rows);
      (forall i :: 0 <= i < |acc.keys| ==> acc.keys[i] in acc.groups) &&
      ValuesOf(acc.keys, acc.groups) == Map(OrderNumbers(rows), GroupOfIn(rows))
  {
    GroupAccSpec(rows);
  }

  /** The order numbers, sorted. */
  function SortedOrderNumbers(rows: seq<ProcessedOrder>): seq<string> {
    SortBy(OrderNumbers(rows), LexLe)
  }

  /** Sorting the shipments by order number is taking the shipments of the
      sorted order numbers. */
  lemma GroupedByKeys(rows: seq<ProcessedOrder>)
    ensures GroupedOrders(rows) == Map(SortedOrderNumbers(rows), GroupOfIn(rows))
  {
    SortMap(OrderNumbers(rows), GroupOfIn(rows), LexLe, GroupLe);
  }

  /** The sorted order numbers are a strictly increasing permutation. */
  lemma SortedKeys(rows: seq<ProcessedOrder>)
    ensures multiset(SortedOrderNumbers(rows)) == multiset(OrderNumbers(rows))
    ensures var sk := SortedOrderNumbers(rows);
      forall i, j :: 0 <= i < j < |sk| ==> LexLt(sk[i], sk[j])
  {
    var ks := OrderNumbers(rows);
    LexLeTotalPreorder();
    SortBySpec(ks, LexLe);
    DistinctPermutation(ks, SortBy(ks, LexLe));
  }

  /** The shipments come out strictly sorted by order number, one for each
      order number that occurs and nothing else. */
  lemma GroupedOrdersSorted(rows: seq<ProcessedOrder>)
    ensures var grouped := GroupedOrders(rows);
      && |grouped| == |OrderNumbers(rows)|
      && (forall i, j :: 0 <= i < j < |grouped| ==> LexLt(grouped[i].orderNumber, grouped[j].orderNumber))
      && (forall i :: 0 <= i < |grouped| ==>
            grouped[i].orderNumber in OrderNumbers(rows) && grouped[i] == GroupOf(rows, grouped[i].orderNumber))
      && (forall k :: k in OrderNumbers(rows) ==> GroupOf(rows, k) in grouped)
  {
    GroupedByKeys(rows);
    SortedKeys(rows);
    GroupedMembers(rows);
    GroupedCover(rows);
  }

  lemma GroupedMembers(rows: seq<ProcessedOrder>)
    ensures var grouped := GroupedOrders(rows);
      forall i :: 0 <= i < |grouped| ==>
        grouped[i].orderNumber in OrderNumbers(rows) && grouped[i] == GroupOf(rows, grouped[i].orderNumber)
  {
    var ks := OrderNumbers(rows);
    var sk := SortedOrderNumbers(rows);
    GroupedByKeys(rows);
    var grouped := GroupedOrders(rows);
    forall i | 0 <= i < |grouped|
      ensures grouped[i].orderNumber in ks && grouped[i] == GroupOf(rows, grouped[i].orderNumber)
    {
      assert grouped[i] == GroupOf(rows, sk[i]);
      assert sk[i] in multiset(ks);
    }
  }

  lemma GroupedCover(rows: seq<ProcessedOrder>)
    ensures forall k :: k in OrderNumbers(rows) ==> GroupOf(rows, k) in GroupedOrders(rows)
  {
    var ks := OrderNumbers(rows);
    var sk := SortedOrderNumbers(rows);
    GroupedByKeys(rows);
    var grouped := GroupedOrders(rows);
    MapCovers(sk, ks, GroupOfIn(rows));
    forall k | k in ks ensures GroupOf(rows, k) in grouped {
      assert GroupOfIn(rows)(k) == GroupOf(rows, k);
    }
  }

  /** Every row is in the shipment of its own order number and in no other. */
  lemma RowInItsGroup(rows: seq<ProcessedOrder>, r: ProcessedOrder, k: string)
    requires r in rows
    ensures r.orderNumber in OrderNumbers(rows)
    ensures r in GroupOf(rows, k).items <==> k == r.orderNumber
  {
    var n :| 0 <= n < |rows| && rows[n] == r;
    assert Map(rows, RowOrderNumber)[n] == r.orderNumber;
    HavingMember(rows, RowOrderNumber, n);
    var h := Having(rows, RowOrderNumber, k);
    if r in h {
      var j :| 0 <= j < |h| && h[j] == r;
    }
  }

  lemma GroupCostAmount(rows: seq<ProcessedOrder>, k: string)
    ensures GroupCost(GroupOf(rows, k)) == Sum(Having(rows, RowOrderNumber, k), RowCost)
  {
  }

  lemma GroupVolumeAmount(rows: seq<ProcessedOrder>, k: string)
    ensures GroupVolume(GroupOf(rows, k)) == Sum(Having(rows, RowOrderNumber, k), RowVolume)
  {
  }

  lemma GroupSizeAmount(rows: seq<ProcessedOrder>, k: string)
    ensures GroupSize(GroupOf(rows, k)) == Sum(Having(rows, RowOrderNumber, k), RowOne)
  {
    SumOnes(Having(rows, RowOrderNumber, k), RowOne);
  }

  function KeyCost(rows: seq<ProcessedOrder>): string -> real { k => GroupCost(GroupOf(rows, k)) }
  function KeyVolume(rows: seq<ProcessedOrder>): string -> real { k => GroupVolume(GroupOf(rows, k)) }
  function KeySize(rows: seq<ProcessedOrder>): string -> real { k => GroupSize(GroupOf(rows, k)) }

  /** The shipments hold all the rows between them: their item counts add
      up to the number of rows, and their volumes and costs to the rows'. */
  lemma GroupTotals(rows: seq<ProcessedOrder>)
    ensures Sum(GroupedOrders(rows), GroupSize) == |rows| as real
    ensures Sum(GroupedOrders(rows), GroupVolume) == Sum(rows, RowVolume)
    ensures Sum(GroupedOrders(rows), GroupCost) == Sum(rows, RowCost)
  {
    GroupSizeTotal(rows);
    GroupVolumeTotal(rows);
    GroupCostTotal(rows);
  }

  lemma GroupSizeTotal(rows: seq<ProcessedOrder>)
    ensures Sum(GroupedOrders(rows), GroupSize) == |rows| as real
  {
    forall k ensures KeySize(rows)(k) == Sum(Having(rows, RowOrderNumber, k), RowOne) {
      GroupSizeAmount(rows, k);
    }
    GroupTotal(rows, GroupSize, RowOne, KeySize(rows));
    SumOnes(rows, RowOne);
  }

  lemma GroupVolumeTotal(rows: seq<ProcessedOrder>)
    ensures Sum(GroupedOrders(rows), GroupVolume) == Sum(rows, RowVolume)
  {
    forall k ensures KeyVolume(rows)(k) == Sum(Having(rows, RowOrderNumber, k), RowVolume) {
      GroupVolumeAmount(rows, k);
    }
    GroupTotal(rows, GroupVolume, RowVolume, KeyVolume(rows));
  }

  lemma GroupCostTotal(rows: seq<ProcessedOrder>)
    ensures Sum(GroupedOrders(rows), GroupCost) == Sum(rows, RowCost)
  {
    forall k ensures KeyCost(rows)(k) == Sum(Having(rows, RowOrderNumber, k), RowCost) {
      GroupCostAmount(rows, k);
    }
    GroupTotal(rows, GroupCost, RowCost, KeyCost(rows));
  }

  /** A per-shipment amount that is the sum of a per-row amount over the
      shipment's rows adds up, over the shipments, to the sum over all rows. */
  lemma GroupTotal(rows: seq<ProcessedOrder>, gf: Group -> real, rf: ProcessedOrder -> real, c: string -> real)
    requires forall k :: c(k) == gf(GroupOf(rows, k))
    requires forall k :: c(k) == Sum(Having(rows, RowOrderNumber, k), rf)
    ensures Sum(GroupedOrders(rows), gf) == Sum(rows, rf)
  {
    var ks := OrderNumbers(rows);
    var sk := SortedOrderNumbers(rows);
    GroupedByKeys(rows);
    SumMap(sk, GroupOfIn(rows), gf, c);
    SumPermutation(sk, ks, c);
    SumPerBy(rows, RowOrderNumber, ks, rf, c);
    PartitionSum(rows, RowOrderNumber, rf);
  }

  // -----------------------------------------------------------------------
  // Summary

  predicate IsS60(g: Group) { g.boxType == S60 }
  predicate IsS90(g: Group) { g.boxType == S90 }

  datatype Summary = Summary(
    s60Count: nat, s90Count: nat, unmatchedSkus: seq<string>,
    bomMatchCount: nat, customMatchCount: nat, totalOrdersCost: real)

  /** The summary of calculateBoxTypes from its counters and its groups. */
  function SummaryOf(rows: seq<ProcessedOrder>, bomMatchCount: nat, customMatchCount: nat, grouped: seq<Group>): Summary {
    Summary(Count(grouped, IsS60), Count(grouped, IsS90), UnmatchedSkus(rows),
      bomMatchCount, customMatchCount, Sum(grouped, GroupCost))
  }

  /** Every shipment has an S60 carton exactly when its total volume is at
      most 14 and an S90 one otherwise, so the two carton counts add up to the
      number of shipments; the total cost of the orders is the sum of the
      rows' costs. */
  lemma SummarySpec(rows: seq<ProcessedOrder>, bomMatchCount: nat, customMatchCount: nat)
    ensures var grouped := GroupedOrders(rows);
      var s := SummaryOf(rows, bomMatchCount, customMatchCount, grouped);
      && (forall i :: 0 <= i < |grouped| ==>
            (grouped[i].boxType == S60 <==> grouped[i].totalVolume <= 14.0) &&
            (grouped[i].boxType == S90 <==> grouped[i].totalVolume > 14.0))
      && s.s60Count + s.s90Count == |grouped|
      && s.totalOrdersCost == Sum(rows, RowCost)
  {
    var grouped := GroupedOrders(rows);
    GroupedOrdersSorted(rows);
    forall i | 0 <= i < |grouped|
      ensures (grouped[i].boxType == S60 <==> grouped[i].totalVolume <= 14.0)
      ensures (grouped[i].boxType == S90 <==> grouped[i].totalVolume > 14.0)
    {
      GroupBox(rows, grouped[i].orderNumber);
    }
    CountSplit(grouped, IsS60, IsS90);
    GroupTotals(rows);
  }

  /** The shipment of an order number that occurs has the carton its final
      volume calls for. */
  lemma GroupBox(rows: seq<ProcessedOrder>, k: string)
    requires k in OrderNumbers(rows)
    ensures GroupOf(rows, k).boxType == BoxFor(GroupOf(rows, k).totalVolume)
  {
    var j :| 0 <= j < |Map(rows, RowOrderNumber)| && Map(rows, RowOrderNumber)[j] == k;
    HavingMember(rows, RowOrderNumber, j);
  }
}
