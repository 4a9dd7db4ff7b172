/**
 Tax invoices: the GST-inclusive split of an amount, one page per seller, and the
 delivery fee apportioned over the pages.
 */
module Invoices {
  import opened Base
  import opened Money

  type SellerId = string

  datatype Item = Item(seller: SellerId, price: nat, quantity: nat, gst: Option<real>)

  datatype TaxKind = CGST | SGST | IGST

  datatype Tax = Tax(kind: TaxKind, percent: real, amount: int)

  datatype Line = Line(net: int, taxes: seq<Tax>, total: int)

  datatype Page = Page(seller: SellerId, lines: seq<Line>, totalTax: int, grandTotal: int)

  datatype Group = Group(seller: SellerId, items: seq<Item>)

  const DEFAULT_GST := 18.0
  const SHIPPING_GST := 18.0

  /** Catalogue rates are never negative (the product form refuses them). */
  predicate Rated(i: Item) {
    i.gst.Some? ==> i.gst.value >= 0.0
  }

  // ---------- the split ----------

  function TaxSum(taxes: seq<Tax>): int {
    if taxes == [] then 0 else TaxSum(taxes[..|taxes| - 1]) + taxes[|taxes| - 1].amount
  }

  /** Both state codes are known and equal. */
  predicate Intra(sellerState: Option<string>, buyerState: Option<string>) {
    sellerState.Some? && sellerState == buyerState && sellerState.value != ""
  }

  function PercentSum(taxes: seq<Tax>): real {
    if taxes == [] then 0.0 else PercentSum(taxes[..|taxes| - 1]) + taxes[|taxes| - 1].percent
  }

  /** The net amount is the whole paisa nearest to total / (1 + rate / 100). */
  ghost predicate NetOf(net: int, total: int, rate: real) {
    -(100.0 + rate) <= 2.0 * (net as real * (100.0 + rate) - 100.0 * total as real) <= 100.0 + rate
  }

  /**
   A line for an amount that includes tax at a rate: net and taxes add up to it, the net
   amount belongs to the rate, and so do the printed percents; within one state the tax is
   halved into CGST and SGST, otherwise it is IGST.
   */
  ghost predicate GstLine(line: Line, total: int, rate: real, sellerState: Option<string>, buyerState: Option<string>) {
    && line.total == total && line.net + TaxSum(line.taxes) == total
    && NetOf(line.net, total, rate) && PercentSum(line.taxes) == rate
    && (if sellerState.Some? && buyerState.Some? && sellerState.value == buyerState.value != "" then
          && |line.taxes| == 2 && line.taxes[0].kind == CGST && line.taxes[1].kind == SGST
          && line.taxes[0].percent == line.taxes[1].percent
          && 0 <= line.taxes[0].amount - line.taxes[1].amount <= 1
        else |line.taxes| == 1 && line.taxes[0].kind == IGST)
  }

  lemma NearestNet(total: int, rate: real)
    requires rate >= 0.0
    ensures NetOf(Round(total as real / (1.0 + rate / 100.0)), total, rate)
  {
    var exact := total as real / (1.0 + rate / 100.0);
    RoundNear(exact);
    assert exact * (100.0 + rate) == 100.0 * total as real;
    Scaled(exact - Round(exact) as real, 100.0 + rate);
  }

  lemma Scaled(x: real, f: real)
    requires -0.5 <= x <= 0.5 && f > 0.0
    ensures -f <= 2.0 * (x * f) <= f
  {
  }

  function SplitGst(total: int, gst: Option<real>, sellerState: Option<string>,
                    buyerState: Option<string>): (line: Line)
    requires gst.Some? ==> gst.value >= 0.0
    ensures GstLine(line, total, if gst.Some? then gst.value else 18.0, sellerState, buyerState)
  {
    var rate := gst.GetOr(DEFAULT_GST);
    var net := Round(total as real / (1.0 + rate / 100.0));
    NearestNet(total, rate);
    var tax := total - net;
    if Intra(sellerState, buyerState) then
      var half := Round(tax as real / 2.0);
      HalfOf(tax);
      var taxes := [Tax(CGST, rate / 2.0, half), Tax(SGST, rate / 2.0, tax - half)];
      assert taxes[..1] == [taxes[0]] && TaxSum([taxes[0]]) == half && PercentSum([taxes[0]]) == rate / 2.0;
      Line(net, taxes, total)
    else
      var taxes := [Tax(IGST, rate, tax)];
      assert TaxSum(taxes) == tax && PercentSum(taxes) == rate;
      Line(net, taxes, total)
  }

  /** The item's own rate, or 18 percent. */
  function RateOf(i: Item): real {
    if i.gst.Some? then i.gst.value else 18.0
  }

  function LineOf(i: Item, sellerState: Option<string>, buyerState: Option<string>): (line: Line)
    requires Rated(i)
    ensures GstLine(line, i.price * i.quantity, RateOf(i), sellerState, buyerState)
  {
    SplitGst(i.price * i.quantity, i.gst, sellerState, buyerState)
  }

  lemma HalfOf(tax: int)
    ensures 0 <= 2 * Round(tax as real / 2.0) - tax <= 1
  {
  }

  // ---------- one page ----------

  function Subtotal(items: seq<Item>): nat {
    if items == [] then 0
    else Subtotal(items[..|items| - 1]) + items[|items| - 1].price * items[|items| - 1].quantity
  }

  function Nets(lines: seq<Line>): int {
    if lines == [] then 0 else Nets(lines[..|lines| - 1]) + lines[|lines| - 1].net
  }

  lemma NetsSnoc(lines: seq<Line>, line: Line)
    ensures Nets(lines + [line]) == Nets(lines) + line.net
  {
  }

  lemma NothingYet(items: seq<Item>)
    ensures Subtotal(items[..0]) == 0 && Nets([]) == 0
  {
  }

  lemma OneLineMore(items: seq<Item>, k: nat, lines: seq<Line>, line: Line)
    requires k < |items|
    ensures Subtotal(items[..k + 1]) == Subtotal(items[..k]) + items[k].price * items[k].quantity
    ensures Nets(lines + [line]) == Nets(lines) + line.net
  {
    assert items[..k + 1][..k] == items[..k];
    NetsSnoc(lines, line);
  }

  /** The first lines of a page are those of its items. */
  ghost predicate ItemLines(page: Page, items: seq<Item>, sellerState: Option<string>, buyerState: Option<string>) {
    |items| <= |page.lines|
    && forall k :: 0 <= k < |items| ==> ItemLine(page.lines[k], items[k], sellerState, buyerState)
  }

  ghost predicate ItemLine(line: Line, i: Item, sellerState: Option<string>, buyerState: Option<string>) {
    GstLine(line, i.price * i.quantity, RateOf(i), sellerState, buyerState)
  }

  lemma LineAddsUp(line: Line, total: int, rate: real, sellerState: Option<string>, buyerState: Option<string>)
    requires GstLine(line, total, rate, sellerState, buyerState)
    ensures line.total == total && line.net + TaxSum(line.taxes) == total
  {
  }

  /**
   Net amounts plus tax make up the grand total to the paisa; the grand total is
   what the items cost plus the delivery share.
   */
  method BuildOrderPage(g: Group, sellerState: Option<string>, buyerState: Option<string>, deliveryFee: nat)
    returns (page: Page)
    requires forall k :: 0 <= k < |g.items| ==> Rated(g.items[k])
    ensures page.seller == g.seller
    ensures Nets(page.lines) + page.totalTax == page.grandTotal
    ensures page.grandTotal == Subtotal(g.items) + deliveryFee
    ensures |page.lines| == |g.items| + if deliveryFee > 0 then 1 else 0
    ensures ItemLines(page, g.items, sellerState, buyerState)
    ensures deliveryFee > 0 ==> GstLine(page.lines[|g.items|], deliveryFee, 18.0, sellerState, buyerState)
  {
    hide SplitGst, LineOf, GstLine, Intra, TaxSum, Nets, Subtotal;
    NothingYet(g.items);
    var lines: seq<Line> := [];
    var totalTax, grandTotal := 0, 0;
    for k := 0 to |g.items|
      invariant |lines| == k
      invariant grandTotal == Subtotal(g.items[..k])
      invariant Nets(lines) + totalTax == grandTotal
      invariant forall j :: 0 <= j < k ==> ItemLine(lines[j], g.items[j], sellerState, buyerState)
    {
      var line := LineOf(g.items[k], sellerState, buyerState);
      LineAddsUp(line, g.items[k].price * g.items[k].quantity, RateOf(g.items[k]), sellerState, buyerState);
      totalTax := totalTax + TaxSum(line.taxes);
      grandTotal := grandTotal + line.total;
      OneLineMore(g.items, k, lines, line);
      lines := lines + [line];
    }
    assert g.items[..|g.items|] == g.items;
    if deliveryFee > 0 {
      var line := SplitGst(deliveryFee, Some(SHIPPING_GST), sellerState, buyerState);
      LineAddsUp(line, deliveryFee, 18.0, sellerState, buyerState);
      totalTax := totalTax + TaxSum(line.taxes);
      grandTotal := grandTotal + deliveryFee;
      NetsSnoc(lines, line);
      lines := lines + [line];
    }
    page := Page(g.seller, lines, totalTax, grandTotal);
  }

  // ---------- grouping ----------

  function OfSeller(items: seq<Item>, s: SellerId): seq<Item> {
    if items == [] then []
    else
      var last := items[|items| - 1];
      OfSeller(items[..|items| - 1], s) + if last.seller == s then [last] else []
  }

  /** The groups partition the items: one group a seller, holding that seller's items in order. */
  ghost predicate Partition(groups: seq<Group>, items: seq<Item>) {
    && (forall i, j :: 0 <= i < j < |groups| ==> groups[i].seller != groups[j].seller)
    && (forall g :: g in groups ==> g.items != [] && g.items == OfSeller(items, g.seller))
    && (forall i :: i in items ==> exists g :: g in groups && g.seller == i.seller)
  }

  function GroupTotal(groups: seq<Group>): nat {
    if groups == [] then 0
    else GroupTotal(groups[..|groups| - 1]) + Subtotal(groups[|groups| - 1].items)
  }

  lemma {:induction false} GroupTotalUpdate(groups: seq<Group>, k: nat, g: Group)
    requires k < |groups|
    ensures GroupTotal(groups[k := g]) == GroupTotal(groups) - Subtotal(groups[k].items) + Subtotal(g.items)
  {
    var n := |groups| - 1;
    if k == n {
      assert groups[k := g][..n] == groups[..n];
    } else {
      GroupTotalUpdate(groups[..n], k, g);
      assert groups[k := g][..n] == groups[..n][k := g];
    }
  }

  /** Where a seller's group is, or one past the end (the map's insertion order). */
  method FindGroup(groups: seq<Group>, s: SellerId) returns (k: nat)
    ensures k <= |groups|
    ensures k < |groups| ==> groups[k].seller == s
    ensures k == |groups| ==> forall g :: g in groups ==> g.seller != s
  {
    k := 0;
    while k < |groups| && groups[k].seller != s
      invariant k <= |groups|
      invariant forall j :: 0 <= j < k ==> groups[j].seller != s
    {
      k := k + 1;
    }
  }

  lemma {:induction false} NoneOfSeller(items: seq<Item>, s: SellerId)
    requires forall i :: i in items ==> i.seller != s
    ensures OfSeller(items, s) == []
  {
    if items != [] {
      NoneOfSeller(items[..|items| - 1], s);
    }
  }

  /** Adding to an existing group, or opening one, keeps the groups' total in step. */
  method AddToGroups(groups: seq<Group>, item: Item) returns (r: seq<Group>)
    ensures Extended(groups, r, item)
    ensures GroupTotal(r) == GroupTotal(groups) + item.price * item.quantity
  {
    var k := FindGroup(groups, item.seller);
    if k < |groups| {
      var g := Group(item.seller, groups[k].items + [item]);
      assert g.items[..|groups[k].items|] == groups[k].items;
      GroupTotalUpdate(groups, k, g);
      r := groups[k := g];
    } else {
      var g := Group(item.seller, [item]);
      assert (groups + [g])[..|groups|] == groups;
      assert Subtotal(g.items) == item.price * item.quantity by {
        assert g.items[..0] == [];
      }
      r := groups + [g];
    }
  }

  ghost predicate Extended(before: seq<Group>, after: seq<Group>, item: Item) {
    || (exists k :: 0 <= k < |before| && before[k].seller == item.seller
                    && after == before[k := Group(item.seller, before[k].items + [item])])
    || ((forall g :: g in before ==> g.seller != item.seller) && after == before + [Group(item.seller, [item])])
  }

  method GroupItemsBySeller(items: seq<Item>) returns (groups: seq<Group>)
    ensures Partition(groups, items)
    ensures GroupTotal(groups) == Subtotal(items)
  {
    hide Extended, Partition, OfSeller;
    groups := [];
    EmptyPartition();
    assert items[..0] == [];
    for n := 0 to |items|
      invariant Partition(groups, items[..n])
      invariant GroupTotal(groups) == Subtotal(items[..n])
    {
      ghost var before := groups;
      groups := AddToGroups(groups, items[n]);
      PartitionStep(before, groups, items[..n], items[n]);
      assert items[..n] + [items[n]] == items[..n + 1];
      assert items[..n + 1][..n] == items[..n];
    }
    assert items[..|items|] == items;
  }

  lemma EmptyPartition()
    ensures Partition([], [])
  {
  }

  lemma OfSellerSnoc(items: seq<Item>, item: Item, s: SellerId)
    ensures OfSeller(items + [item], s) == OfSeller(items, s) + if item.seller == s then [item] else []
  {
  }

  lemma PartitionStep(before: seq<Group>, after: seq<Group>, items: seq<Item>, item: Item)
    requires Partition(before, items)
    requires Extended(before, after, item)
    ensures Partition(after, items + [item])
  {
    var all := items + [item];
    hide OfSeller;
    if forall g :: g in before ==> g.seller != item.seller {
      NoneOfSeller(items, item.seller);
    }
    forall g | g in after
      ensures g.items != [] && g.items == OfSeller(all, g.seller)
    {
      OfSellerSnoc(items, item, g.seller);
      if g.seller != item.seller {
        assert g in before;
      }
    }
    forall i | i in all
      ensures exists g :: g in after && g.seller == i.seller
    {
      if i.seller == item.seller {
        var g := if after == before + [Group(item.seller, [item])] then after[|before|]
                 else (var k :| 0 <= k < |before| && before[k].seller == item.seller; after[k]);
        assert g in after;
      } else {
        var g :| g in before && g.seller == i.seller;
        var j :| 0 <= j < |before| && before[j] == g;
        assert after[j] == g;
      }
    }
  }

  // ---------- the delivery fee over several pages ----------

  /** The part of the fee that falls on `sub` out of `total`. */
  function Exact(fee: nat, sub: nat, total: nat): (x: real)
    requires total > 0
    ensures x >= 0.0
  {
    fee as real * sub as real / total as real
  }

  /** One seller pays the whole fee; several share it by their part of the item total (at least one rupee). */
  function DeliveryShare(fee: nat, sellers: nat, sub: nat, total: nat): (share: nat)
    requires sub <= total
  {
    if sellers == 1 then fee
    else
      RoundNear(Exact(fee, sub, Max(total, 100)));
      Round(Exact(fee, sub, Max(total, 100)))
  }

  function Shares(fee: nat, sellers: nat, groups: seq<Group>, total: nat): nat
    requires GroupTotal(groups) <= total
  {
    if groups == [] then 0
    else
      Shares(fee, sellers, groups[..|groups| - 1], total)
      + DeliveryShare(fee, sellers, Subtotal(groups[|groups| - 1].items), total)
  }

  function PageTotals(pages: seq<Page>): int {
    if pages == [] then 0 else PageTotals(pages[..|pages| - 1]) + pages[|pages| - 1].grandTotal
  }

  lemma {:induction false} GroupTotalAtLeast(groups: seq<Group>, k: nat)
    requires k < |groups|
    ensures Subtotal(groups[k].items) <= GroupTotal(groups)
  {
    if k < |groups| - 1 {
      GroupTotalAtLeast(groups[..|groups| - 1], k);
    }
  }

  lemma {:induction false} GroupTotalPrefix(groups: seq<Group>, k: nat)
    requires k <= |groups|
    ensures GroupTotal(groups[..k]) <= GroupTotal(groups)
  {
    if k < |groups| {
      GroupTotalPrefix(groups[..|groups| - 1], k);
      assert groups[..|groups| - 1][..k] == groups[..k];
    } else {
      assert groups[..k] == groups;
    }
  }

  lemma ExactAdds(fee: nat, part: nat, more: nat, total: nat)
    requires total > 0
    ensures Exact(fee, part + more, total) == Exact(fee, part, total) + Exact(fee, more, total)
  {
  }

  lemma ExactEnds(fee: nat, total: nat)
    requires total > 0
    ensures Exact(fee, 0, total) == 0.0 && Exact(fee, total, total) == fee as real
  {
  }

  /** Half a paisa for each page is all that rounding can add or lose. */
  lemma {:induction false} SharesNear(fee: nat, sellers: nat, groups: seq<Group>, total: nat)
    requires sellers != 1 && GroupTotal(groups) <= total
    ensures var off := Exact(fee, GroupTotal(groups), Max(total, 100)) - Shares(fee, sellers, groups, total) as real;
            -0.5 * |groups| as real <= off <= 0.5 * |groups| as real
  {
    hide Exact, Round, Subtotal, Max;
    AtLeastOneRupee(total);
    if groups == [] {
      ExactEnds(fee, Max(total, 100));
    } else {
      var front := groups[..|groups| - 1];
      var sub := Subtotal(groups[|groups| - 1].items);
      SharesNear(fee, sellers, front, total);
      ExactAdds(fee, GroupTotal(front), sub, Max(total, 100));
      RoundNear(Exact(fee, sub, Max(total, 100)));
      assert |groups| as real == |front| as real + 1.0;
    }
  }

  lemma AtLeastOneRupee(total: nat)
    ensures Max(total, 100) >= 100
  {
  }

  lemma WithinHalves(s: int, f: int, n: int)
    requires -0.5 * n as real <= f as real - s as real <= 0.5 * n as real
    ensures -n <= 2 * (s - f) <= n
  {
  }

  /** Within half a paisa a page of fee * total / 100. */
  predicate Floored(s: int, fee: nat, total: nat, n: int) {
    -100 * n <= 2 * (100 * s - fee * total) <= 100 * n
  }

  /** The part of the fee that the rupee floor leaves, in hundredths. */
  lemma WithinHundredths(s: int, fee: nat, total: nat, n: int)
    requires -0.5 * n as real <= Exact(fee, total, 100) - s as real <= 0.5 * n as real
    ensures Floored(s, fee, total, n)
  {
  }

  /**
   All shares together: the fee itself for one page; for more, within half a paisa a
   page of the fee when the items come to a rupee, and of fee * total / 100 below that,
   so that the fee * (100 - total) / 100 that the rupee floor takes off is lost.
   */
  lemma AllShares(fee: nat, groups: seq<Group>, total: nat)
    requires GroupTotal(groups) == total
    ensures |groups| == 1 ==> Shares(fee, |groups|, groups, total) == fee
    ensures total >= 100 ==> -|groups| <= 2 * (Shares(fee, |groups|, groups, total) - fee) <= |groups|
    ensures total < 100 && |groups| != 1 ==> Floored(Shares(fee, |groups|, groups, total), fee, total, |groups|)
  {
    if |groups| == 1 {
      assert Shares(fee, 1, groups[..0], total) == 0;
    } else {
      SharesNear(fee, |groups|, groups, total);
      hide Shares, Exact;
      if total >= 100 {
        ExactEnds(fee, total);
        WithinHalves(Shares(fee, |groups|, groups, total), fee, |groups|);
      } else {
        WithinHundredths(Shares(fee, |groups|, groups, total), fee, total, |groups|);
      }
    }
  }

  function StateOf(states: map<SellerId, string>, s: SellerId): Option<string> {
    if s in states then Some(states[s]) else None
  }

  lemma NoPagesYet(fee: nat, groups: seq<Group>, total: nat)
    ensures GroupTotal(groups[..0]) == 0 && Shares(fee, |groups|, groups[..0], total) == 0 && PageTotals([]) == 0
  {
  }

  lemma OnePageMore(fee: nat, groups: seq<Group>, total: nat, k: nat, pages: seq<Page>, page: Page)
    requires k < |groups| && |pages| == k && GroupTotal(groups[..k + 1]) <= total
    ensures GroupTotal(groups[..k + 1]) == GroupTotal(groups[..k]) + Subtotal(groups[k].items)
    ensures Shares(fee, |groups|, groups[..k + 1], total)
         == Shares(fee, |groups|, groups[..k], total) + DeliveryShare(fee, |groups|, Subtotal(groups[k].items), total)
    ensures PageTotals(pages + [page]) == PageTotals(pages) + page.grandTotal
  {
    hide DeliveryShare, Subtotal;
    assert groups[..k + 1][..k] == groups[..k];
    assert (pages + [page])[..k] == pages;
  }

  /**
   The pages of one order: their grand totals add up to the items plus the delivery
   fee, exactly for one seller and within half a paisa a page for several.
   */
  method BuildPages(items: seq<Item>, deliveryFee: nat, states: map<SellerId, string>, buyerState: Option<string>)
    returns (pages: seq<Page>)
    requires forall k :: 0 <= k < |items| ==> Rated(items[k])
    ensures |pages| == 1 ==> PageTotals(pages) == Subtotal(items) + deliveryFee
    ensures Subtotal(items) >= 100 ==>
              -|pages| <= 2 * (PageTotals(pages) - Subtotal(items) - deliveryFee) <= |pages|
    ensures Subtotal(items) < 100 && |pages| != 1 ==>
              Floored(PageTotals(pages) - Subtotal(items), deliveryFee, Subtotal(items), |pages|)
    ensures forall k :: 0 <= k < |pages| ==> Nets(pages[k].lines) + pages[k].totalTax == pages[k].grandTotal
    ensures forall i :: i in items ==> exists k :: 0 <= k < |pages| && pages[k].seller == i.seller
    ensures forall k :: 0 <= k < |pages| ==>
              ItemLines(pages[k], OfSeller(items, pages[k].seller), StateOf(states, pages[k].seller), buyerState)
  {
    hide GstLine, ItemLines, SplitGst, LineOf, Subtotal, DeliveryShare, OfSeller, Rated, Nets, Floored, GroupTotal,
      Shares, PageTotals;
    var groups := GroupItemsBySeller(items);
    var total := Subtotal(items);
    pages := [];
    NoPagesYet(deliveryFee, groups, total);
    for k := 0 to |groups|
      invariant |pages| == k
      invariant GroupTotal(groups[..k]) <= total
      invariant PageTotals(pages) == GroupTotal(groups[..k]) + Shares(deliveryFee, |groups|, groups[..k], total)
      invariant forall j :: 0 <= j < k ==> pages[j].seller == groups[j].seller
      invariant forall j :: 0 <= j < k ==>
                  ItemLines(pages[j], OfSeller(items, pages[j].seller), StateOf(states, pages[j].seller), buyerState)
      invariant forall j :: 0 <= j < k ==> Nets(pages[j].lines) + pages[j].totalTax == pages[j].grandTotal
    {
      var g := groups[k];
      GroupTotalAtLeast(groups, k);
      GroupTotalPrefix(groups, k + 1);
      RatedGroup(items, g);
      var share := DeliveryShare(deliveryFee, |groups|, Subtotal(g.items), total);
      var page := BuildOrderPage(g, StateOf(states, g.seller), buyerState, share);
      OnePageMore(deliveryFee, groups, total, k, pages, page);
      pages := pages + [page];
    }
    assert groups[..|groups|] == groups;
    AllShares(deliveryFee, groups, total);
  }

  lemma {:induction false} OfSellerFrom(items: seq<Item>, s: SellerId)
    ensures forall i :: i in OfSeller(items, s) ==> i in items && i.seller == s
  {
    if items != [] {
      OfSellerFrom(items[..|items| - 1], s);
    }
  }

  lemma RatedGroup(items: seq<Item>, g: Group)
    requires forall k :: 0 <= k < |items| ==> Rated(items[k])
    requires g.items == OfSeller(items, g.seller)
    ensures forall k :: 0 <= k < |g.items| ==> Rated(g.items[k])
  {
    OfSellerFrom(items, g.seller);
    forall k | 0 <= k < |g.items|
      ensures Rated(g.items[k])
    {
      assert g.items[k] in items;
    }
  }
}
