/**
 Where stock goes: the closed form of a transaction's stock movements, what cancelling
 an order restores, and the balance every step keeps.
 */
module StockLedger {
  import opened Base
  import opened Text
  import opened Variants
  import opened Streams
  import opened Shop

  // ---------- quantities ----------

  /** Quantity of a product (of one variant of it, when `variant` is given) on some lines. */
  function Quantity(lines: seq<Line>, p: ProductId, variant: Option<string>): nat {
    if lines == [] then 0
    else
      var l := lines[|lines| - 1];
      Quantity(lines[..|lines| - 1], p, variant)
      + if l.product == p && (variant.Some? ==> l.variantId == variant) then l.quantity else 0
  }

  /** The same over all orders that are not cancelled. */
  function Held(orders: seq<Order>, p: ProductId, variant: Option<string>): nat {
    if orders == [] then 0
    else
      var o := orders[|orders| - 1];
      Held(orders[..|orders| - 1], p, variant) + HeldBy(o, p, variant)
  }

  function HeldBy(o: Order, p: ProductId, variant: Option<string>): nat {
    if o.status == CANCELLED then 0 else Quantity(o.lines, p, variant)
  }

  lemma {:induction false} HeldUpdate(orders: seq<Order>, id: nat, o: Order, p: ProductId, variant: Option<string>)
    requires id < |orders| && o.lines == orders[id].lines
    ensures Held(orders[id := o], p, variant)
         == Held(orders, p, variant) - HeldBy(orders[id], p, variant) + HeldBy(o, p, variant)
  {
    var n := |orders| - 1;
    if id == n {
      assert orders[id := o][..n] == orders[..n];
    } else {
      HeldUpdate(orders[..n], id, o, p, variant);
      assert orders[id := o][..n] == orders[..n][id := o];
    }
  }

  // ---------- what holds of products and lines ----------

  /** Variant ids differ, no variant is oversold, and `stock` is the sum of the variants. */
  ghost predicate SoundProduct(p: Product) {
    HasVariants(p) ==>
      && NoDup(Ids(p.variants.value.items))
      && (forall i :: i in p.variants.value.items ==> i.stock >= 0 && Solid(i.id))
      && p.stock == StockSum(p.variants.value.items)
  }

  ghost predicate Sound(products: Products) {
    forall p :: p in products ==> SoundProduct(products[p])
  }

  /** The line names an existing product and, where there are variants, one of them. */
  ghost predicate Fits(products: Products, l: Line) {
    && l.product in products
    && (HasVariants(products[l.product]) ==>
          Given(l.variantId) && l.variantId.value in Ids(products[l.product].variants.value.items))
  }

  ghost predicate AllFit(products: Products, lines: seq<Line>) {
    forall i :: 0 <= i < |lines| ==> Fits(products, lines[i])
  }

  /** The variant structure of a product: its variant ids, or none. */
  ghost function Shape(p: Product): Option<seq<string>> {
    if HasVariants(p) then Some(Ids(p.variants.value.items)) else None
  }

  ghost predicate SameShapes(a: Products, b: Products) {
    a.Keys <= b.Keys && forall p :: p in a ==> Shape(a[p]) == Shape(b[p])
  }

  lemma FitsElsewhere(a: Products, b: Products, lines: seq<Line>)
    requires SameShapes(a, b) && AllFit(a, lines)
    ensures AllFit(b, lines)
  {
  }

  // ---------- the closed form of moving lines ----------

  function ShiftItem(i: VariantItem, lines: seq<Line>, p: ProductId, sign: int): VariantItem {
    i.(stock := i.stock + sign * Quantity(lines, p, Some(i.id)))
  }

  function ShiftItems(items: seq<VariantItem>, lines: seq<Line>, p: ProductId, sign: int): seq<VariantItem> {
    seq(|items|, k requires 0 <= k < |items| => ShiftItem(items[k], lines, p, sign))
  }

  /** The product after all its lines were moved. */
  function Shifted(x: Product, lines: seq<Line>, p: ProductId, sign: int): Product {
    if HasVariants(x) then
      var items := ShiftItems(x.variants.value.items, lines, p, sign);
      x.(variants := Some(x.variants.value.(items := items)), stock := StockSum(items))
    else x.(stock := x.stock + sign * Quantity(lines, p, None))
  }

  lemma ShiftNothing(x: Product, p: ProductId, sign: int)
    requires SoundProduct(x)
    ensures Shifted(x, [], p, sign) == x
  {
    if HasVariants(x) {
      assert ShiftItems(x.variants.value.items, [], p, sign) == x.variants.value.items;
    }
  }

  lemma ShapeKept(x: Product, lines: seq<Line>, p: ProductId, sign: int)
    ensures Shape(Shifted(x, lines, p, sign)) == Shape(x)
  {
    if HasVariants(x) {
      assert Ids(ShiftItems(x.variants.value.items, lines, p, sign)) == Ids(x.variants.value.items);
    }
  }

  lemma SignTimes(sign: int, a: nat, b: nat)
    ensures sign * (a + b) == sign * a + sign * b
  {
  }

  lemma QuantitySnoc(lines: seq<Line>, l: Line, p: ProductId, variant: Option<string>)
    ensures Quantity(lines + [l], p, variant)
         == Quantity(lines, p, variant)
            + if l.product == p && (variant.Some? ==> l.variantId == variant) then l.quantity else 0
  {
  }

  /** Moving one more line of another product changes nothing here. */
  lemma ShiftOther(x: Product, lines: seq<Line>, l: Line, p: ProductId, sign: int)
    requires l.product != p
    ensures Shifted(x, lines + [l], p, sign) == Shifted(x, lines, p, sign)
  {
    QuantitySnoc(lines, l, p, None);
    if HasVariants(x) {
      var items := x.variants.value.items;
      forall k | 0 <= k < |items|
        ensures ShiftItem(items[k], lines + [l], p, sign) == ShiftItem(items[k], lines, p, sign)
      {
        QuantitySnoc(lines, l, p, Some(items[k].id));
      }
      assert ShiftItems(items, lines + [l], p, sign) == ShiftItems(items, lines, p, sign);
    }
  }

  lemma IndexOfShift(items: seq<VariantItem>, lines: seq<Line>, p: ProductId, sign: int, id: string)
    requires NoDup(Ids(items)) && id in Ids(items)
    ensures var k := IndexOf(ShiftItems(items, lines, p, sign), id);
            k < |items| && items[k].id == id && forall j :: 0 <= j < |items| && j != k ==> items[j].id != id
  {
    var shifted := ShiftItems(items, lines, p, sign);
    var k := IndexOf(shifted, id);
    var j :| 0 <= j < |items| && Ids(items)[j] == id;
    assert shifted[j].id == id;
    forall j | 0 <= j < |items| && j != k
      ensures items[j].id != id
    {
      assert Ids(items)[j] != Ids(items)[k];
    }
  }

  /** Moving one more line of this variant changes exactly that variant. */
  lemma ShiftVariant(items: seq<VariantItem>, lines: seq<Line>, l: Line, p: ProductId, sign: int, k: nat)
    requires l.product == p && k < |items| && l.variantId == Some(items[k].id)
    requires forall j :: 0 <= j < |items| && j != k ==> items[j].id != items[k].id
    ensures var before := ShiftItems(items, lines, p, sign);
            ShiftItems(items, lines + [l], p, sign)
            == before[k := before[k].(stock := before[k].stock + sign * l.quantity)]
  {
  }

  lemma MoveVariantShift(v: Variants, lines: seq<Line>, l: Line, sign: int)
    requires NoDup(Ids(v.items)) && l.variantId.Some? && l.variantId.value in Ids(v.items)
    ensures var now := v.(items := ShiftItems(v.items, lines, l.product, sign));
            var moved := ApplyStockDelta(now, l.variantId.value, sign * l.quantity);
            && (moved.Ok? <==> StockOf(now, l.variantId.value) + sign * l.quantity >= 0)
            && (moved.Ok? ==> moved.value == v.(items := ShiftItems(v.items, lines + [l], l.product, sign)))
  {
    var items := v.items;
    IndexOfShift(items, lines, l.product, sign, l.variantId.value);
    var k := IndexOf(ShiftItems(items, lines, l.product, sign), l.variantId.value);
    ShiftVariant(items, lines, l, l.product, sign, k);
  }

  lemma MoveLineShift(x: Product, lines: seq<Line>, l: Line, sign: int, now: Products)
    requires SoundProduct(x) && l.product in now && now[l.product] == Shifted(x, lines, l.product, sign)
    requires HasVariants(x) ==> Given(l.variantId) && l.variantId.value in Ids(x.variants.value.items)
    ensures MoveLine(now, l, sign).Ok? ==>
              MoveLine(now, l, sign).value == now[l.product := Shifted(x, lines + [l], l.product, sign)]
    ensures MoveLine(now, l, sign).Ok? <==>
              HasVariants(x) ==> StockOf(now[l.product].variants.value, l.variantId.value) + sign * l.quantity >= 0
  {
    var p := l.product;
    if HasVariants(x) {
      hide ApplyStockDelta, StockOf, Quantity, StockSum, ShiftItem;
      MoveVariantShift(x.variants.value, lines, l, sign);
      assert HasVariants(now[p]);
    } else {
      QuantitySnoc(lines, l, p, None);
      SignTimes(sign, Quantity(lines, p, None), l.quantity);
      assert !HasVariants(now[p]);
    }
  }

  /**
   A transaction that succeeds moves every product by exactly the quantities on its
   lines, however many lines name the same product.
   */
  lemma {:induction false} MoveLinesClosedForm(products: Products, lines: seq<Line>, sign: int)
    requires Sound(products) && AllFit(products, lines)
    requires MoveLines(products, lines, sign).Ok?
    ensures var after := MoveLines(products, lines, sign).value;
            after.Keys == products.Keys
            && forall p :: p in products ==> after[p] == Shifted(products[p], lines, p, sign)
  {
    if lines == [] {
      forall p | p in products
        ensures products[p] == Shifted(products[p], lines, p, sign)
      {
        ShiftNothing(products[p], p, sign);
      }
    } else {
      var front, l := lines[..|lines| - 1], lines[|lines| - 1];
      assert lines == front + [l];
      MoveLinesClosedForm(products, front, sign);
      var mid := MoveLines(products, front, sign).value;
      MoveLineShift(products[l.product], front, l, sign, mid);
      forall p | p in products && p != l.product
        ensures Shifted(products[p], lines, p, sign) == Shifted(products[p], front, p, sign)
      {
        ShiftOther(products[p], front, l, p, sign);
      }
    }
  }

  /** Giving stock back never fails. */
  lemma {:induction false} RestockSucceeds(products: Products, lines: seq<Line>)
    requires Sound(products) && AllFit(products, lines)
    ensures MoveLines(products, lines, 1).Ok?
  {
    if lines != [] {
      var front, l := lines[..|lines| - 1], lines[|lines| - 1];
      assert lines == front + [l];
      RestockSucceeds(products, front);
      MoveLinesClosedForm(products, front, 1);
      var mid := MoveLines(products, front, 1).value;
      MoveLineShift(products[l.product], front, l, 1, mid);
      if HasVariants(products[l.product]) {
        var items := products[l.product].variants.value.items;
        IndexOfShift(items, front, l.product, 1, l.variantId.value);
        var k := IndexOf(ShiftItems(items, front, l.product, 1), l.variantId.value);
        assert items[k] in items;
      }
    }
  }

  lemma ShiftBack(x: Product, lines: seq<Line>, p: ProductId)
    requires SoundProduct(x)
    ensures Shifted(Shifted(x, lines, p, -1), lines, p, 1) == x
  {
    if HasVariants(x) {
      var items := x.variants.value.items;
      assert ShiftItems(ShiftItems(items, lines, p, -1), lines, p, 1) == items;
    }
  }

  // ---------- what a transaction does to each stock figure ----------

  /** A product's stock figure: of one variant, or of the product itself. */
  function StockFigure(x: Product, variant: Option<string>): int {
    if variant.None? then x.stock
    else if HasVariants(x) then StockOf(x.variants.value, variant.value)
    else 0
  }

  /** The figures kept by a product: its own and that of each variant. */
  ghost predicate IsFigure(x: Product, variant: Option<string>) {
    variant.Some? ==> HasVariants(x) && variant.value in Ids(x.variants.value.items)
  }

  lemma ShiftItemsOther(items: seq<VariantItem>, lines: seq<Line>, l: Line, p: ProductId, sign: int)
    requires l.product != p
    ensures ShiftItems(items, lines + [l], p, sign) == ShiftItems(items, lines, p, sign)
  {
  }

  lemma StockSumOneMore(items: seq<VariantItem>, lines: seq<Line>, l: Line, sign: int)
    requires NoDup(Ids(items)) && l.variantId.Some? && l.variantId.value in Ids(items)
    ensures StockSum(ShiftItems(items, lines + [l], l.product, sign))
         == StockSum(ShiftItems(items, lines, l.product, sign)) + sign * l.quantity
  {
    hide Quantity, StockSum, IndexOf;
    IndexOfShift(items, lines, l.product, sign, l.variantId.value);
    var before := ShiftItems(items, lines, l.product, sign);
    var k := IndexOf(before, l.variantId.value);
    ShiftVariant(items, lines, l, l.product, sign, k);
    StockSumUpdate(before, k, before[k].(stock := before[k].stock + sign * l.quantity));
  }

  lemma {:induction false} StockSumShift(items: seq<VariantItem>, lines: seq<Line>, p: ProductId, sign: int)
    requires NoDup(Ids(items))
    requires forall i :: 0 <= i < |lines| && lines[i].product == p ==>
               lines[i].variantId.Some? && lines[i].variantId.value in Ids(items)
    ensures StockSum(ShiftItems(items, lines, p, sign)) == StockSum(items) + sign * Quantity(lines, p, None)
    decreases |lines|
  {
    if lines == [] {
      assert ShiftItems(items, lines, p, sign) == items;
    } else {
      hide StockSum, ShiftItems, NoDup;
      var front, l := lines[..|lines| - 1], lines[|lines| - 1];
      assert lines == front + [l];
      StockSumShift(items, front, p, sign);
      if l.product == p {
        StockSumOneMore(items, front, l, sign);
        SignTimes(sign, Quantity(front, p, None), l.quantity);
      } else {
        ShiftItemsOther(items, front, l, p, sign);
      }
    }
  }

  /** Every figure of every product moves by exactly the ordered quantity. */
  lemma ShiftedFigure(products: Products, lines: seq<Line>, p: ProductId, sign: int, variant: Option<string>)
    requires Sound(products) && AllFit(products, lines) && p in products && IsFigure(products[p], variant)
    ensures StockFigure(Shifted(products[p], lines, p, sign), variant)
         == StockFigure(products[p], variant) + sign * Quantity(lines, p, variant)
  {
    var x := products[p];
    if HasVariants(x) {
      var items := x.variants.value.items;
      if variant.Some? {
        IndexOfShift(items, lines, p, sign, variant.value);
        IndexOfShift(items, [], p, 0, variant.value);
        assert ShiftItems(items, [], p, 0) == items;
      } else {
        forall i | 0 <= i < |lines| && lines[i].product == p
          ensures lines[i].variantId.Some? && lines[i].variantId.value in Ids(items)
        {
          assert Fits(products, lines[i]);
        }
        StockSumShift(items, lines, p, sign);
      }
    }
  }

  /** One step of a transaction keeps every product sound: the guard stops a variant from going negative. */
  lemma MoveLineSound(products: Products, l: Line, sign: int)
    requires Sound(products) && Fits(products, l) && MoveLine(products, l, sign).Ok?
    ensures Sound(MoveLine(products, l, sign).value) && SameShapes(products, MoveLine(products, l, sign).value)
    ensures MoveLine(products, l, sign).value.Keys == products.Keys
  {
    var x := products[l.product];
    if HasVariants(x) {
      var v, id, delta := x.variants.value, l.variantId.value, sign * l.quantity;
      DeltaMovesOne(v, id, delta);
      var w := ApplyStockDelta(v, id, delta).value;
      forall i | i in w.items
        ensures i.stock >= 0 && Solid(i.id)
      {
        var j :| 0 <= j < |w.items| && w.items[j] == i;
        assert v.items[j] in v.items;
      }
      assert SoundProduct(MoveLine(products, l, sign).value[l.product]);
    }
  }

  lemma {:induction false} MoveLinesSound(products: Products, lines: seq<Line>, sign: int)
    requires Sound(products) && AllFit(products, lines) && MoveLines(products, lines, sign).Ok?
    ensures Sound(MoveLines(products, lines, sign).value)
            && SameShapes(products, MoveLines(products, lines, sign).value)
    ensures MoveLines(products, lines, sign).value.Keys == products.Keys
  {
    if lines != [] {
      var front, l := lines[..|lines| - 1], lines[|lines| - 1];
      assert lines == front + [l];
      assert Fits(products, l);
      MoveLinesSound(products, front, sign);
      var mid := MoveLines(products, front, sign).value;
      assert AllFit(products, [l]);
      FitsElsewhere(products, mid, [l]);
      assert Fits(mid, [l][0]);
      MoveLineSound(mid, l, sign);
    }
  }

  lemma {:induction false} QuantityAbsent(lines: seq<Line>, p: ProductId, id: string)
    requires forall i :: 0 <= i < |lines| && lines[i].product == p ==> lines[i].variantId != Some(id)
    ensures Quantity(lines, p, Some(id)) == 0
  {
    if lines != [] {
      QuantityAbsent(lines[..|lines| - 1], p, id);
    }
  }

  /** Each line finds enough stock of its variant by itself. */
  ghost predicate Enough(products: Products, l: Line) {
    l.product in products && HasVariants(products[l.product]) && l.variantId.Some? ==>
      StockOf(products[l.product].variants.value, l.variantId.value) >= l.quantity
  }

  /** Lines for different things, each with enough stock, can all be taken together. */
  lemma {:induction false} DifferentLinesTaken(products: Products, lines: seq<Line>)
    requires Sound(products) && AllFit(products, lines)
    requires forall k :: 0 <= k < |lines| ==> Enough(products, lines[k])
    requires forall i, j :: 0 <= i < j < |lines| && lines[i].product == lines[j].product ==>
               lines[i].variantId != lines[j].variantId
    ensures MoveLines(products, lines, -1).Ok?
  {
    if lines != [] {
      var n := |lines| - 1;
      var front, l := lines[..n], lines[n];
      DifferentLinesTaken(products, front);
      MoveLinesClosedForm(products, front, -1);
      var mid := MoveLines(products, front, -1).value;
      assert Fits(products, l) && Enough(products, l);
      MoveLineShift(products[l.product], front, l, -1, mid);
      if HasVariants(products[l.product]) {
        ShiftedFigure(products, front, l.product, -1, l.variantId);
        QuantityAbsent(front, l.product, l.variantId.value);
      }
    }
  }

  // ---------- validation, then commit, with nothing in between ----------

  /** Lines that passed validation name existing products and existing variants. */
  lemma PricedLinesFit(products: Products, items: seq<Request>)
    requires Sound(products) && Checked(products, items)
    ensures AllFit(products, PricedLines(products, items))
  {
    forall i | 0 <= i < |items|
      ensures Fits(products, PricedLine(products, items[i]))
    {
      var r := items[i];
      assert r in items;
      var x := products[r.product];
      if HasVariants(x) {
        var its := x.variants.value.items;
        var k := IndexOf(its, r.variantId.value);
        assert its[k] in its && Ids(its)[k] == r.variantId.value;
        TrimFixes(r.variantId.value);
      }
    }
  }

  /** `create` then `cancelOrder` gives back every stock figure exactly. */
  lemma CreateThenCancel(db: Tables, t: Ticket)
    requires Sound(db.products) && AllFit(db.products, t.lines) && Commit(db, t).Ok?
    ensures var placed := Commit(db, t).value;
            var cancelled := Cancel(placed, |db.orders|, Some(t.buyer));
            cancelled.Ok? && cancelled.value.products == db.products
            && cancelled.value.orders == db.orders + [NewOrder(t).(status := CANCELLED)]
  {
    var placed := Commit(db, t).value;
    MoveLinesClosedForm(db.products, t.lines, -1);
    MoveLinesSound(db.products, t.lines, -1);
    FitsElsewhere(db.products, placed.products, t.lines);
    RestockSucceeds(placed.products, t.lines);
    MoveLinesClosedForm(placed.products, t.lines, 1);
    forall p | p in db.products
      ensures MoveLines(placed.products, t.lines, 1).value[p] == db.products[p]
    {
      ShiftBack(db.products[p], t.lines, p);
    }
  }

  /** A buyer can cancel exactly their own pending, paid and packed orders: stock can always be given back. */
  lemma CancelExactly(db: Tables, id: nat, buyer: Option<BuyerId>)
    requires Sound(db.products) && (id < |db.orders| ==> AllFit(db.products, db.orders[id].lines))
    ensures Cancel(db, id, buyer).Ok?
       <==> && id < |db.orders| && buyer == Some(db.orders[id].buyer)
            && (db.orders[id].status == PENDING || db.orders[id].status == PAID || db.orders[id].status == PACKED)
    ensures Cancel(db, id, buyer).Ok? ==>
              && Cancel(db, id, buyer).value.orders == db.orders[id := db.orders[id].(status := CANCELLED)]
              && MoveLines(db.products, db.orders[id].lines, 1) == Ok(Cancel(db, id, buyer).value.products)
  {
    if id < |db.orders| {
      RestockSucceeds(db.products, db.orders[id].lines);
    }
  }

  /**
   A plain product keeps a non-negative stock through `create` exactly when its lines ask for
   no more than there is.
   */
  lemma PlainStockAfterCreate(db: Tables, t: Ticket, p: ProductId)
    requires Sound(db.products) && AllFit(db.products, t.lines) && Commit(db, t).Ok?
    requires p in db.products && !HasVariants(db.products[p])
    ensures p in Commit(db, t).value.products
    ensures Commit(db, t).value.products[p].stock >= 0 <==> Quantity(t.lines, p, None) <= db.products[p].stock
  {
    MoveLinesClosedForm(db.products, t.lines, -1);
  }

  lemma {:induction false} QuantityNone(lines: seq<Line>, p: ProductId)
    requires forall i :: 0 <= i < |lines| ==> lines[i].product != p
    ensures Quantity(lines, p, None) == 0
  {
    if lines != [] {
      QuantityNone(lines[..|lines| - 1], p);
    }
  }

  lemma {:induction false} QuantityOnce(lines: seq<Line>, p: ProductId, k: nat)
    requires k < |lines| && lines[k].product == p
    requires forall i :: 0 <= i < |lines| && i != k ==> lines[i].product != p
    ensures Quantity(lines, p, None) == lines[k].quantity
  {
    var n := |lines| - 1;
    if k == n {
      QuantityNone(lines[..n], p);
    } else {
      QuantityOnce(lines[..n], p, k);
    }
  }

  /** Validation directly followed by commit keeps a plain product from going negative when the order names it once. */
  lemma NamedOnceStaysNonNegative(
    db: Tables, streams: map<StreamId, Stream>, now: int, buyer: Option<BuyerId>, dto: OrderDto, p: ProductId, k: nat)
    requires Sound(db.products) && Prepare(db.products, streams, now, buyer, dto).Ok?
    requires Commit(db, Prepare(db.products, streams, now, buyer, dto).value).Ok?
    requires k < |dto.items| && dto.items[k].product == p
    requires forall i :: 0 <= i < |dto.items| && i != k ==> dto.items[i].product != p
    requires p in db.products && !HasVariants(db.products[p])
    ensures var after := Commit(db, Prepare(db.products, streams, now, buyer, dto).value).value.products;
            p in after && after[p].stock >= 0
  {
    CheckItemsEach(db.products, dto.items);
    assert dto.items[k] in dto.items;
    PricedLinesFit(db.products, dto.items);
    var t := Prepare(db.products, streams, now, buyer, dto).value;
    QuantityOnce(t.lines, p, k);
    PlainStockAfterCreate(db, t, p);
  }
}
