/**
 The orders service working on its tables in place: validation and transaction loops,
 the status steps, and the checkout across carts and orders. Every method is tied to
 its function in `Shop` or `Checkout`; `StockLedger` and `OrderRuns` say what those mean.
 */
module OrdersService {
  import opened Base
  import opened Text
  import opened Streams
  import opened Variants
  import opened Shop
  import opened Redis
  import C = Carts
  import opened CartService
  import opened Checkout
  import opened OrderCalls
  import opened OrderRuns

  class OrdersService {
    const carts: CartService
    var products: Products
    var orders: seq<Order>
    var buyers: map<C.UserId, BuyerId>

    constructor (carts: CartService)
      ensures this.carts == carts && products == map[] && orders == [] && buyers == map[]
      ensures Valid()
    {
      this.carts := carts;
      products, orders, buyers := map[], [], map[];
    }

    ghost function Db(): Tables
      reads this
    {
      Tables(products, orders)
    }

    /** What holds between calls: see `OrderRuns`. */
    ghost predicate Valid()
      reads this
    {
      Healthy(Db())
    }

    ghost function View(): Checkout.World
      reads this, carts, carts.redis
    {
      Checkout.World(carts.View(), carts.streams, Tables(products, orders), buyers)
    }

    // ---------- placing an order ----------

    method ValidateItems(stream: Option<Stream>, now: int, items: seq<Shop.Request>) returns (failure: Option<Failure>)
      ensures failure == ValidateOrderItems(products, stream, now, items)
    {
      if items == [] {
        return Some(EmptyOrder);
      }
      var refusal := AssertStreamAndProducts(stream, now, ProductIds(items));
      if refusal.Some? {
        return Some(StreamRefused(refusal.value));
      }
      if !(forall r :: r in items ==> r.product in products) {
        return Some(ProductsNotFound);
      }
      for k := 0 to |items|
        invariant CheckItems(products, items[..k]) == None
      {
        assert items[..k + 1][..k] == items[..k];
        var bad := CheckItem(products, items[k]);
        if bad.Some? {
          FirstBad(products, items, k);
          return bad;
        }
      }
      assert items[..|items|] == items;
      failure := None;
    }

    /** The lines and the total of a validated order, priced one by one. */
    method PriceItems(items: seq<Shop.Request>) returns (lines: seq<Line>, total: real)
      requires Checked(products, items)
      ensures lines == PricedLines(products, items) && total == LinesTotal(lines)
    {
      lines, total := [], 0.0;
      for k := 0 to |items|
        invariant |lines| == k && total == LinesTotal(lines)
        invariant forall j :: 0 <= j < k ==> lines[j] == PricedLine(products, items[j])
      {
        assert items[k] in items;
        var line := PricedLine(products, items[k]);
        assert (lines + [line])[..k] == lines;
        total := total + line.price * line.quantity as real;
        lines := lines + [line];
      }
    }

    /** One transaction over a working copy: the copy is kept only if every line could be moved. */
    method MoveAll(lines: seq<Line>, sign: int) returns (r: Result<Products, StockError>)
      ensures r == MoveLines(products, lines, sign)
    {
      var tx := products;
      for k := 0 to |lines|
        invariant MoveLines(products, lines[..k], sign) == Ok(tx)
      {
        assert lines[..k + 1][..k] == lines[..k];
        var l := lines[k];
        if l.product in tx {
          var p := tx[l.product];
          if Given(l.variantId) && HasVariants(p) {
            var moved := ApplyStockDelta(p.variants.value, l.variantId.value, sign * l.quantity);
            if moved.Err? {
              FirstRefused(products, lines, sign, k, moved.error);
              return Err(moved.error);
            }
            tx := tx[l.product := p.(variants := Some(moved.value), stock := StockSum(moved.value.items))];
          } else {
            tx := tx[l.product := p.(stock := p.stock + sign * l.quantity)];
          }
        }
      }
      assert lines[..|lines|] == lines;
      r := Ok(tx);
    }

    method Create(dto: OrderDto, buyer: Option<BuyerId>, now: int) returns (r: Result<nat, Failure>)
      requires Valid()
      modifies this`products, this`orders
      ensures var ticket := Prepare(old(products), carts.streams, now, buyer, dto);
              if ticket.Err? then r == Err(ticket.error) && Db() == old(Db())
              else
                var placed := Commit(old(Db()), ticket.value);
                if placed.Err? then r == Err(placed.error) && Db() == old(Db())
                else r == Ok(|old(orders)|) && Db() == placed.value
      ensures Valid()
    {
      hide MoveLines, PricedLines, LinesTotal, ValidateOrderItems, Healthy;
      if Prepare(products, carts.streams, now, buyer, dto).Ok? {
        CommitKeepsHealthy(Db(), carts.streams, now, buyer, dto, NO_PAYMENT);
      }
      if buyer.None? {
        return Err(NotABuyer);
      }
      if dto.items == [] {
        return Err(EmptyOrder);
      }
      if !Given(dto.streamId) {
        return Err(StreamRequired);
      }
      var sid := dto.streamId.value;
      var stream := if sid in carts.streams then Some(carts.streams[sid]) else None;
      var failure := ValidateItems(stream, now, dto.items);
      if failure.Some? {
        return Err(failure.value);
      }
      ValidatedItems(products, stream, now, dto.items);
      var lines, total := PriceItems(dto.items);
      ghost var ticket := Ticket(buyer.value, sid, dto.address, lines, total);
      var moved := MoveAll(lines, -1);
      if moved.Err? {
        return Err(StockRefused(moved.error));
      }
      r := Ok(|orders|);
      orders := orders + [Order(buyer.value, Some(sid), dto.address,
                                PENDING, total, lines, 0.0, None, None, None, None, None, None)];
      products := moved.value;
    }

    // ---------- status steps ----------

    method AcceptOrder(id: nat, seller: Option<SellerId>) returns (r: Result<(), Failure>)
      requires Valid()
      modifies this`orders
      ensures Outcome(Accept(old(Db()), id, seller), old(Db()), Db(), r)
      ensures Valid()
    {
      WholeKeepsHealthy(Db(), Accepts(id, seller));
      var found := FindSellersOrder(id, seller);
      if found.Err? {
        return Err(found.error);
      }
      var o := found.value;
      if o.status != PENDING {
        return Err(WrongStatus(o.status));
      }
      orders := orders[id := o.(status := PAID)];
      r := Ok(());
    }

    method ShipOrder(id: nat, seller: Option<SellerId>, trackingId: string) returns (r: Result<(), Failure>)
      requires Valid()
      modifies this`orders
      ensures Outcome(Ship(old(Db()), id, seller, trackingId), old(Db()), Db(), r)
      ensures Valid()
    {
      WholeKeepsHealthy(Db(), Ships(id, seller, trackingId));
      var found := FindSellersOrder(id, seller);
      if found.Err? {
        return Err(found.error);
      }
      var o := found.value;
      if Given(o.streamId) {
        return Err(LiveOrdersUsePackingVideo);
      }
      if o.status != PAID {
        return Err(WrongStatus(o.status));
      }
      orders := orders[id := o.(status := SHIPPED, trackingId := Some(trackingId))];
      r := Ok(());
    }

    method DeliverOrder(id: nat, seller: Option<SellerId>, now: int) returns (r: Result<(), Failure>)
      requires Valid()
      modifies this`orders
      ensures Outcome(Deliver(old(Db()), id, seller, now), old(Db()), Db(), r)
      ensures Valid()
    {
      WholeKeepsHealthy(Db(), Delivers(id, seller, now));
      var found := FindSellersOrder(id, seller);
      if found.Err? {
        return Err(found.error);
      }
      var o := found.value;
      if o.status != SHIPPED {
        return Err(WrongStatus(o.status));
      }
      orders := orders[id := o.(status := DELIVERED, deliveredAt := Some(now))];
      r := Ok(());
    }

    /** Restocks all lines and cancels, or does neither. */
    method CancelOrder(id: nat, buyer: Option<BuyerId>) returns (r: Result<(), Failure>)
      requires Valid()
      modifies this`orders, this`products
      ensures Outcome(Cancel(old(Db()), id, buyer), old(Db()), Db(), r)
      ensures Valid()
    {
      WholeKeepsHealthy(Db(), Cancels(id, buyer));
      var found := FindBuyersOrder(id, buyer);
      if found.Err? {
        return Err(found.error);
      }
      var o := found.value;
      if o.status != PENDING && o.status != PAID && o.status != PACKED {
        return Err(WrongStatus(o.status));
      }
      var moved := MoveAll(o.lines, 1);
      if moved.Err? {
        return Err(StockRefused(moved.error));
      }
      products := moved.value;
      orders := orders[id := o.(status := CANCELLED)];
      r := Ok(());
    }

    method ReturnOrder(id: nat, buyer: Option<BuyerId>) returns (r: Result<(), Failure>)
      requires Valid()
      modifies this`orders
      ensures Outcome(Return(old(Db()), id, buyer), old(Db()), Db(), r)
      ensures Valid()
    {
      WholeKeepsHealthy(Db(), Returns(id, buyer));
      var found := FindBuyersOrder(id, buyer);
      if found.Err? {
        return Err(found.error);
      }
      var o := found.value;
      if o.status != DELIVERED {
        return Err(WrongStatus(o.status));
      }
      orders := orders[id := o.(status := RETURNED)];
      r := Ok(());
    }

    method RecordPackingVideo(id: nat, seller: Option<SellerId>, video: Option<string>) returns (r: Result<(), Failure>)
      requires Valid()
      modifies this`orders
      ensures Outcome(UploadPackingVideo(old(Db()), id, seller, video), old(Db()), Db(), r)
      ensures Valid()
    {
      WholeKeepsHealthy(Db(), Packs(id, seller, video));
      if !Given(video) {
        return Err(VideoRequired);
      }
      var found := FindLiveSellersOrder(id, seller);
      if found.Err? {
        return Err(found.error);
      }
      var o := found.value;
      if o.status != PAID {
        return Err(WrongStatus(o.status));
      }
      orders := orders[id := o.(packingVideo := video, status := PACKED)];
      r := Ok(());
    }

    method RequestDeliveryFromPartner(id: nat, seller: Option<SellerId>, waybill: Option<string>)
      returns (r: Result<(), Failure>)
      requires Valid()
      modifies this`orders
      ensures Outcome(RequestDelivery(old(Db()), id, seller, waybill), old(Db()), Db(), r)
      ensures Valid()
    {
      WholeKeepsHealthy(Db(), RequestsDelivery(id, seller, waybill));
      var found := FindLiveSellersOrder(id, seller);
      if found.Err? {
        return Err(found.error);
      }
      var o := found.value;
      if o.status != PACKED {
        return Err(WrongStatus(o.status));
      }
      if !Given(waybill) {
        return Err(NoShipment);
      }
      orders := orders[id := o.(status := SHIPPED, trackingId := waybill, provider := Some("DELHIVERY"))];
      r := Ok(());
    }

    method GetDeliveryStatus(id: nat, seller: Option<SellerId>, delivered: bool, now: int)
      returns (r: Result<(), Failure>)
      requires Valid()
      modifies this`orders
      ensures Outcome(PollDelivery(old(Db()), id, seller, delivered, now), old(Db()), Db(), r)
      ensures Valid()
    {
      WholeKeepsHealthy(Db(), Polls(id, seller, delivered, now));
      var found := FindSellersOrder(id, seller);
      if found.Err? {
        return Err(found.error);
      }
      var o := found.value;
      if o.provider == Some("DELHIVERY") && Given(o.trackingId) && delivered {
        orders := orders[id := o.(status := DELIVERED,
                                    deliveredAt := if o.deliveredAt.Some? then o.deliveredAt else Some(now))];
      }
      r := Ok(());
    }

    // ---------- from cart to order ----------

    method PriceCart(items: seq<C.CartItem>) returns (priced: seq<PricedItem>)
      ensures priced == PriceAll(products, items)
    {
      priced := [];
      for k := 0 to |items|
        invariant priced == PriceAll(products, items[..k])
      {
        assert items[..k + 1][..k] == items[..k];
        var p := Price(products, items[k]);
        if p.Some? {
          priced := priced + [p.value];
        }
      }
      assert items[..|items|] == items;
    }

    method ValidateCart(u: C.UserId, now: int) returns (failure: Option<CheckoutError>)
      modifies carts.redis
      ensures (carts.View(), failure) == ValidateCartForCheckout(old(View()), u, now)
    {
      var raw := carts.LoadForUser(u, now);
      if raw.items == [] {
        return Some(CartEmpty);
      }
      if !Given(raw.streamId) {
        return Some(StreamContextRequired);
      }
      var cart := carts.Get(u, now);
      var priced := PriceCart(cart.items);
      if priced == [] {
        return Some(CartEmpty);
      }
      if |priced| != |raw.items| {
        return Some(ProductsUnavailable);
      }
      if u !in buyers {
        return Some(NoBuyer);
      }
      var refused := ValidateItems(StreamRow(carts.streams, raw.streamId.value), now, Requests(priced));
      failure := if refused.Some? then Some(OrderRefused(refused.value)) else None;
    }

    method PrepareForPayment(u: C.UserId, now: int, address: Option<string>, quote: Quote)
      returns (r: Result<Prepared, CheckoutError>)
      modifies carts.redis
      ensures (carts.View(), r) == PrepareCheckout(old(View()), u, now, address, quote)
    {
      hide ValidateCartForCheckout, C.GetCart, PriceAll, Subtotal;
      var failure := ValidateCart(u, now);
      if failure.Some? {
        return Err(failure.value);
      }
      var cart := carts.Get(u, now);
      var priced := PriceCart(cart.items);
      if priced == [] {
        return Err(CartEmpty);
      }
      if !Given(cart.streamId) {
        return Err(StreamContextRequired);
      }
      if address.None? {
        return Err(AddressNotFound);
      }
      if quote.Refused? {
        return Err(QuoteRefused);
      }
      var fee := if quote.Fee? then quote.fee else 0.0;
      var total := Subtotal(priced) + fee;
      if total <= 0.0 {
        return Err(NothingToPay);
      }
      r := Ok(Prepared(Subtotal(priced), fee, total, cart.streamId.value, address.value,
                       if quote.Fee? then quote.provider else None));
    }

    method CheckoutCart(u: C.UserId, now: int, address: Option<string>, payment: Payment)
      returns (r: Result<nat, CheckoutError>)
      requires Valid()
      modifies this`products, this`orders, carts.redis
      ensures (View(), r) == CheckoutFromCart(old(View()), u, now, address, payment)
      ensures Valid()
    {
      hide ValidateCartForCheckout, C.GetCart, PriceAll, Prepare, Commit, CommitPaid, C.ClearCart, Healthy,
        ApplyPayment, Requests, Given, IdsTaken;
      CheckoutKeepsHealthy(View(), u, now, address, payment);
      var failure := ValidateCart(u, now);
      if failure.Some? {
        return Err(failure.value);
      }
      var cart := carts.Get(u, now);
      var priced := PriceCart(cart.items);
      if priced == [] {
        return Err(CartEmpty);
      }
      if !Given(cart.streamId) {
        return Err(StreamContextRequired);
      }
      if address.None? {
        return Err(AddressNotFound);
      }
      var buyer := if u in buyers then Some(buyers[u]) else None;
      var dto := OrderDto(Requests(priced), cart.streamId, address);
      ghost var ticket := Prepare(products, carts.streams, now, buyer, dto);
      if ticket.Ok? {
        CommittedOrder(Db(), ticket.value, payment);
      }
      var placed := Create(dto, buyer, now);
      if placed.Err? {
        return Err(OrderRefused(placed.error));
      }
      var id := placed.value;
      IdsTakenAppend(old(orders), orders[id], payment);
      if IdsTaken(orders, id, payment) {
        return Err(IdsInUse);
      }
      orders := orders[id := ApplyPayment(orders[id], payment)];
      carts.Clear(u, cart.streamId);
      r := Ok(id);
    }

    method FindSellersOrder(id: nat, seller: Option<SellerId>) returns (r: Result<Order, Failure>)
      ensures r == SellersOrder(Db(), id, seller)
    {
      if seller.None? {
        return Err(NotASeller);
      }
      if id >= |orders| {
        return Err(OrderNotFound);
      }
      var lines := orders[id].lines;
      for k := 0 to |lines|
        invariant forall j :: 0 <= j < k ==>
                    !(lines[j].product in products && products[lines[j].product].seller == seller.value)
      {
        if lines[k].product in products && products[lines[k].product].seller == seller.value {
          assert lines[k] in lines;
          return Ok(orders[id]);
        }
      }
      r := Err(NotYourProducts);
    }

    method FindLiveSellersOrder(id: nat, seller: Option<SellerId>) returns (r: Result<Order, Failure>)
      ensures r == LiveSellersOrder(Db(), id, seller)
    {
      if seller.None? {
        return Err(NotASeller);
      }
      if id >= |orders| {
        return Err(OrderNotFound);
      }
      if !Given(orders[id].streamId) {
        return Err(LiveOrdersOnly);
      }
      r := FindSellersOrder(id, seller);
    }

    method FindBuyersOrder(id: nat, buyer: Option<BuyerId>) returns (r: Result<Order, Failure>)
      ensures r == BuyersOrder(Db(), id, buyer)
    {
      if buyer.None? {
        return Err(NotABuyer);
      }
      if id >= |orders| {
        return Err(OrderNotFound);
      }
      if orders[id].buyer != buyer.value {
        return Err(NotYourOrder);
      }
      r := Ok(orders[id]);
    }
  }

  /** A call succeeded with the new tables, or failed with the old ones. */
  ghost predicate Outcome(spec: Result<Tables, Failure>, before: Tables, after: Tables, r: Result<(), Failure>) {
    match spec
    case Ok(db) => r.Ok? && after == db
    case Err(e) => r == Err(e) && after == before
  }

  const NO_PAYMENT := Payment(0.0, None, false, None, None)

  lemma CheckoutKeepsHealthy(w: Checkout.World, u: C.UserId, now: int, address: Option<string>, payment: Payment)
    requires Healthy(w.db)
    ensures Healthy(CheckoutFromCart(w, u, now, address, payment).0.db)
  {
    hide ValidateCartForCheckout, C.GetCart, PriceAll, Prepare, CommitPaid, C.ClearCart, Healthy;
    var c1 := ValidateCartForCheckout(w, u, now).0;
    var cart := C.GetCart(c1, w.streams, u, now).1;
    var buyer := if u in w.buyers then Some(w.buyers[u]) else None;
    var dto := OrderDto(Requests(PriceAll(w.db.products, cart.items)), cart.streamId, address);
    if Prepare(w.db.products, w.streams, now, buyer, dto).Ok? {
      CommitKeepsHealthy(w.db, w.streams, now, buyer, dto, payment);
      CommittedOrder(w.db, Prepare(w.db.products, w.streams, now, buyer, dto).value, payment);
    }
  }

  /** A paid commit is the commit, then the payment data on its last row. */
  lemma CommittedOrder(db: Tables, t: Ticket, payment: Payment)
    ensures CommitPaid(db, t, payment).Err? <==> Commit(db, t).Err?
    ensures Commit(db, t).Err? ==> CommitPaid(db, t, payment) == Commit(db, t)
    ensures Commit(db, t).Ok? ==>
              var (n, placed) := (|db.orders|, Commit(db, t).value);
              && placed.orders == db.orders + [NewOrder(t)]
              && CommitPaid(db, t, payment)
                 == Ok(Tables(placed.products, placed.orders[n := ApplyPayment(placed.orders[n], payment)]))
  {
  }

  lemma {:induction false} FirstBad(products: Products, items: seq<Shop.Request>, k: nat)
    requires k < |items| && forall r :: r in items ==> r.product in products
    requires CheckItems(products, items[..k]).None? && CheckItem(products, items[k]).Some?
    ensures CheckItems(products, items) == CheckItem(products, items[k])
  {
    var n := |items| - 1;
    if k == n {
    } else {
      assert items[..n][..k] == items[..k];
      FirstBad(products, items[..n], k);
    }
  }

  lemma {:induction false} FirstRefused(products: Products, lines: seq<Line>, sign: int, k: nat, e: StockError)
    requires k < |lines| && MoveLines(products, lines[..k], sign).Ok?
    requires MoveLine(MoveLines(products, lines[..k], sign).value, lines[k], sign) == Err(e)
    ensures MoveLines(products, lines, sign) == Err(e)
  {
    var n := |lines| - 1;
    if k < n {
      assert lines[..n][..k] == lines[..k];
      FirstRefused(products, lines[..n], sign, k, e);
    }
  }

  lemma ValidatedItems(products: Products, stream: Option<Stream>, now: int, items: seq<Shop.Request>)
    requires ValidateOrderItems(products, stream, now, items).None?
    ensures Checked(products, items)
  {
    CheckItemsEach(products, items);
  }
}
