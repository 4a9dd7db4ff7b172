/**
 Products, stock and orders: placing an order in two phases (validate outside the
 transaction, commit inside it), cancelling, and every status step of an order.
 The tables are values here; `OrdersService` updates them in place.
 Order ids are positions: a new order gets the next, unused one.
 */
module Shop {
  import opened Base
  import opened Text
  import opened Variants
  import opened Streams

  type SellerId = string
  type BuyerId = string

  datatype Product = Product(seller: SellerId, price: real, stock: int, variants: Option<Variants>)

  datatype Line = Line(product: ProductId, quantity: nat, price: real, variantId: Option<string>, title: Option<string>)

  datatype Request = Request(product: ProductId, quantity: nat, variantId: Option<string>, title: Option<string>)

  datatype Status = PENDING | PAID | PACKED | SHIPPED | DELIVERED | CANCELLED | RETURNED

  datatype Order = Order(
    buyer: BuyerId, streamId: Option<StreamId>, address: Option<string>, status: Status, total: real,
    lines: seq<Line>, deliveryFee: real, provider: Option<string>, packingVideo: Option<string>,
    trackingId: Option<string>, deliveredAt: Option<int>,
    rzOrderId: Option<string>, rzPaymentId: Option<string>)

  type Products = map<ProductId, Product>

  datatype Tables = Tables(products: Products, orders: seq<Order>)

  datatype Failure =
    | NotABuyer | NotASeller | EmptyOrder | StreamRequired
    | StreamRefused(why: StreamRefusal)
    | ProductsNotFound
    | VariantIdRequired(product: ProductId)
    | InvalidVariantFor(product: ProductId)
    | InsufficientStock(product: ProductId)
    | StockRefused(cause: StockError)
    | OrderNotFound | NotYourOrder | NotYourProducts
    | WrongStatus(status: Status)
    | LiveOrdersUsePackingVideo | LiveOrdersOnly
    | VideoRequired | NoShipment

  // ---------- placing an order: the validation phase ----------

  predicate HasVariants(p: Product) {
    p.variants.Some? && p.variants.value.items != []
  }

  function CheckItem(products: Products, r: Request): Option<Failure>
    requires r.product in products
  {
    var p := products[r.product];
    if HasVariants(p) then
      if r.variantId.None? || Trim(r.variantId.value) == "" then Some(VariantIdRequired(r.product))
      else
        var v := Find(p.variants.value, r.variantId.value);
        if v.None? then Some(InvalidVariantFor(r.product))
        else if v.value.stock < r.quantity then Some(InsufficientStock(r.product))
        else None
    else if p.stock < r.quantity then Some(InsufficientStock(r.product))
    else None
  }

  function CheckItems(products: Products, items: seq<Request>): Option<Failure>
    requires forall r :: r in items ==> r.product in products
  {
    if items == [] then None
    else
      var before := CheckItems(products, items[..|items| - 1]);
      if before.Some? then before else CheckItem(products, items[|items| - 1])
  }

  function ProductIds(items: seq<Request>): set<ProductId> {
    set r | r in items :: r.product
  }

  function ValidateOrderItems(products: Products, stream: Option<Stream>, now: int,
                              items: seq<Request>): Option<Failure>
  {
    if items == [] then Some(EmptyOrder)
    else
      var refusal := AssertStreamAndProducts(stream, now, ProductIds(items));
      if refusal.Some? then Some(StreamRefused(refusal.value))
      else if !(forall r :: r in items ==> r.product in products) then Some(ProductsNotFound)
      else CheckItems(products, items)
  }

  function TrimOption(o: Option<string>): Option<string> {
    if o.Some? then Some(Trim(o.value)) else None
  }

  /** The order line of a request, at the price of the moment. */
  function PricedLine(products: Products, r: Request): Line
    requires r.product in products && CheckItem(products, r).None?
  {
    var p := products[r.product];
    if HasVariants(p) then
      var v := Find(p.variants.value, r.variantId.value).value;
      Line(r.product, r.quantity, v.price, TrimOption(r.variantId), Some(v.title))
    else
      Line(r.product, r.quantity, p.price, TrimOption(r.variantId), TrimOption(r.title))
  }

  function LinesTotal(lines: seq<Line>): real {
    if lines == [] then 0.0
    else LinesTotal(lines[..|lines| - 1]) + lines[|lines| - 1].price * lines[|lines| - 1].quantity as real
  }

  lemma {:induction false} CheckItemsEach(products: Products, items: seq<Request>)
    requires forall r :: r in items ==> r.product in products
    ensures CheckItems(products, items).None? <==> forall r :: r in items ==> CheckItem(products, r).None?
  {
    if items != [] {
      var front, last := items[..|items| - 1], items[|items| - 1];
      CheckItemsEach(products, front);
      assert items == front + [last];
    }
  }

  predicate Checked(products: Products, items: seq<Request>) {
    forall r :: r in items ==> r.product in products && CheckItem(products, r).None?
  }

  function PricedLines(products: Products, items: seq<Request>): seq<Line>
    requires Checked(products, items)
  {
    seq(|items|, i requires 0 <= i < |items| => PricedLine(products, items[i]))
  }

  /** What the validation phase hands to the transaction. */
  datatype Ticket = Ticket(buyer: BuyerId, streamId: StreamId, address: Option<string>, lines: seq<Line>, total: real)

  datatype OrderDto = OrderDto(items: seq<Request>, streamId: Option<StreamId>, address: Option<string>)

  function Prepare(products: Products, streams: map<StreamId, Stream>, now: int, buyer: Option<BuyerId>, dto: OrderDto):
    Result<Ticket, Failure>
  {
    if buyer.None? then Err(NotABuyer)
    else if dto.items == [] then Err(EmptyOrder)
    else if !Given(dto.streamId) then Err(StreamRequired)
    else
      var sid := dto.streamId.value;
      var stream := if sid in streams then Some(streams[sid]) else None;
      var failure := ValidateOrderItems(products, stream, now, dto.items);
      if failure.Some? then Err(failure.value)
      else
        CheckItemsEach(products, dto.items);
        var lines := PricedLines(products, dto.items);
        Ok(Ticket(buyer.value, sid, dto.address, lines, LinesTotal(lines)))
  }

  // ---------- what is accepted, and at which price ----------

  /** The price and stock that a product and variant id stand for: those of the first variant with that id, if any. */
  ghost predicate Stands(x: Product, variantId: Option<string>, price: real, stock: int) {
    if x.variants.None? || |x.variants.value.items| == 0 then price == x.price && stock == x.stock
    else
      variantId.Some? && variantId.value != "" &&
      exists k :: 0 <= k < |x.variants.value.items| && FirstWith(x.variants.value.items, variantId.value, k)
                  && price == x.variants.value.items[k].price && stock == x.variants.value.items[k].stock
  }

  ghost predicate FirstWith(items: seq<VariantItem>, id: string, k: nat)
    requires k < |items|
  {
    items[k].id == id && forall j :: 0 <= j < k ==> items[j].id != id
  }

  /** There is such a product or variant, and enough of it. */
  ghost predicate InStock(products: Products, product: ProductId, variantId: Option<string>, quantity: nat) {
    && product in products
    && (exists price, stock :: Stands(products[product], variantId, price, stock) && quantity <= stock)
    && (products[product].variants.Some? && |products[product].variants.value.items| > 0 ==>
          variantId.Some? && Trim(variantId.value) != "")
  }

  lemma FoundStands(x: Product, variantId: Option<string>)
    requires HasVariants(x) && variantId.Some? && variantId.value != ""
    ensures var v := Find(x.variants.value, variantId.value);
            && (forall price, stock :: Stands(x, variantId, price, stock) ==>
                  v.Some? && price == v.value.price && stock == v.value.stock)
            && (v.Some? ==> Stands(x, variantId, v.value.price, v.value.stock))
  {
    var items := x.variants.value.items;
    var k := IndexOf(items, variantId.value);
    if k < |items| {
      assert FirstWith(items, variantId.value, k);
    }
  }

  lemma TrimNothing()
    ensures Trim("") == ""
  {
  }

  /** A requested line passes exactly when the product or variant it names is in stock. */
  lemma CheckItemExactly(products: Products, r: Request)
    requires r.product in products
    ensures CheckItem(products, r).None? <==> InStock(products, r.product, r.variantId, r.quantity)
  {
    var x := products[r.product];
    TrimNothing();
    if !HasVariants(x) {
      assert Stands(x, r.variantId, x.price, x.stock);
    } else if r.variantId.Some? && Trim(r.variantId.value) != "" {
      FoundStands(x, r.variantId);
    }
  }

  /** It is sold at the price of what it names. */
  lemma PricedLineStands(products: Products, r: Request)
    requires r.product in products && CheckItem(products, r).None?
    ensures var l := PricedLine(products, r);
            && l.product == r.product && l.quantity == r.quantity
            && (if r.variantId.Some? then l.variantId == Some(Trim(r.variantId.value)) else l.variantId == None)
            && (if HasVariants(products[r.product])
                then exists i :: i in products[r.product].variants.value.items
                                 && r.variantId == Some(i.id) && l.title == Some(i.title)
                else if r.title.Some? then l.title == Some(Trim(r.title.value)) else l.title == None)
            && exists stock :: Stands(products[r.product], r.variantId, l.price, stock)
  {
    var x := products[r.product];
    if !HasVariants(x) {
      assert Stands(x, r.variantId, x.price, x.stock);
    } else {
      TrimNothing();
      FoundStands(x, r.variantId);
    }
  }

  /** An order is accepted exactly for a buyer, from an open stream that lists every product, of things in stock. */
  lemma PrepareExactly(
    products: Products, streams: map<StreamId, Stream>, now: int, buyer: Option<BuyerId>, dto: OrderDto)
    ensures Prepare(products, streams, now, buyer, dto).Ok?
       <==> && buyer.Some? && dto.items != []
            && dto.streamId.Some? && dto.streamId.value != "" && dto.streamId.value in streams
            && OpenForOrders(streams[dto.streamId.value], now)
            && forall r :: r in dto.items ==>
                 && r.product in streams[dto.streamId.value].listing
                 && InStock(products, r.product, r.variantId, r.quantity)
  {
    if dto.streamId.Some? && dto.streamId.value in streams {
      var listing := streams[dto.streamId.value].listing;
      AssertExactly(streams[dto.streamId.value], now, ProductIds(dto.items));
      assert ProductIds(dto.items) <= listing <==> forall r :: r in dto.items ==> r.product in listing by {
        assert forall r :: r in dto.items ==> r.product in ProductIds(dto.items);
      }
    }
    if forall r :: r in dto.items ==> r.product in products {
      CheckItemsEach(products, dto.items);
      forall r | r in dto.items
        ensures CheckItem(products, r).None? <==> InStock(products, r.product, r.variantId, r.quantity)
      {
        CheckItemExactly(products, r);
      }
    }
  }

  /** The ticket names the buyer, the stream and the address, and has a line at the right price for each request. */
  lemma PreparedTicket(
    products: Products, streams: map<StreamId, Stream>, now: int, buyer: Option<BuyerId>, dto: OrderDto)
    requires Prepare(products, streams, now, buyer, dto).Ok?
    ensures var t := Prepare(products, streams, now, buyer, dto).value;
            && Some(t.buyer) == buyer && Some(t.streamId) == dto.streamId && t.address == dto.address
            && |t.lines| == |dto.items| && t.total == LinesTotal(t.lines)
            && forall k :: 0 <= k < |t.lines| ==>
                 && t.lines[k].product == dto.items[k].product && t.lines[k].quantity == dto.items[k].quantity
                 && t.lines[k].product in products
                 && exists stock ::
                      Stands(products[t.lines[k].product], dto.items[k].variantId, t.lines[k].price, stock)
  {
    hide Stands, CheckItem, PricedLine;
    CheckItemsEach(products, dto.items);
    forall k | 0 <= k < |dto.items|
      ensures var l := PricedLine(products, dto.items[k]);
              && l.product == dto.items[k].product && l.quantity == dto.items[k].quantity
              && exists stock :: Stands(products[l.product], dto.items[k].variantId, l.price, stock)
    {
      assert dto.items[k] in dto.items;
      PricedLineStands(products, dto.items[k]);
    }
  }

  // ---------- stock movements inside a transaction ----------

  /** One order line taken from (`sign` -1) or given back to (`sign` 1) its product. */
  function MoveLine(products: Products, l: Line, sign: int): Result<Products, StockError> {
    if l.product !in products then Ok(products)
    else
      var p := products[l.product];
      var delta := sign * l.quantity;
      if Given(l.variantId) && HasVariants(p) then
        var moved := ApplyStockDelta(p.variants.value, l.variantId.value, delta);
        if moved.Err? then Err(moved.error)
        else Ok(products[l.product := p.(variants := Some(moved.value), stock := StockSum(moved.value.items))])
      else
        Ok(products[l.product := p.(stock := p.stock + delta)])
  }

  function MoveLines(products: Products, lines: seq<Line>, sign: int): Result<Products, StockError> {
    if lines == [] then Ok(products)
    else
      var before := MoveLines(products, lines[..|lines| - 1], sign);
      if before.Err? then before else MoveLine(before.value, lines[|lines| - 1], sign)
  }

  function NewOrder(t: Ticket): Order {
    Order(t.buyer, Some(t.streamId), t.address, PENDING, t.total, t.lines, 0.0, None, None, None, None, None, None)
  }

  /** The transaction of `create`: all lines are taken or nothing happens. */
  function Commit(db: Tables, t: Ticket): Result<Tables, Failure> {
    var moved := MoveLines(db.products, t.lines, -1);
    if moved.Err? then Err(StockRefused(moved.error))
    else Ok(Tables(moved.value, db.orders + [NewOrder(t)]))
  }

  /** What a paid checkout writes onto the order it has just created. */
  datatype Payment = Payment(fee: real, provider: Option<string>, markPaid: bool, rzOrderId: Option<string>,
    rzPaymentId: Option<string>)

  function ApplyPayment(o: Order, p: Payment): Order {
    var o1 := if p.fee > 0.0
              then o.(deliveryFee := p.fee, provider := if p.provider.Some? then p.provider else o.provider,
                      total := o.total + p.fee)
              else o;
    if p.markPaid
    then o1.(status := PAID,
             rzOrderId := if Given(p.rzOrderId) then p.rzOrderId else o1.rzOrderId,
             rzPaymentId := if Given(p.rzPaymentId) then p.rzPaymentId else o1.rzPaymentId)
    else o1
  }

  /**
   Another order already carries one of the payment's ids. The table keeps both ids
   unique, so the paid mark of a checkout is refused then.
   */
  predicate IdsTaken(orders: seq<Order>, id: nat, p: Payment) {
    p.markPaid && exists j :: 0 <= j < |orders| && j != id && SharesId(orders[j], p)
  }

  predicate SharesId(o: Order, p: Payment) {
    (Given(p.rzOrderId) && o.rzOrderId == p.rzOrderId) || (Given(p.rzPaymentId) && o.rzPaymentId == p.rzPaymentId)
  }

  lemma IdsTakenAppend(orders: seq<Order>, o: Order, p: Payment)
    ensures IdsTaken(orders + [o], |orders|, p) <==> IdsTaken(orders, |orders|, p)
  {
    if IdsTaken(orders, |orders|, p) {
      var j :| 0 <= j < |orders| && SharesId(orders[j], p);
      assert SharesId((orders + [o])[j], p);
    }
  }

  /** A checkout with nothing in between its two writes: the new order receives its payment data at once. */
  function CommitPaid(db: Tables, t: Ticket, payment: Payment): Result<Tables, Failure> {
    var r := Commit(db, t);
    if r.Err? then r
    else Ok(Write(r.value, |db.orders|, ApplyPayment(NewOrder(t), payment)))
  }

  lemma CommitPaidShape(db: Tables, t: Ticket, payment: Payment)
    requires CommitPaid(db, t, payment).Ok?
    ensures var db' := CommitPaid(db, t, payment).value;
            && MoveLines(db.products, t.lines, -1) == Ok(db'.products)
            && db'.orders == db.orders + [ApplyPayment(NewOrder(t), payment)]
  {
  }

  // ---------- the other steps of an order ----------

  predicate SellsIn(db: Tables, o: Order, seller: SellerId) {
    exists l :: l in o.lines && l.product in db.products && db.products[l.product].seller == seller
  }

  function Write(db: Tables, id: nat, o: Order): Tables
    requires id < |db.orders|
  {
    db.(orders := db.orders[id := o])
  }

  /** The order a seller may work on, or why not. */
  function SellersOrder(db: Tables, id: nat, seller: Option<SellerId>): Result<Order, Failure> {
    if seller.None? then Err(NotASeller)
    else if id >= |db.orders| then Err(OrderNotFound)
    else if !SellsIn(db, db.orders[id], seller.value) then Err(NotYourProducts)
    else Ok(db.orders[id])
  }

  /** Live-order steps look at the stream before they look at the products. */
  function LiveSellersOrder(db: Tables, id: nat, seller: Option<SellerId>): Result<Order, Failure> {
    if seller.Some? && id < |db.orders| && !Given(db.orders[id].streamId) then Err(LiveOrdersOnly)
    else SellersOrder(db, id, seller)
  }

  function BuyersOrder(db: Tables, id: nat, buyer: Option<BuyerId>): Result<Order, Failure> {
    if buyer.None? then Err(NotABuyer)
    else if id >= |db.orders| then Err(OrderNotFound)
    else if db.orders[id].buyer != buyer.value then Err(NotYourOrder)
    else Ok(db.orders[id])
  }

  function Accept(db: Tables, id: nat, seller: Option<SellerId>): Result<Tables, Failure> {
    var r := SellersOrder(db, id, seller);
    if r.Err? then Err(r.error)
    else if r.value.status != PENDING then Err(WrongStatus(r.value.status))
    else Ok(Write(db, id, r.value.(status := PAID)))
  }

  function Ship(db: Tables, id: nat, seller: Option<SellerId>, trackingId: string): Result<Tables, Failure> {
    var r := SellersOrder(db, id, seller);
    if r.Err? then Err(r.error)
    else if Given(r.value.streamId) then Err(LiveOrdersUsePackingVideo)
    else if r.value.status != PAID then Err(WrongStatus(r.value.status))
    else Ok(Write(db, id, r.value.(status := SHIPPED, trackingId := Some(trackingId))))
  }

  function Deliver(db: Tables, id: nat, seller: Option<SellerId>, now: int): Result<Tables, Failure> {
    var r := SellersOrder(db, id, seller);
    if r.Err? then Err(r.error)
    else if r.value.status != SHIPPED then Err(WrongStatus(r.value.status))
    else Ok(Write(db, id, r.value.(status := DELIVERED, deliveredAt := Some(now))))
  }

  /** The transaction of a cancellation: every line back in stock, the order cancelled. It tests no status. */
  function CancelTransaction(db: Tables, id: nat): Result<Tables, Failure>
    requires id < |db.orders|
  {
    var o := db.orders[id];
    var moved := MoveLines(db.products, o.lines, 1);
    if moved.Err? then Err(StockRefused(moved.error))
    else Ok(Tables(moved.value, db.orders[id := o.(status := CANCELLED)]))
  }

  /** The test of a cancellation, which runs before its transaction. */
  function MayCancel(db: Tables, id: nat, buyer: Option<BuyerId>): Result<Order, Failure> {
    var r := BuyersOrder(db, id, buyer);
    if r.Err? then r
    else if r.value.status !in {PENDING, PAID, PACKED} then Err(WrongStatus(r.value.status))
    else r
  }

  function Cancel(db: Tables, id: nat, buyer: Option<BuyerId>): Result<Tables, Failure> {
    var r := MayCancel(db, id, buyer);
    if r.Err? then Err(r.error) else CancelTransaction(db, id)
  }

  function Return(db: Tables, id: nat, buyer: Option<BuyerId>): Result<Tables, Failure> {
    var r := BuyersOrder(db, id, buyer);
    if r.Err? then Err(r.error)
    else if r.value.status != DELIVERED then Err(WrongStatus(r.value.status))
    else Ok(Write(db, id, r.value.(status := RETURNED)))
  }

  function UploadPackingVideo(db: Tables, id: nat, seller: Option<SellerId>, video: Option<string>):
    Result<Tables, Failure>
  {
    if !Given(video) then Err(VideoRequired)
    else
      var r := LiveSellersOrder(db, id, seller);
      if r.Err? then Err(r.error)
      else if r.value.status != PAID then Err(WrongStatus(r.value.status))
      else Ok(Write(db, id, r.value.(packingVideo := video, status := PACKED)))
  }

  /** `waybill` is the carrier's answer, after all address checks. */
  function RequestDelivery(db: Tables, id: nat, seller: Option<SellerId>, waybill: Option<string>):
    Result<Tables, Failure>
  {
    var r := LiveSellersOrder(db, id, seller);
    if r.Err? then Err(r.error)
    else if r.value.status != PACKED then Err(WrongStatus(r.value.status))
    else if !Given(waybill) then Err(NoShipment)
    else Ok(Write(db, id, r.value.(status := SHIPPED, trackingId := waybill, provider := Some("DELHIVERY"))))
  }

  /** Does the carrier's answer take this order to delivered? */
  predicate Tracks(o: Order, delivered: bool) {
    o.provider == Some("DELHIVERY") && Given(o.trackingId) && delivered
  }

  /** The tracking poll; `delivered` tells whether the carrier's status means delivered. It tests no order status. */
  function PollDelivery(db: Tables, id: nat, seller: Option<SellerId>, delivered: bool, now: int):
    Result<Tables, Failure>
  {
    var r := SellersOrder(db, id, seller);
    if r.Err? then Err(r.error)
    else if Tracks(r.value, delivered)
    then Ok(Write(db, id, r.value.(status := DELIVERED,
                                   deliveredAt := if r.value.deliveredAt.Some?
                                      then r.value.deliveredAt else Some(now))))
    else Ok(db)
  }
}
