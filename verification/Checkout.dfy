/**
 From cart to order: pricing the cart, the checks before payment, and the checkout
 that turns the stored cart into an order. The delivery quote and the stored
 addresses are inputs.
 */
module Checkout {
  import opened Base
  import opened Text
  import opened Money
  import opened Streams
  import opened Variants
  import opened Shop
  import opened Redis
  import opened Carts
  import opened CartRule
  import opened CartSweep
  import StockLedger
  import OrderRuns

  datatype World = World(cache: Cache, streams: StreamTable, db: Tables, buyers: map<UserId, BuyerId>)

  datatype CheckoutError =
    | CartEmpty | StreamContextRequired | ProductsUnavailable | NoBuyer
    | OrderRefused(why: Failure)
    | AddressNotFound | QuoteRefused | NothingToPay | IdsInUse

  // ---------- pricing ----------

  datatype PricedItem = PricedItem(item: CartItem, unitPrice: real)

  /** A cart line at today's price, or nothing if its product or variant is gone. */
  function Price(products: Products, i: CartItem): Option<PricedItem> {
    if i.product !in products then None
    else
      var p := products[i.product];
      if HasVariants(p) then
        if !Given(i.variantId) then None
        else
          var v := Find(p.variants.value, i.variantId.value);
          if v.None? then None else Some(PricedItem(i, v.value.price))
      else Some(PricedItem(i, p.price))
  }

  function PriceAll(products: Products, items: seq<CartItem>): seq<PricedItem> {
    if items == [] then []
    else
      var last := Price(products, items[|items| - 1]);
      PriceAll(products, items[..|items| - 1]) + if last.Some? then [last.value] else []
  }

  function Subtotal(priced: seq<PricedItem>): real {
    if priced == [] then 0.0
    else Subtotal(priced[..|priced| - 1]) + priced[|priced| - 1].unitPrice * priced[|priced| - 1].item.quantity as real
  }

  function RequestOf(i: CartItem): Request {
    Request(i.product, i.quantity, i.variantId, i.title)
  }

  function Requests(priced: seq<PricedItem>): seq<Request> {
    seq(|priced|, k requires 0 <= k < |priced| => RequestOf(priced[k].item))
  }

  /** A line is shown at the price of the product or variant it names, and not at all if there is none. */
  lemma PriceStands(products: Products, i: CartItem)
    ensures Price(products, i).Some?
       <==> i.product in products && exists price, stock :: Stands(products[i.product], i.variantId, price, stock)
    ensures Price(products, i).Some? ==>
              Price(products, i).value.item == i
              && exists stock :: Stands(products[i.product], i.variantId, Price(products, i).value.unitPrice, stock)
  {
    if i.product in products {
      var x := products[i.product];
      if !HasVariants(x) {
        assert Stands(x, i.variantId, x.price, x.stock);
      } else if Given(i.variantId) {
        FoundStands(x, i.variantId);
      }
    }
  }

  // ---------- the checks before payment ----------

  function StreamRow(streams: StreamTable, s: StreamId): Option<Stream> {
    if s in streams then Some(streams[s]) else None
  }

  /** The cache effects of the two reads, and the first failing check if any. */
  function ValidateCartForCheckout(w: World, u: UserId, now: int): (Cache, Option<CheckoutError>) {
    var (c1, raw) := LoadCartForUser(w.cache, w.streams, u, now);
    if raw.items == [] then (c1, Some(CartEmpty))
    else if !Given(raw.streamId) then (c1, Some(StreamContextRequired))
    else
      var (c2, cart) := GetCart(c1, w.streams, u, now);
      var priced := PriceAll(w.db.products, cart.items);
      if priced == [] then (c2, Some(CartEmpty))
      else if |priced| != |raw.items| then (c2, Some(ProductsUnavailable))
      else if u !in w.buyers then (c2, Some(NoBuyer))
      else
        var failure := ValidateOrderItems(w.db.products, StreamRow(w.streams, raw.streamId.value),
                                            now, Requests(priced));
        (c2, if failure.Some? then Some(OrderRefused(failure.value)) else None)
  }

  /** The carrier's answer to a quote: a fee, a refusal shown to the buyer, or a failure waived as free. */
  datatype Quote = Fee(fee: real, provider: Option<string>) | Refused | Unavailable

  datatype Prepared = Prepared(subtotal: real, deliveryFee: real, total: real, streamId: StreamId, address: string,
    provider: Option<string>)

  function PrepareCheckout(w: World, u: UserId, now: int, address: Option<string>, quote: Quote):
    (Cache, Result<Prepared, CheckoutError>)
  {
    var (c1, failure) := ValidateCartForCheckout(w, u, now);
    if failure.Some? then (c1, Err(failure.value))
    else
      var (c2, cart) := GetCart(c1, w.streams, u, now);
      var priced := PriceAll(w.db.products, cart.items);
      if priced == [] then (c2, Err(CartEmpty))
      else if !Given(cart.streamId) then (c2, Err(StreamContextRequired))
      else if address.None? then (c2, Err(AddressNotFound))
      else if quote.Refused? then (c2, Err(QuoteRefused))
      else
        var fee := if quote.Fee? then quote.fee else 0.0;
        var provider := if quote.Fee? then quote.provider else None;
        var total := Subtotal(priced) + fee;
        if total <= 0.0 then (c2, Err(NothingToPay))
        else (c2, Ok(Prepared(Subtotal(priced), fee, total, cart.streamId.value, address.value, provider)))
  }

  /** What the payment provider is asked to collect, in paise. */
  function AmountPaise(total: real): int {
    Round(total * 100.0)
  }

  /** The amount asked for is the whole paisa nearest to the total. */
  lemma AskedNearest(total: real)
    ensures -0.5 <= 100.0 * total - AmountPaise(total) as real < 0.5
  {
    RoundNear(100.0 * total);
  }

  // ---------- checkout ----------

  /**
   On success the order has the next id. When the payment's ids are taken, the order has
   been created but not marked paid, and the cart stays.
   */
  function CheckoutFromCart(w: World, u: UserId, now: int, address: Option<string>, payment: Payment):
    (World, Result<nat, CheckoutError>)
  {
    var (c1, failure) := ValidateCartForCheckout(w, u, now);
    if failure.Some? then (w.(cache := c1), Err(failure.value))
    else
      var (c2, cart) := GetCart(c1, w.streams, u, now);
      var priced := PriceAll(w.db.products, cart.items);
      if priced == [] then (w.(cache := c2), Err(CartEmpty))
      else if !Given(cart.streamId) then (w.(cache := c2), Err(StreamContextRequired))
      else if address.None? then (w.(cache := c2), Err(AddressNotFound))
      else
        var buyer := if u in w.buyers then Some(w.buyers[u]) else None;
        var ticket := Prepare(w.db.products, w.streams, now, buyer, OrderDto(Requests(priced), cart.streamId, address));
        if ticket.Err? then (w.(cache := c2), Err(OrderRefused(ticket.error)))
        else
          var placed := Commit(w.db, ticket.value);
          if placed.Err? then (w.(cache := c2), Err(OrderRefused(placed.error)))
          else if IdsTaken(w.db.orders, |w.db.orders|, payment)
          then (w.(cache := c2, db := placed.value), Err(IdsInUse))
          else
            (w.(cache := ClearCart(c2, u, cart.streamId), db := CommitPaid(w.db, ticket.value, payment).value),
             Ok(|w.db.orders|))
  }

  // ---------- nothing is lost ----------

  lemma {:induction false} PriceAllShape(products: Products, items: seq<CartItem>)
    ensures |PriceAll(products, items)| <= |items|
    ensures |PriceAll(products, items)| == |items| ==>
              forall k :: 0 <= k < |items| ==> Price(products, items[k]) == Some(PriceAll(products, items)[k])
  {
    if items != [] {
      PriceAllShape(products, items[..|items| - 1]);
    }
  }

  /** Reading again at the same time changes nothing more. */
  lemma LoadAgain(c: Cache, streams: StreamTable, u: UserId, now: int)
    ensures var (c1, r) := LoadCartForUser(c, streams, u, now);
            && (r.items == [] ==> r == EMPTY)
            && (r.items != [] ==> LoadCartForUser(c1, streams, u, now) == (c1, r))
            && (r.items != [] ==> Refreshed(r, LoadCartState(c, u, now)))
  {
    var st := LoadCartState(c, u, now);
    var (c1, r) := LoadCartForUser(c, streams, u, now);
    if r.items != [] {
      SweepOneIdempotent(c, streams, u, now);
      if Given(st.streamId) && st.streamId.value in streams {
        SecondsLeftBounds(ExpiryFromEnd(EffectiveEnd(streams[st.streamId.value])), now);
      }
    }
  }

  /** The order line of a cart item: same product, quantity, and the unit price the cart showed. */
  ghost predicate LineOf(l: Line, p: PricedItem) {
    && l.product == p.item.product && l.quantity == p.item.quantity && l.price == p.unitPrice
    && l.variantId == TrimOption(p.item.variantId)
  }

  /** The line's title: that of the variant, or the one the cart had. */
  ghost predicate TitleOf(products: Products, l: Line, i: CartItem) {
    i.product in products
    && if HasVariants(products[i.product])
       then exists v :: v in products[i.product].variants.value.items && i.variantId == Some(v.id)
                        && l.title == Some(v.title)
       else l.title == TrimOption(i.title)
  }

  lemma PricedLineOf(products: Products, i: CartItem)
    requires Price(products, i).Some? && CheckItem(products, RequestOf(i)).None?
    ensures LineOf(PricedLine(products, RequestOf(i)), Price(products, i).value)
    ensures TitleOf(products, PricedLine(products, RequestOf(i)), i)
  {
  }

  lemma {:induction false} TotalsAgree(lines: seq<Line>, priced: seq<PricedItem>)
    requires |lines| == |priced| && forall k :: 0 <= k < |lines| ==> LineOf(lines[k], priced[k])
    ensures LinesTotal(lines) == Subtotal(priced)
  {
    if lines != [] {
      var n := |lines| - 1;
      TotalsAgree(lines[..n], priced[..n]);
      assert LineOf(lines[n], priced[n]);
    }
  }

  /** The lines `create` writes for a priced cart. */
  lemma TicketOfCart(w: World, u: UserId, now: int, items: seq<CartItem>, streamId: Option<StreamId>,
                     address: Option<string>)
    requires var priced := PriceAll(w.db.products, items);
             && |priced| == |items| && u in w.buyers
             && Prepare(w.db.products, w.streams, now, Some(w.buyers[u]),
                        OrderDto(Requests(priced), streamId, address)).Ok?
    ensures var priced := PriceAll(w.db.products, items);
            var t := Prepare(w.db.products, w.streams, now, Some(w.buyers[u]),
                             OrderDto(Requests(priced), streamId, address)).value;
            && |t.lines| == |items|
            && (forall k :: 0 <= k < |items| ==> LineOf(t.lines[k], PricedItem(items[k], priced[k].unitPrice)))
            && (forall k :: 0 <= k < |items| ==> TitleOf(w.db.products, t.lines[k], items[k]))
            && t.total == LinesTotal(t.lines) == Subtotal(priced)
            && t.buyer == w.buyers[u] && streamId == Some(t.streamId) && t.address == address
  {
    var priced := PriceAll(w.db.products, items);
    var requests := Requests(priced);
    PriceAllShape(w.db.products, items);
    CheckItemsEach(w.db.products, requests);
    var t := Prepare(w.db.products, w.streams, now, Some(w.buyers[u]), OrderDto(requests, streamId, address)).value;
    forall k | 0 <= k < |items|
      ensures priced[k] == PricedItem(items[k], priced[k].unitPrice) && LineOf(t.lines[k], priced[k])
      ensures TitleOf(w.db.products, t.lines[k], items[k])
    {
      assert Price(w.db.products, items[k]) == Some(priced[k]);
      assert requests[k] in requests;
      PricedLineOf(w.db.products, items[k]);
    }
    TotalsAgree(t.lines, priced);
  }

  /** A successful validation has seen the stored cart, fully priced. */
  lemma ValidatedCart(w: World, u: UserId, now: int)
    requires ValidateCartForCheckout(w, u, now).1.None?
    ensures var c1 := ValidateCartForCheckout(w, u, now).0;
            var stored := LoadCartState(w.cache, u, now);
            var (c2, cart) := GetCart(c1, w.streams, u, now);
            && c2 == c1 && u in w.buyers && Refreshed(cart, stored) && stored.items != [] && Given(stored.streamId)
            && |PriceAll(w.db.products, cart.items)| == |cart.items|
  {
    LoadAgain(w.cache, w.streams, u, now);
    var (c1, raw) := LoadCartForUser(w.cache, w.streams, u, now);
    PriceAllShape(w.db.products, raw.items);
  }

  lemma ReadsOnly(c: Cache, streams: StreamTable, u: UserId, now: int)
    ensures OnlyUser(c, LoadCartForUser(c, streams, u, now).0, u)
    ensures OnlyUser(c, GetCart(c, streams, u, now).0, u)
  {
    hide ClearCart, SaveCartState, Index, LoadCartState;
    SweepOneOnly(c, streams, u, now);
    var (c1, st) := LoadCartForUser(c, streams, u, now);
    assert OnlyUser(c, c1, u);
    hide LoadCartForUser;
    ClearOnly(c1, u, st.streamId);
    OnlyUserTrans(c, c1, ClearCart(c1, u, st.streamId), u);
  }

  lemma ValidationOnly(w: World, u: UserId, now: int)
    ensures OnlyUser(w.cache, ValidateCartForCheckout(w, u, now).0, u)
  {
    hide LoadCartForUser, GetCart;
    var c1 := LoadCartForUser(w.cache, w.streams, u, now).0;
    ReadsOnly(w.cache, w.streams, u, now);
    ReadsOnly(c1, w.streams, u, now);
    OnlyUserTrans(w.cache, c1, GetCart(c1, w.streams, u, now).0, u);
  }

  /** A checkout, successful or not, touches no other buyer's cart. */
  lemma CheckoutOnly(w: World, u: UserId, now: int, address: Option<string>, payment: Payment)
    ensures OnlyUser(w.cache, CheckoutFromCart(w, u, now, address, payment).0.cache, u)
  {
    hide ValidateCartForCheckout, GetCart, ClearCart, PriceAll, Prepare, Commit, CommitPaid, IdsTaken, OnlyUser;
    ValidationOnly(w, u, now);
    var c1 := ValidateCartForCheckout(w, u, now).0;
    ReadsOnly(c1, w.streams, u, now);
    var (c2, cart) := GetCart(c1, w.streams, u, now);
    OnlyUserTrans(w.cache, c1, c2, u);
    ClearOnly(c2, u, cart.streamId);
    OnlyUserTrans(w.cache, c2, ClearCart(c2, u, cart.streamId), u);
  }

  /**
   A successful checkout loses nothing: the new order has exactly the stored cart's
   lines at the prices shown, the buyer's cart is gone and its holder un-indexed, and
   other carts are untouched.
   */
  lemma CheckoutLosesNothing(w: World, u: UserId, now: int, address: Option<string>, payment: Payment)
    requires CheckoutFromCart(w, u, now, address, payment).1.Ok?
    ensures var w' := CheckoutFromCart(w, u, now, address, payment).0;
            var stored := LoadCartState(w.cache, u, now);
            var priced := PriceAll(w.db.products, stored.items);
            && |w'.db.orders| == |w.db.orders| + 1 && w'.db.orders[..|w.db.orders|] == w.db.orders
            && stored.items != [] && |priced| == |stored.items|
            && var o := w'.db.orders[|w.db.orders|];
            && |o.lines| == |stored.items|
            && (forall k :: 0 <= k < |stored.items| ==>
                  LineOf(o.lines[k], PricedItem(stored.items[k], priced[k].unitPrice)))
            && (forall k :: 0 <= k < |stored.items| ==> TitleOf(w.db.products, o.lines[k], stored.items[k]))
            && o.streamId == stored.streamId && u in w.buyers && o.buyer == w.buyers[u]
            && o.total == Subtotal(priced) + (if payment.fee > 0.0 then payment.fee else 0.0)
            && (payment.markPaid ==> o.status == PAID)
            && (!payment.markPaid ==> o.status == PENDING && o.rzOrderId == None && o.rzPaymentId == None)
            && o.address == address && o.deliveryFee == (if payment.fee > 0.0 then payment.fee else 0.0)
            && o.provider == (if payment.fee > 0.0 then payment.provider else None)
            && o.packingVideo == None && o.trackingId == None && o.deliveredAt == None
            && OnlyUser(w.cache, w'.cache, u)
            && u !in w'.cache.entries && u !in w'.cache.Members(stored.streamId.value)
  {
    CheckoutOnly(w, u, now, address, payment);
    hide OnlyUser;
    ValidatedCart(w, u, now);
    var c1 := ValidateCartForCheckout(w, u, now).0;
    var cart := GetCart(c1, w.streams, u, now).1;
    TicketOfCart(w, u, now, cart.items, cart.streamId, address);
    var priced := PriceAll(w.db.products, cart.items);
    var t := Prepare(w.db.products, w.streams, now, Some(w.buyers[u]),
                     OrderDto(Requests(priced), cart.streamId, address)).value;
    CommitPaidShape(w.db, t, payment);
  }

  /** The lines of an order for a cart whose lines are for different things can all be taken. */
  lemma CartLinesTaken(products: Products, items: seq<CartItem>, requests: seq<Request>)
    requires StockLedger.Sound(products) && OneLineEach(items) && |requests| == |items|
    requires forall k :: 0 <= k < |items| ==> requests[k] == RequestOf(items[k])
    requires Checked(products, requests)
    ensures MoveLines(products, PricedLines(products, requests), -1).Ok?
  {
    var lines := PricedLines(products, requests);
    StockLedger.PricedLinesFit(products, requests);
    forall k | 0 <= k < |lines|
      ensures StockLedger.Enough(products, lines[k])
    {
      assert requests[k] in requests;
      EnoughFor(products, requests[k]);
    }
    forall i, j | 0 <= i < j < |lines| && lines[i].product == lines[j].product
      ensures lines[i].variantId != lines[j].variantId || !HasVariants(products[lines[j].product])
    {
      assert requests[i] in requests && requests[j] in requests;
      assert !IsFor(items[i], items[j].product, items[j].variantId);
    }
    StockLedger.DifferentLinesTaken(products, lines);
  }

  lemma EnoughFor(products: Products, r: Request)
    requires StockLedger.Sound(products) && r.product in products && CheckItem(products, r).None?
    ensures StockLedger.Enough(products, PricedLine(products, r))
  {
    var x := products[r.product];
    if HasVariants(x) {
      var items := x.variants.value.items;
      var k := IndexOf(items, r.variantId.value);
      assert items[k] in items;
      TrimFixes(r.variantId.value);
    }
  }

  /** What the checks before payment promise: the order could be placed at once. */
  lemma PreparedCanCheckOut(w: World, u: UserId, now: int, address: Option<string>, quote: Quote, payment: Payment)
    requires StockLedger.Sound(w.db.products) && OneLineEach(LoadCartState(w.cache, u, now).items)
    requires PrepareCheckout(w, u, now, address, quote).1.Ok? && !IdsTaken(w.db.orders, |w.db.orders|, payment)
    ensures CheckoutFromCart(w, u, now, address, payment).1.Ok?
  {
    ValidatedCart(w, u, now);
    var c1 := ValidateCartForCheckout(w, u, now).0;
    var cart := GetCart(c1, w.streams, u, now).1;
    var priced := PriceAll(w.db.products, cart.items);
    ValidatedOrder(w, u, now);
    PricedInOrder(w.db.products, cart.items);
    hide ValidateCartForCheckout, GetCart, LoadCartState, PriceAll, OneLineEach, ValidateOrderItems, IdsTaken;
    CheckItemsEach(w.db.products, Requests(priced));
    CartLinesTaken(w.db.products, cart.items, Requests(priced));
  }

  /** A successful validation has run the order's own checks on the cart it read. */
  lemma ValidatedOrder(w: World, u: UserId, now: int)
    requires ValidateCartForCheckout(w, u, now).1.None?
    ensures var c1 := ValidateCartForCheckout(w, u, now).0;
            var cart := GetCart(c1, w.streams, u, now).1;
            var requests := Requests(PriceAll(w.db.products, cart.items));
            && Given(cart.streamId)
            && ValidateOrderItems(w.db.products, StreamRow(w.streams, cart.streamId.value), now, requests).None?
            && Checked(w.db.products, requests)
  {
    LoadAgain(w.cache, w.streams, u, now);
    ValidatedCart(w, u, now);
    var (c1, raw) := LoadCartForUser(w.cache, w.streams, u, now);
    PriceAllShape(w.db.products, raw.items);
    assert GetCart(c1, w.streams, u, now) == (c1, raw);
    hide LoadCartForUser, GetCart, PriceAll;
    CheckItemsEach(w.db.products, Requests(PriceAll(w.db.products, raw.items)));
  }

  /** The tables have one more order, unpaid and without payment ids, and its stock is taken. */
  ghost predicate LeftUnpaid(a: Tables, b: Tables) {
    && |b.orders| == |a.orders| + 1 && b.orders[..|a.orders|] == a.orders
    && var o := b.orders[|a.orders|];
       && o.status == PENDING && o.rzOrderId == None && o.rzPaymentId == None
       && MoveLines(a.products, o.lines, -1) == Ok(b.products)
  }

  lemma CommitLeaves(db: Tables, t: Ticket)
    requires Commit(db, t).Ok?
    ensures LeftUnpaid(db, Commit(db, t).value)
  {
  }

  lemma ValidationErrors(w: World, u: UserId, now: int)
    ensures ValidateCartForCheckout(w, u, now).1 != Some(IdsInUse)
  {
  }

  /** A failed checkout leaves products and orders as they were, unless the payment's ids are in use. */
  lemma FailedCheckoutLeaves(w: World, u: UserId, now: int, address: Option<string>, payment: Payment)
    requires CheckoutFromCart(w, u, now, address, payment).1.Err?
    ensures var (w', r) := CheckoutFromCart(w, u, now, address, payment);
            && w'.streams == w.streams
            && if r.error.IdsInUse? then LeftUnpaid(w.db, w'.db) else w'.db == w.db
  {
    hide ValidateCartForCheckout, GetCart, PriceAll, Prepare, Commit, CommitPaid, ClearCart, LeftUnpaid, IdsTaken;
    ValidationErrors(w, u, now);
    var c1 := ValidateCartForCheckout(w, u, now).0;
    var cart := GetCart(c1, w.streams, u, now).1;
    var buyer := if u in w.buyers then Some(w.buyers[u]) else None;
    var dto := OrderDto(Requests(PriceAll(w.db.products, cart.items)), cart.streamId, address);
    var t := Prepare(w.db.products, w.streams, now, buyer, dto);
    if t.Ok? && Commit(w.db, t.value).Ok? {
      CommitLeaves(w.db, t.value);
    }
  }

  /** An unpaid order is left behind exactly when the checkout would do without the payment and its ids are taken. */
  lemma LeavesUnpaidExactly(w: World, u: UserId, now: int, address: Option<string>, payment: Payment)
    ensures CheckoutFromCart(w, u, now, address, payment).1 == Err(IdsInUse)
       <==> CheckoutFromCart(w, u, now, address, payment.(markPaid := false)).1.Ok?
            && IdsTaken(w.db.orders, |w.db.orders|, payment)
  {
    hide ValidateCartForCheckout, GetCart, PriceAll, Prepare, Commit, CommitPaid, ClearCart;
    ValidationErrors(w, u, now);
  }

  /** What is prepared for payment is the price of the stored cart plus the fee. */
  lemma PreparedCart(w: World, u: UserId, now: int, address: Option<string>, quote: Quote)
    requires PrepareCheckout(w, u, now, address, quote).1.Ok?
    ensures var prep := PrepareCheckout(w, u, now, address, quote).1.value;
            var priced := PriceAll(w.db.products, LoadCartState(w.cache, u, now).items);
            && prep.subtotal == Subtotal(priced) && prep.total == Subtotal(priced) + prep.deliveryFee > 0.0
            && |priced| == |LoadCartState(w.cache, u, now).items|
            && prep.deliveryFee == (if quote.Fee? then quote.fee else 0.0)
            && prep.provider == (if quote.Fee? then quote.provider else None)
            && address == Some(prep.address) && !quote.Refused?
            && LoadCartState(w.cache, u, now).streamId == Some(prep.streamId)
  {
    hide Subtotal, PriceAll, ValidateCartForCheckout, GetCart, LoadCartState;
    ValidatedCart(w, u, now);
  }

  /**
   When the cart and the prices of its lines are the same at payment and at checkout,
   the order's total is the amount the buyer was asked to pay, to the paisa. Stock,
   orders, streams and the clock may have moved in between.
   */
  lemma PaidAmountIsOrderTotal(
    w: World, w': World, u: UserId, t: int, t': int, address: Option<string>, address': Option<string>,
    quote: Quote, payment: Payment)
    requires PrepareCheckout(w, u, t, address, quote).1.Ok?
    requires CheckoutFromCart(w', u, t', address', payment).1.Ok?
    requires LoadCartState(w'.cache, u, t').items == LoadCartState(w.cache, u, t).items
    requires forall i :: i in LoadCartState(w.cache, u, t).items ==> Price(w'.db.products, i) == Price(w.db.products, i)
    requires payment.fee == PrepareCheckout(w, u, t, address, quote).1.value.deliveryFee >= 0.0
    ensures var prep := PrepareCheckout(w, u, t, address, quote).1.value;
            var orders := CheckoutFromCart(w', u, t', address', payment).0.db.orders;
            var id := |w'.db.orders|;
            && id < |orders|
            && orders[id].total == prep.total == LinesTotal(orders[id].lines) + prep.deliveryFee
            && AmountPaise(orders[id].total) == AmountPaise(prep.total)
  {
    hide PrepareCheckout, CheckoutFromCart, LoadCartState, Price, PriceAll,
      Subtotal, LinesTotal, AmountPaise, TrimOption;
    var items := LoadCartState(w.cache, u, t).items;
    PreparedCart(w, u, t, address, quote);
    CheckoutLosesNothing(w', u, t', address', payment);
    SamePrices(w.db.products, w'.db.products, items);
    var o := CheckoutFromCart(w', u, t', address', payment).0.db.orders[|w'.db.orders|];
    var priced := PriceAll(w.db.products, items);
    PricedInOrder(w.db.products, items);
    TotalsAgree(o.lines, priced);
  }

  lemma PricedInOrder(products: Products, items: seq<CartItem>)
    requires |PriceAll(products, items)| == |items|
    ensures forall k :: 0 <= k < |items| ==> PriceAll(products, items)[k].item == items[k]
  {
    PriceAllShape(products, items);
    forall k | 0 <= k < |items|
      ensures PriceAll(products, items)[k].item == items[k]
    {
      assert Price(products, items[k]) == Some(PriceAll(products, items)[k]);
    }
  }

  lemma {:induction false} SamePrices(a: Products, b: Products, items: seq<CartItem>)
    requires forall i :: i in items ==> Price(b, i) == Price(a, i)
    ensures PriceAll(b, items) == PriceAll(a, items)
  {
    if items != [] {
      SamePrices(a, b, items[..|items| - 1]);
    }
  }
}
