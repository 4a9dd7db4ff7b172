/**
 What overlapping calls can break, as runs: plain stock below zero, stock given back
 twice, a cancelled order paid, and a cancelled order on its way to the buyer.
 */
module OrderRaces {
  import opened Base
  import opened Variants
  import opened Streams
  import opened Shop
  import opened StockLedger
  import opened OrderCalls
  import opened OrderRuns

  lemma RunSnoc(w: World, es: seq<Event>, e: Event)
    ensures Run(w, es + [e]) == Step(Run(w, es), e)
  {
  }

  // ---------- plain stock ----------

  const SHELF: Products := Shelf(1)
  const LIVE: map<StreamId, Stream> := map["t" := Stream(true, Some(0), None, None, 0, {"p"})]

  function Buys(lines: seq<Request>): Event {
    Validated(LIVE, 0, Some("b"), OrderDto(lines, Some("t"), None))
  }

  const ONE := Request("p", 1, None, None)
  const UNPAID := Payment(0.0, None, false, None, None)

  lemma OneOfShelf(items: seq<Request>)
    requires items == [ONE] || items == [ONE, ONE]
    ensures var t := Prepare(SHELF, LIVE, 0, Some("b"), OrderDto(items, Some("t"), None));
            t.Ok? && t.value.lines == seq(|items|, _ => Line("p", 1, 1.0, None, None))
  {
    hide LinesTotal;
    assert forall r :: r in items ==> r == ONE;
    CheckItemsEach(SHELF, items);
    assert ProductIds(items) == {"p"} by {
      assert items[0] in items;
    }
  }

  const PIECE := Line("p", 1, 1.0, None, None)

  function Shelf(stock: int): Products {
    map["p" := Product("s", 1.0, stock, None)]
  }

  lemma TakePiece(stock: int)
    ensures MoveLines(Shelf(stock), [PIECE], -1) == Ok(Shelf(stock - 1))
    ensures MoveLines(Shelf(stock), [PIECE, PIECE], -1) == Ok(Shelf(stock - 2))
  {
    assert [PIECE][..0] == [] && [PIECE, PIECE][..1] == [PIECE];
    TakeOnePiece(stock);
    TakeOnePiece(stock - 1);
  }

  lemma TakeOnePiece(stock: int)
    ensures MoveLine(Shelf(stock), PIECE, -1) == Ok(Shelf(stock - 1))
  {
    assert Shelf(stock)["p" := Product("s", 1.0, stock - 1, None)] == Shelf(stock - 1);
  }

  /** Validating orders and then committing the first of them. */
  lemma CommitFirst(w: World, lines: seq<Line>, after: Products)
    requires w.tickets != [] && w.gone == {} && w.tickets[0].lines == lines
    requires MoveLines(w.db.products, lines, -1) == Ok(after)
    ensures Step(w, Committed(0, UNPAID)).db.products == after
    ensures Step(w, Committed(0, UNPAID)).tickets == w.tickets[1..] && Step(w, Committed(0, UNPAID)).gone == {}
  {
  }

  lemma BuyStep(w: World, items: seq<Request>)
    requires w.db.products == SHELF && (items == [ONE] || items == [ONE, ONE])
    ensures var w' := Step(w, Buys(items));
            w'.db == w.db && w'.gone == w.gone
            && |w'.tickets| == |w.tickets| + 1 && w'.tickets[..|w.tickets|] == w.tickets
            && w'.tickets[|w.tickets|].lines == if items == [ONE] then [PIECE] else [PIECE, PIECE]
  {
    OneOfShelf(items);
    assert seq(1, _ => PIECE) == [PIECE] && seq(2, _ => PIECE) == [PIECE, PIECE];
  }

  /**
   The commit does not test plain stock. Two buyers validated against the same last
   piece both get it; and one order naming it twice takes it twice.
   */
  lemma PlainStockCanGoNegative()
    ensures var w := World(Tables(SHELF, []), [], [], {});
            && Run(w, [Buys([ONE])] + [Buys([ONE])] + [Committed(0, UNPAID)] + [Committed(0, UNPAID)]).db.products
               == Shelf(-1)
            && Run(w, [Buys([ONE, ONE])] + [Committed(0, UNPAID)]).db.products == Shelf(-1)
  {
    hide Step;
    var w := World(Tables(SHELF, []), [], [], {});
    var buy, buyTwice, commit := Buys([ONE]), Buys([ONE, ONE]), Committed(0, UNPAID);
    BuyStep(w, [ONE]);
    BuyStep(Step(w, buy), [ONE]);
    BuyStep(w, [ONE, ONE]);
    TakePiece(1);
    TakePiece(0);
    RunSnoc(w, [], buy);
    RunSnoc(w, [buy], buy);
    RunSnoc(w, [buy] + [buy], commit);
    RunSnoc(w, [buy] + [buy] + [commit], commit);
    RunSnoc(w, [], buyTwice);
    RunSnoc(w, [buyTwice], commit);
    assert [] + [buy] == [buy] && [] + [buyTwice] == [buyTwice];
    var w2 := Step(Step(w, buy), buy);
    assert w2.tickets[0] == Step(w, buy).tickets[0];
    CommitFirst(w2, [PIECE], Shelf(0));
    CommitFirst(Step(w2, commit), [PIECE], Shelf(-1));
    CommitFirst(Step(w, buyTwice), [PIECE, PIECE], Shelf(-1));
  }

  // ---------- cancellations and payments that come late ----------

  /** Giving lines back succeeds, adds exactly their quantities, and could be done again. */
  lemma RestockAdds(products: Products, lines: seq<Line>, p: ProductId, variant: Option<string>)
    requires Sound(products) && AllFit(products, lines) && p in products && IsFigure(products[p], variant)
    ensures MoveLines(products, lines, 1).Ok?
    ensures var after := MoveLines(products, lines, 1).value;
            && Sound(after) && AllFit(after, lines) && p in after && IsFigure(after[p], variant)
            && StockFigure(after[p], variant) == StockFigure(products[p], variant) + Quantity(lines, p, variant)
  {
    hide MoveLines, IsFigure, Quantity, StockFigure, Shifted, AllFit, Sound, SameShapes;
    RestockSucceeds(products, lines);
    MoveLinesClosedForm(products, lines, 1);
    MoveLinesSound(products, lines, 1);
    var after := MoveLines(products, lines, 1).value;
    ShiftedFigure(products, lines, p, 1, variant);
    FigureKept(products, after, p, variant);
    FitsElsewhere(products, after, lines);
  }

  /**
   `cancelOrder` tests the status before its transaction, not inside. One after the
   other, the second call is refused; but a second call whose test came before the
   first one's transaction gives every line back a second time.
   */
  lemma LateCancelRestocksTwice(db: Tables, id: nat, buyer: Option<BuyerId>, p: ProductId, variant: Option<string>)
    requires Sound(db.products) && Cancel(db, id, buyer).Ok? && AllFit(db.products, db.orders[id].lines)
    requires p in db.products && IsFigure(db.products[p], variant)
    ensures var once := Cancel(db, id, buyer).value;
            && Cancel(once, id, buyer).Err?
            && CancelTransaction(once, id).Ok?
            && p in CancelTransaction(once, id).value.products
            && StockFigure(CancelTransaction(once, id).value.products[p], variant)
               == StockFigure(db.products[p], variant) + 2 * Quantity(db.orders[id].lines, p, variant)
  {
    hide MoveLines, IsFigure, Quantity, StockFigure, AllFit, Sound;
    var lines := db.orders[id].lines;
    RestockAdds(db.products, lines, p, variant);
    RestockAdds(MoveLines(db.products, lines, 1).value, lines, p, variant);
  }

  /**
   `checkoutFromCart` marks the order paid in a write of its own. A buyer who cancels
   between the two writes gets every product's stock back, and the order becomes PAID.
   */
  lemma PaidMarkRevives(w: World, k: nat, payment: Payment)
    requires Inv(w) && k < |w.tickets| && Commits(w, Committed(k, payment))
    requires payment.markPaid && !IdsTaken(w.db.orders, |w.db.orders|, payment)
    ensures var id, n := |w.db.orders|, |w.pending|;
            var es := [Committed(k, payment)]
                      + [Tested(Cancels(id, Some(w.tickets[k].buyer)))] + [Landed(n + 1)] + [Landed(n)];
            var w' := Run(w, es);
            && |w'.db.orders| == id + 1 && w'.db.orders[id].status == PAID
            && w'.db.orders[id].lines == w.tickets[k].lines && w'.db.products == w.db.products
  {
    var id, n, t := |w.db.orders|, |w.pending|, w.tickets[k];
    var commit, test := Committed(k, payment), Tested(Cancels(id, Some(t.buyer)));
    assert TicketOk(w.db.products, t);
    CreateThenCancel(w.db, t);
    IdsTakenAppend(w.db.orders, NewOrder(t).(status := CANCELLED), payment);
    hide Commit, MoveLines, CancelTransaction, Inv, TicketOk, Sound, AllFit, IdsTaken;
    var w1 := Step(w, commit);
    MayCancelNew(w.db, t);
    TestThenLand(w1, Cancels(id, Some(t.buyer)));
    var w3 := Step(Step(w1, test), Landed(n + 1));
    assert w3.pending[n].patch == ToSettled(payment) && w3.pending[n].id == id;
    assert [commit] + [test] == [] + [commit] + [test];
    RunSnoc(w, [], commit);
    RunSnoc(w, [] + [commit], test);
    RunSnoc(w, [] + [commit] + [test], Landed(n + 1));
    RunSnoc(w, [] + [commit] + [test] + [Landed(n + 1)], Landed(n));
  }

  lemma MayCancelNew(db: Tables, t: Ticket)
    requires Commit(db, t).Ok?
    ensures Passes(Commit(db, t).value, Cancels(|db.orders|, Some(t.buyer)))
    ensures Commit(db, t).value.orders == db.orders + [NewOrder(t)]
  {
  }

  /**
   Deleting the stream of a paid order clears the stream from it. Then its seller can ship
   it by hand, without the packing video every order of a stream needs.
   */
  lemma ShippedWithoutVideo(w: World, id: nat, s: StreamId, seller: SellerId, trackingId: string)
    requires Inv(w) && id < |w.db.orders| && SellsIn(w.db, w.db.orders[id], seller)
    requires w.db.orders[id].status == PAID && w.db.orders[id].streamId == Some(s)
    requires !Given(w.db.orders[id].packingVideo)
    ensures var es := [StreamDeleted(s)] + [Tested(Ships(id, Some(seller), trackingId))] + [Landed(|w.pending|)];
            var o := Run(w, es).db.orders;
            && id < |o| && o[id].status == SHIPPED && o[id].trackingId == Some(trackingId) && !Given(o[id].packingVideo)
  {
    var ship := Ships(id, Some(seller), trackingId);
    var w1 := Step(w, StreamDeleted(s));
    assert w1.db.orders[id] == w.db.orders[id].(streamId := None);
    assert SellsIn(w1.db, w1.db.orders[id], seller);
    TestThenLand(w1, ship);
    RunSnoc(w, [], StreamDeleted(s));
    RunSnoc(w, [] + [StreamDeleted(s)], Tested(ship));
    RunSnoc(w, [] + [StreamDeleted(s)] + [Tested(ship)], Landed(|w.pending|));
    assert [StreamDeleted(s)] == [] + [StreamDeleted(s)];
  }

  /**
   A cancellation tested while the order is packed, whose transaction comes after the
   partner has taken the parcel, leaves a cancelled order with a tracking id: one the
   next tracking poll can call delivered, its stock already given back.
   */
  lemma CancelledInTransit(w: World, id: nat, buyer: BuyerId, seller: SellerId, waybill: string)
    requires Inv(w) && id < |w.db.orders| && w.db.orders[id].buyer == buyer && SellsIn(w.db, w.db.orders[id], seller)
    requires w.db.orders[id].status == PACKED && Given(w.db.orders[id].streamId) && waybill != ""
    ensures var n := |w.pending|;
            var es := [Tested(Cancels(id, Some(buyer)))]
                      + [Tested(RequestsDelivery(id, Some(seller), Some(waybill)))] + [Landed(n + 1)] + [Landed(n)];
            var o := Run(w, es).db.orders;
            && id < |o| && o[id].status == CANCELLED && o[id].trackingId == Some(waybill)
            && Tracks(o[id], true)
  {
    var n := |w.pending|;
    var ask := RequestsDelivery(id, Some(seller), Some(waybill));
    var cancel, request := Tested(Cancels(id, Some(buyer))), Tested(ask);
    assert OrderOk(w.db.products, w.db.orders[id]);
    PackedPasses(w.db, id, buyer, seller, waybill);
    var w1 := Step(w, cancel);
    TestThenLand(w1, ask);
    var w3 := Step(Step(w1, request), Landed(n + 1));
    hide Passes, Whole, LandOn, Inv, SellsIn, AllFit, Sound;
    assert w3.pending[n] == Change(id, PACKED, ToCancelled);
    LandShape(w3.db, w3.pending[n]);
    RunSnoc(w, [], cancel);
    RunSnoc(w, [] + [cancel], request);
    RunSnoc(w, [] + [cancel] + [request], Landed(n + 1));
    RunSnoc(w, [] + [cancel] + [request] + [Landed(n + 1)], Landed(n));
    assert [cancel] == [] + [cancel];
  }

  lemma PackedPasses(db: Tables, id: nat, buyer: BuyerId, seller: SellerId, waybill: string)
    requires id < |db.orders| && db.orders[id].buyer == buyer && SellsIn(db, db.orders[id], seller)
    requires db.orders[id].status == PACKED && Given(db.orders[id].streamId) && waybill != ""
    ensures Passes(db, Cancels(id, Some(buyer)))
    ensures Passes(db, RequestsDelivery(id, Some(seller), Some(waybill)))
    ensures After(db, Whole(db, RequestsDelivery(id, Some(seller), Some(waybill))))
         == Write(db, id, Land(db.orders[id], ToPartner(Some(waybill))))
  {
  }
}
