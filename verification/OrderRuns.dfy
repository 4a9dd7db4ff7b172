/**
 Runs of the shop: any interleaving of the test and the write of every call, by any
 number of buyers and sellers. An order is validated in one step and committed in
 another; the payment data of its checkout, and every call on an existing order, are
 tested or prepared in one step and written in a later one.
 */
module OrderRuns {
  import opened Base
  import opened Text
  import opened Variants
  import opened Streams
  import opened Shop
  import opened StockLedger
  import opened OrderCalls

  /**
   `tickets` are the orders validated but not yet committed, `pending` the writes not yet
   done, `gone` the streams deleted so far.
   */
  datatype World = World(db: Tables, tickets: seq<Ticket>, pending: seq<Change>, gone: set<StreamId>)

  datatype Event =
    | Validated(streams: map<StreamId, Stream>, now: int, buyer: Option<BuyerId>, dto: OrderDto)
    | Committed(ticket: nat, payment: Payment)
    | Tested(call: Call)
    | Landed(change: nat)
    | StreamDeleted(stream: StreamId)
    | ProductAdded(product: ProductId, x: Product)
    | StockEdited(product: ProductId, stock: nat, price: real)
    | VariantsEdited(product: ProductId, v: Variants, price: real)

  function EditedProducts(products: Products, e: Event): Products {
    match e
    case ProductAdded(p, x) => products[p := x]
    case StockEdited(p, stock, price) =>
      if p in products then products[p := products[p].(stock := stock, price := price)] else products
    case VariantsEdited(p, v, price) =>
      if p in products then products[p := products[p].(variants := Some(v), stock := StockSum(v.items), price := price)]
      else products
    case _ => products
  }

  /** Is there such a write, is its order in the table, and does the table accept it? */
  predicate Lands(w: World, e: Event) {
    && e.Landed? && e.change < |w.pending| && w.pending[e.change].id < |w.db.orders|
    && !Refused(w.db, w.pending[e.change])
  }

  /** Deleting a stream clears it from its orders. */
  function Detach(o: Order, s: StreamId): (o': Order)
    ensures o' == o || o' == o.(streamId := None)
  {
    if o.streamId == Some(s) then o.(streamId := None) else o
  }

  function DetachAll(orders: seq<Order>, s: StreamId): seq<Order> {
    seq(|orders|, i requires 0 <= i < |orders| => Detach(orders[i], s))
  }

  function Step(w: World, e: Event): World {
    match e
    case Validated(streams, now, buyer, dto) =>
      var t := Prepare(w.db.products, streams, now, buyer, dto);
      if t.Ok? then w.(tickets := w.tickets + [t.value]) else w
    case Committed(k, payment) =>
      if k >= |w.tickets| then w
      else
        var r := Commit(w.db, w.tickets[k]);
        var left := w.(tickets := Without(w.tickets, k));
        if r.Err? || w.tickets[k].streamId in w.gone then left
        else left.(db := r.value, pending := w.pending + [Change(|w.db.orders|, PENDING, ToSettled(payment))])
    case Tested(call) =>
      var t := Test(w.db, call);
      if t.Some? then w.(pending := w.pending + [t.value]) else w
    case Landed(k) =>
      if k >= |w.pending| then w
      else w.(db := if Lands(w, e) then LandOn(w.db, w.pending[k]) else w.db, pending := Without(w.pending, k))
    case StreamDeleted(s) => w.(db := w.db.(orders := DetachAll(w.db.orders, s)), gone := w.gone + {s})
    case _ => w.(db := w.db.(products := EditedProducts(w.db.products, e)))
  }

  function Run(w: World, es: seq<Event>): World {
    if es == [] then w else Step(Run(w, es[..|es| - 1]), es[|es| - 1])
  }

  /**
   A deleted stream is not found again. Seller edits covered by the stock results: new
   products are sound, `stock` is set directly only without variants, and a new matrix
   keeps the variant ids.
   */
  ghost predicate Allowed(w: World, e: Event) {
    match e
    case Validated(streams, _, _, _) => streams.Keys !! w.gone
    case ProductAdded(p, x) => p !in w.db.products && SoundProduct(x) && x.stock >= 0
    case StockEdited(p, stock, price) => p in w.db.products ==> !HasVariants(w.db.products[p])
    case VariantsEdited(p, v, price) =>
      Acceptable(v) && Normal(v) && (p in w.db.products ==> Shape(w.db.products[p]) == Some(Ids(v.items)))
    case _ => true
  }

  ghost predicate AllowedRun(w: World, es: seq<Event>) {
    es == [] || (AllowedRun(w, es[..|es| - 1]) && Allowed(Run(w, es[..|es| - 1]), es[|es| - 1]))
  }

  // ---------- the invariant ----------

  predicate InTransit(s: Status) {
    s == SHIPPED || s == DELIVERED || s == RETURNED
  }

  /** An order tied to a stream is packed, in transit or tracked only with its packing video. */
  ghost predicate VideoOk(o: Order) {
    Given(o.streamId) && (o.status == PACKED || InTransit(o.status) || Given(o.trackingId)) ==> Given(o.packingVideo)
  }

  /** What the test of a write has seen and no later write can undo. */
  ghost predicate Justified(o: Order, p: Patch) {
    match p
    case ToPacked(video) => Given(video)
    case ToShipped(_) => !Given(o.streamId)
    case ToDelivered(_) => Given(o.streamId) ==> Given(o.packingVideo)
    case ToReturned => Given(o.streamId) ==> Given(o.packingVideo)
    case ToPartner(_) => Given(o.streamId) ==> Given(o.packingVideo)
    case ToTracked(_) => Given(o.streamId) ==> Given(o.packingVideo)
    case _ => true
  }

  ghost predicate ChangeOk(db: Tables, ch: Change) {
    ch.id < |db.orders| && Justified(db.orders[ch.id], ch.patch)
  }

  ghost predicate OrderOk(products: Products, o: Order) {
    AllFit(products, o.lines) && VideoOk(o)
  }

  ghost predicate TicketOk(products: Products, t: Ticket) {
    AllFit(products, t.lines) && t.streamId != ""
  }

  ghost predicate Inv(w: World) {
    && Sound(w.db.products)
    && (forall i :: 0 <= i < |w.db.orders| ==> OrderOk(w.db.products, w.db.orders[i]))
    && (forall k :: 0 <= k < |w.tickets| ==> TicketOk(w.db.products, w.tickets[k]))
    && (forall k :: 0 <= k < |w.pending| ==> ChangeOk(w.db, w.pending[k]))
  }

  /** A shop without products and orders starts a run. */
  lemma EmptyInv()
    ensures Inv(World(Tables(map[], []), [], [], {}))
  {
  }

  lemma EditsKeepSound(w: World, e: Event)
    requires Sound(w.db.products) && Allowed(w, e)
    ensures Sound(EditedProducts(w.db.products, e)) && SameShapes(w.db.products, EditedProducts(w.db.products, e))
  {
  }

  lemma PreparedFits(products: Products, streams: map<StreamId, Stream>, now: int, buyer: Option<BuyerId>,
                     dto: OrderDto)
    requires Sound(products) && Prepare(products, streams, now, buyer, dto).Ok?
    ensures var t := Prepare(products, streams, now, buyer, dto).value;
            AllFit(products, t.lines) && t.streamId != "" && t.total == LinesTotal(t.lines)
  {
    CheckItemsEach(products, dto.items);
    PricedLinesFit(products, dto.items);
  }

  /** The row keeps what the pending writes rely on. */
  ghost predicate Kept(o: Order, o': Order) {
    && o'.lines == o.lines && o'.buyer == o.buyer && (o'.streamId == o.streamId || o'.streamId.None?)
    && (Given(o.packingVideo) ==> Given(o'.packingVideo))
  }

  ghost predicate AllKept(a: seq<Order>, b: seq<Order>) {
    |a| <= |b| && forall i :: 0 <= i < |a| ==> Kept(a[i], b[i])
  }

  lemma LandKeeps(o: Order, p: Patch)
    requires VideoOk(o) && Justified(o, p)
    ensures VideoOk(Land(o, p)) && Kept(o, Land(o, p))
  {
  }

  lemma ChangesStay(a: Tables, b: Tables, changes: seq<Change>)
    requires AllKept(a.orders, b.orders) && forall k :: 0 <= k < |changes| ==> ChangeOk(a, changes[k])
    ensures forall k :: 0 <= k < |changes| ==> ChangeOk(b, changes[k])
  {
  }

  /** Orders and tickets keep fitting when the products keep their shapes. */
  lemma FitsStay(a: Products, b: Products, orders: seq<Order>, tickets: seq<Ticket>)
    requires SameShapes(a, b)
    requires forall i :: 0 <= i < |orders| ==> OrderOk(a, orders[i])
    requires forall k :: 0 <= k < |tickets| ==> TicketOk(a, tickets[k])
    ensures forall i :: 0 <= i < |orders| ==> OrderOk(b, orders[i])
    ensures forall k :: 0 <= k < |tickets| ==> TicketOk(b, tickets[k])
  {
  }

  lemma ValidateStep(w: World, e: Event)
    requires Inv(w) && e.Validated?
    ensures Inv(Step(w, e)) && Step(w, e).db == w.db
  {
    if Prepare(w.db.products, e.streams, e.now, e.buyer, e.dto).Ok? {
      PreparedFits(w.db.products, e.streams, e.now, e.buyer, e.dto);
    }
  }

  lemma CommitStep(w: World, k: nat, payment: Payment)
    requires Inv(w) && k < |w.tickets|
    ensures Inv(Step(w, Committed(k, payment)))
    ensures SameShapes(w.db.products, Step(w, Committed(k, payment)).db.products)
  {
    var t := w.tickets[k];
    var w' := Step(w, Committed(k, payment));
    TicketFits(w.db.products, t);
    Reflexive(w.db.products);
    assert VideoOk(NewOrder(t));
    hide MoveLines, Sound, AllFit, SameShapes, TicketOk, VideoOk, Justified;
    if Commit(w.db, t).Ok? {
      MoveLinesSound(w.db.products, t.lines, -1);
      FitsStay(w.db.products, w'.db.products, w'.db.orders, w'.tickets);
      ChangesStay(w.db, w'.db, w.pending);
      SettlingIsJustified(NewOrder(t), payment);
    }
  }

  lemma SettlingIsJustified(o: Order, payment: Payment)
    ensures Justified(o, ToSettled(payment))
  {
  }

  lemma TicketFits(products: Products, t: Ticket)
    requires TicketOk(products, t)
    ensures AllFit(products, t.lines) && t.streamId != ""
  {
  }

  lemma TestStep(w: World, e: Event)
    requires Inv(w) && e.Tested?
    ensures Inv(Step(w, e)) && Step(w, e).db == w.db
  {
    if Test(w.db, e.call).Some? {
      TestJustified(w.db, e.call);
    }
  }

  lemma TestJustified(db: Tables, c: Call)
    requires Passes(db, c) && VideoOk(db.orders[c.id])
    ensures ChangeOk(db, Test(db, c).value)
  {
  }

  /** A landing write changes one row, and the stock only if it cancels. */
  lemma LandShape(db: Tables, ch: Change)
    requires Sound(db.products) && ch.id < |db.orders| && AllFit(db.products, db.orders[ch.id].lines)
    ensures var db' := LandOn(db, ch);
            && db'.orders == db.orders[ch.id := Land(db.orders[ch.id], ch.patch)]
            && (if ch.patch.ToCancelled? then MoveLines(db.products, db.orders[ch.id].lines, 1) == Ok(db'.products)
                else db'.products == db.products)
            && Sound(db'.products) && SameShapes(db.products, db'.products)
  {
    if ch.patch.ToCancelled? {
      RestockSucceeds(db.products, db.orders[ch.id].lines);
      MoveLinesSound(db.products, db.orders[ch.id].lines, 1);
    }
  }

  lemma LandStep(w: World, e: Event)
    requires Inv(w) && Lands(w, e)
    ensures Inv(Step(w, e)) && SameShapes(w.db.products, Step(w, e).db.products)
    ensures AllKept(w.db.orders, Step(w, e).db.orders)
  {
    var ch := w.pending[e.change];
    var o := w.db.orders[ch.id];
    assert OrderOk(w.db.products, o) && ChangeOk(w.db, ch);
    LandShape(w.db, ch);
    LandKeeps(o, ch.patch);
    hide LandOn, Land, Sound, AllFit, SameShapes, VideoOk, Justified, Refused;
    var w' := Step(w, e);
    assert OrderOk(w.db.products, Land(o, ch.patch));
    FitsStay(w.db.products, w'.db.products, w'.db.orders, w.tickets);
    ChangesStay(w.db, w'.db, w'.pending);
  }

  lemma DeleteStep(w: World, e: Event)
    requires Inv(w) && e.StreamDeleted?
    ensures Inv(Step(w, e)) && Step(w, e).db.products == w.db.products
  {
  }

  /** A write the table refuses is dropped, and so is one that does not exist. */
  lemma RefusedStep(w: World, e: Event)
    requires Inv(w) && e.Landed? && !Lands(w, e)
    ensures Inv(Step(w, e)) && Step(w, e).db == w.db
  {
  }

  lemma EditStep(w: World, e: Event)
    requires Inv(w) && Allowed(w, e) && !e.Validated? && !e.Committed? && !e.Tested? && !e.Landed? && !e.StreamDeleted?
    ensures Inv(Step(w, e)) && SameShapes(w.db.products, Step(w, e).db.products)
  {
    EditsKeepSound(w, e);
    hide Sound, SameShapes, EditedProducts, AllFit, TicketOk;
    var w' := Step(w, e);
    FitsStay(w.db.products, w'.db.products, w.db.orders, w.tickets);
    ChangesStay(w.db, w'.db, w.pending);
  }

  lemma Reflexive(products: Products)
    ensures SameShapes(products, products)
  {
  }

  /** Every step, in any order, keeps the invariant. */
  lemma InvStep(w: World, e: Event)
    requires Inv(w) && Allowed(w, e)
    ensures Inv(Step(w, e)) && SameShapes(w.db.products, Step(w, e).db.products)
  {
    hide Inv, Allowed, SameShapes;
    Reflexive(w.db.products);
    match e
    case Validated(_, _, _, _) => ValidateStep(w, e);
    case Committed(k, payment) =>
      if k < |w.tickets| {
        CommitStep(w, k, payment);
      }
    case Tested(_) => TestStep(w, e);
    case Landed(_) =>
      if Lands(w, e) {
        LandStep(w, e);
      } else {
        RefusedStep(w, e);
      }
    case StreamDeleted(_) => DeleteStep(w, e);
    case _ => EditStep(w, e);
  }

  lemma {:induction false} InvRun(w: World, es: seq<Event>)
    requires Inv(w) && AllowedRun(w, es)
    ensures Inv(Run(w, es)) && SameShapes(w.db.products, Run(w, es).db.products)
  {
    if es != [] {
      var front := es[..|es| - 1];
      InvRun(w, front);
      InvStep(Run(w, front), es[|es| - 1]);
    }
  }

  /**
   Over every interleaving no variant is oversold, and a variant product's stock is
   the sum of its variants.
   */
  lemma VariantsNeverOversold(w: World, es: seq<Event>, p: ProductId)
    requires Inv(w) && AllowedRun(w, es) && p in Run(w, es).db.products
    requires HasVariants(Run(w, es).db.products[p])
    ensures var x := Run(w, es).db.products[p];
            && x.stock == StockSum(x.variants.value.items)
            && forall id :: StockOf(x.variants.value, id) >= 0
  {
    InvRun(w, es);
    var items := Run(w, es).db.products[p].variants.value.items;
    assert SoundProduct(Run(w, es).db.products[p]);
    forall id
      ensures StockOf(Run(w, es).db.products[p].variants.value, id) >= 0
    {
      var k := IndexOf(items, id);
      if k < |items| {
        assert items[k] in items;
      }
    }
  }

  // ---------- conservation ----------

  /** On the shelf plus in orders that are not cancelled. */
  function Balance(db: Tables, p: ProductId, variant: Option<string>): int
    requires p in db.products
  {
    StockFigure(db.products[p], variant) + Held(db.orders, p, variant)
  }

  /** What the seller's own edits in a run added to a figure. */
  function Edits(w: World, es: seq<Event>, p: ProductId, variant: Option<string>): int {
    if es == [] then 0
    else
      var before, e := Run(w, es[..|es| - 1]), es[|es| - 1];
      Edits(w, es[..|es| - 1], p, variant) + EditOf(before, e, p, variant)
  }

  function EditOf(w: World, e: Event, p: ProductId, variant: Option<string>): int {
    var after := EditedProducts(w.db.products, e);
    if p in w.db.products && p in after
    then StockFigure(after[p], variant) - StockFigure(w.db.products[p], variant)
    else 0
  }

  /** A write that sets a status lands on an order already cancelled. */
  predicate LandsOnCancelled(w: World, e: Event) {
    Lands(w, e) && w.db.orders[w.pending[e.change].id].status == CANCELLED && Sets(w.pending[e.change].patch).Some?
  }

  /** What such a write adds to the balance: stock given back again, or an order taken up again without stock. */
  function LateAt(w: World, e: Event, p: ProductId, variant: Option<string>): nat {
    if LandsOnCancelled(w, e) then Quantity(w.db.orders[w.pending[e.change].id].lines, p, variant) else 0
  }

  function Late(w: World, es: seq<Event>, p: ProductId, variant: Option<string>): nat {
    if es == [] then 0
    else
      var before := Run(w, es[..|es| - 1]);
      Late(w, es[..|es| - 1], p, variant) + LateAt(before, es[|es| - 1], p, variant)
  }

  /** No write lands on a cancelled order holding some of this product. */
  predicate NothingLate(w: World, es: seq<Event>, p: ProductId, variant: Option<string>) {
    es == []
    || (NothingLate(w, es[..|es| - 1], p, variant)
        && LateAt(Run(w, es[..|es| - 1]), es[|es| - 1], p, variant) == 0)
  }

  lemma HeldSnoc(orders: seq<Order>, o: Order, p: ProductId, variant: Option<string>)
    ensures Held(orders + [o], p, variant)
         == Held(orders, p, variant) + HeldBy(o, p, variant)
  {
  }

  lemma CommitBalance(db: Tables, t: Ticket, p: ProductId, variant: Option<string>)
    requires Sound(db.products) && AllFit(db.products, t.lines)
    requires p in db.products && IsFigure(db.products[p], variant)
    ensures p in After(db, Commit(db, t)).products
    ensures Balance(After(db, Commit(db, t)), p, variant) == Balance(db, p, variant)
  {
    if Commit(db, t).Ok? {
      MoveLinesClosedForm(db.products, t.lines, -1);
      ShiftedFigure(db.products, t.lines, p, -1, variant);
      HeldSnoc(db.orders, NewOrder(t), p, variant);
    }
  }

  lemma LandBalance(db: Tables, ch: Change, p: ProductId, variant: Option<string>)
    requires Sound(db.products) && ch.id < |db.orders| && AllFit(db.products, db.orders[ch.id].lines)
    requires p in db.products && IsFigure(db.products[p], variant)
    ensures var o := db.orders[ch.id];
            && p in LandOn(db, ch).products
            && Balance(LandOn(db, ch), p, variant)
               == Balance(db, p, variant)
                  + if o.status == CANCELLED && Sets(ch.patch).Some? then Quantity(o.lines, p, variant) else 0
  {
    var o := db.orders[ch.id];
    LandShape(db, ch);
    HeldUpdate(db.orders, ch.id, Land(o, ch.patch), p, variant);
    hide LandOn, Land, StockFigure, Quantity, MoveLines, Sound, SameShapes, IsFigure, Held;
    if ch.patch.ToCancelled? {
      MoveLinesClosedForm(db.products, o.lines, 1);
      ShiftedFigure(db.products, o.lines, p, 1, variant);
    }
  }

  lemma BalanceStep(w: World, e: Event, p: ProductId, variant: Option<string>)
    requires Inv(w) && Allowed(w, e) && p in w.db.products && IsFigure(w.db.products[p], variant)
    ensures p in Step(w, e).db.products
    ensures Balance(Step(w, e).db, p, variant)
         == Balance(w.db, p, variant) + EditOf(w, e, p, variant) + LateAt(w, e, p, variant)
  {
    hide StockFigure, Quantity, Held, Allowed, Sound, AllFit, IsFigure;
    match e
    case Committed(k, payment) =>
      if k < |w.tickets| {
        assert TicketOk(w.db.products, w.tickets[k]);
        CommitBalance(w.db, w.tickets[k], p, variant);
      }
    case Landed(k) =>
      if Lands(w, e) {
        assert OrderOk(w.db.products, w.db.orders[w.pending[k].id]);
        LandBalance(w.db, w.pending[k], p, variant);
      }
    case StreamDeleted(s) => DetachHeld(w.db.orders, s, p, variant);
    case _ =>
  }

  lemma {:induction false} DetachHeld(orders: seq<Order>, s: StreamId, p: ProductId, variant: Option<string>)
    ensures Held(DetachAll(orders, s), p, variant) == Held(orders, p, variant)
  {
    if orders != [] {
      hide Quantity;
      DetachHeld(orders[..|orders| - 1], s, p, variant);
      assert DetachAll(orders, s)[..|orders| - 1] == DetachAll(orders[..|orders| - 1], s);
    }
  }

  lemma FigureKept(a: Products, b: Products, p: ProductId, variant: Option<string>)
    requires SameShapes(a, b) && p in a && IsFigure(a[p], variant)
    ensures p in b && IsFigure(b[p], variant)
  {
  }

  /**
   Conservation over whole runs, for every product and variant: stock plus what orders
   hold equals what there was, plus the seller's own edits, plus what late writes added.
   So it is conserved exactly when no status is written over a cancelled order that
   holds some of the product.
   */
  lemma {:induction false} Conservation(w: World, es: seq<Event>, p: ProductId, variant: Option<string>)
    requires Inv(w) && AllowedRun(w, es) && p in w.db.products && IsFigure(w.db.products[p], variant)
    ensures p in Run(w, es).db.products
    ensures Balance(Run(w, es).db, p, variant)
         == Balance(w.db, p, variant) + Edits(w, es, p, variant) + Late(w, es, p, variant)
    ensures Late(w, es, p, variant) == 0 <==> NothingLate(w, es, p, variant)
  {
    if es != [] {
      var front := es[..|es| - 1];
      Conservation(w, front, p, variant);
      InvRun(w, front);
      FigureKept(w.db.products, Run(w, front).db.products, p, variant);
      BalanceStep(Run(w, front), es[|es| - 1], p, variant);
    }
  }

  // ---------- the life of one order ----------

  /** What a step makes of a row: the write that lands changes it, a deleted stream is cleared from it. */
  function RowAfter(w: World, e: Event, id: nat): Order
    requires id < |w.db.orders|
  {
    if Lands(w, e) && w.pending[e.change].id == id then Land(w.db.orders[id], w.pending[e.change].patch)
    else if e.StreamDeleted? then Detach(w.db.orders[id], e.stream)
    else w.db.orders[id]
  }

  lemma StepRows(w: World, e: Event, id: nat)
    requires Inv(w) && id < |w.db.orders|
    ensures id < |Step(w, e).db.orders| && Step(w, e).db.orders[id] == RowAfter(w, e, id)
  {
    if Lands(w, e) {
      assert OrderOk(w.db.products, w.db.orders[w.pending[e.change].id]);
      LandShape(w.db, w.pending[e.change]);
    }
  }

  lemma NewRow(w: World, e: Event, id: nat)
    requires Inv(w) && |w.db.orders| <= id < |Step(w, e).db.orders|
    ensures e.Committed? && e.ticket < |w.tickets| && Step(w, e).db.orders[id] == NewOrder(w.tickets[e.ticket])
    ensures Given(Step(w, e).db.orders[id].streamId)
  {
  }

  /** However calls overlap, an order tied to a stream is packed, in transit or tracked only with its packing video. */
  lemma LifecycleSafe(w: World, es: seq<Event>, id: nat)
    requires Inv(w) && AllowedRun(w, es) && id < |Run(w, es).db.orders|
    ensures VideoOk(Run(w, es).db.orders[id])
  {
    InvRun(w, es);
    assert OrderOk(Run(w, es).db.products, Run(w, es).db.orders[id]);
  }

  // ---------- the packing video of created orders ----------

  /** Packed, in transit or tracked only with a packing video, whatever became of the stream. */
  predicate PackedOk(o: Order) {
    o.status == PACKED || InTransit(o.status) || Given(o.trackingId) ==> Given(o.packingVideo)
  }

  /** The orders from position `n` on, those a run has created, are packed with a video. */
  predicate AllPacked(n: nat, db: Tables) {
    forall i :: n <= i < |db.orders| ==> PackedOk(db.orders[i])
  }

  predicate PackedThroughout(n: nat, w: World, es: seq<Event>) {
    AllPacked(n, Run(w, es).db) && (es == [] || PackedThroughout(n, w, es[..|es| - 1]))
  }

  /** A shipment by hand is written on a created order without a packing video. */
  predicate BareShip(n: nat, w: World, e: Event) {
    && Lands(w, e) && w.pending[e.change].id >= n && w.pending[e.change].patch.ToShipped?
    && !Given(w.db.orders[w.pending[e.change].id].packingVideo)
  }

  predicate NoneBare(n: nat, w: World, es: seq<Event>) {
    es == [] || (NoneBare(n, w, es[..|es| - 1]) && !BareShip(n, Run(w, es[..|es| - 1]), es[|es| - 1]))
  }

  /** What a pending write on a created order can rely on. */
  predicate Filmed(o: Order, p: Patch) {
    match p
    case ToPacked(video) => Given(video)
    case ToDelivered(_) => Given(o.packingVideo)
    case ToReturned => Given(o.packingVideo)
    case ToPartner(_) => Given(o.packingVideo)
    case ToTracked(_) => Given(o.packingVideo)
    case _ => true
  }

  predicate AllFilmed(n: nat, w: World) {
    forall k :: 0 <= k < |w.pending| && n <= w.pending[k].id ==>
      w.pending[k].id < |w.db.orders| && Filmed(w.db.orders[w.pending[k].id], w.pending[k].patch)
  }

  lemma LandPacked(o: Order, p: Patch)
    requires PackedOk(o) && Filmed(o, p)
    ensures PackedOk(Land(o, p)) <==> !(p.ToShipped? && !Given(o.packingVideo))
    ensures Given(o.packingVideo) ==> Given(Land(o, p).packingVideo)
  {
  }

  lemma NewPacked(t: Ticket)
    ensures PackedOk(NewOrder(t)) && NewOrder(t).packingVideo == None
  {
  }

  lemma PackedStep(n: nat, w: World, e: Event)
    requires Inv(w) && AllPacked(n, w.db) && AllFilmed(n, w)
    ensures AllPacked(n, Step(w, e).db) <==> !BareShip(n, w, e)
  {
    hide Step, Land, PackedOk, Inv, Refused, Filmed;
    var orders' := Step(w, e).db.orders;
    forall i | n <= i < |orders'|
      ensures PackedOk(orders'[i]) <==> !(BareShip(n, w, e) && i == w.pending[e.change].id)
    {
      if i < |w.db.orders| {
        StepRows(w, e, i);
        if Lands(w, e) && i == w.pending[e.change].id {
          LandPacked(w.db.orders[i], w.pending[e.change].patch);
        } else if e.StreamDeleted? {
          DetachPacked(w.db.orders[i], e.stream);
        }
      } else {
        NewRow(w, e, i);
        NewPacked(w.tickets[e.ticket]);
      }
    }
    if BareShip(n, w, e) {
      StepRows(w, e, w.pending[e.change].id);
    }
  }

  lemma DetachPacked(o: Order, s: StreamId)
    ensures PackedOk(Detach(o, s)) <==> PackedOk(o)
  {
  }

  /** Rows keep their videos. */
  lemma VideosStay(w: World, e: Event, id: nat)
    requires Inv(w) && id < |w.db.orders| && Given(w.db.orders[id].packingVideo)
    ensures id < |Step(w, e).db.orders| && Given(Step(w, e).db.orders[id].packingVideo)
  {
    StepRows(w, e, id);
    if Lands(w, e) && w.pending[e.change].id == id {
      assert ChangeOk(w.db, w.pending[e.change]);
    }
  }

  /** Where the writes still pending after a step come from. */
  lemma PendingFrom(w: World, e: Event, k: nat)
    requires k < |Step(w, e).pending|
    ensures var ch := Step(w, e).pending[k];
            || ch in w.pending
            || (e.Tested? && Passes(w.db, e.call) && ch == Test(w.db, e.call).value)
            || (e.Committed? && ch.id == |w.db.orders| && ch.patch == ToSettled(e.payment))
  {
  }

  lemma TestFilmed(db: Tables, c: Call)
    requires Passes(db, c) && PackedOk(db.orders[c.id])
    ensures Filmed(db.orders[c.id], Test(db, c).value.patch)
  {
  }

  lemma FilmedStays(o: Order, o': Order, p: Patch)
    requires Filmed(o, p) && (Given(o.packingVideo) ==> Given(o'.packingVideo))
    ensures Filmed(o', p)
  {
  }

  lemma FilmedStep(n: nat, w: World, e: Event)
    requires Inv(w) && AllPacked(n, w.db) && AllFilmed(n, w) && n <= |w.db.orders|
    ensures AllFilmed(n, Step(w, e))
  {
    hide Step, Inv, PackedOk, Filmed;
    var w' := Step(w, e);
    OrdersStay(w, e);
    forall k | 0 <= k < |w'.pending| && n <= w'.pending[k].id
      ensures w'.pending[k].id < |w'.db.orders| && Filmed(w'.db.orders[w'.pending[k].id], w'.pending[k].patch)
    {
      var ch := w'.pending[k];
      PendingFrom(w, e, k);
      if ch in w.pending || e.Tested? {
        if e.Tested? && ch !in w.pending {
          TestFilmed(w.db, e.call);
        }
        if Given(w.db.orders[ch.id].packingVideo) {
          VideosStay(w, e, ch.id);
        }
        FilmedStays(w.db.orders[ch.id], w'.db.orders[ch.id], ch.patch);
      } else {
        CommittedRow(w, e, k);
      }
    }
  }

  lemma OrdersStay(w: World, e: Event)
    requires Inv(w)
    ensures |Step(w, e).db.orders| >= |w.db.orders|
  {
  }

  lemma CommittedRow(w: World, e: Event, k: nat)
    requires e.Committed? && k < |Step(w, e).pending| && Step(w, e).pending[k] !in w.pending
    ensures var ch := Step(w, e).pending[k];
            ch.id < |Step(w, e).db.orders| && Filmed(Step(w, e).db.orders[ch.id], ch.patch)
  {
  }

  lemma {:induction false} FilmedRun(w: World, es: seq<Event>)
    requires Inv(w) && AllowedRun(w, es) && NoneBare(|w.db.orders|, w, es)
    ensures var n := |w.db.orders|;
            n <= |Run(w, es).db.orders| && AllPacked(n, Run(w, es).db) && AllFilmed(n, Run(w, es))
  {
    var n := |w.db.orders|;
    if es == [] {
      assert forall k :: 0 <= k < |w.pending| ==> ChangeOk(w.db, w.pending[k]);
    } else {
      var front, e := es[..|es| - 1], es[|es| - 1];
      FilmedRun(w, front);
      InvRun(w, front);
      hide Step, Inv, AllPacked, AllFilmed, BareShip;
      PackedStep(n, Run(w, front), e);
      FilmedStep(n, Run(w, front), e);
      OrdersStay(Run(w, front), e);
    }
  }

  /**
   However calls and stream deletions overlap: the orders a run creates are packed, in
   transit or tracked only with a packing video exactly when no shipment by hand is
   written on one of them without it.
   */
  lemma {:induction false} PackedExactly(w: World, es: seq<Event>)
    requires Inv(w) && AllowedRun(w, es)
    ensures PackedThroughout(|w.db.orders|, w, es) <==> NoneBare(|w.db.orders|, w, es)
  {
    if es != [] {
      var n, front := |w.db.orders|, es[..|es| - 1];
      PackedExactly(w, front);
      InvRun(w, front);
      if NoneBare(n, w, front) {
        FilmedRun(w, front);
        hide Step, Inv, AllPacked, AllFilmed, BareShip;
        PackedStep(n, Run(w, front), es[|es| - 1]);
      }
    }
  }

  /** No stream is deleted while one of its orders is neither in transit nor has its packing video. */
  predicate DeletesShipped(w: World, e: Event) {
    e.StreamDeleted? ==>
      forall i :: 0 <= i < |w.db.orders| && w.db.orders[i].streamId == Some(e.stream) ==>
        InTransit(w.db.orders[i].status) || Given(w.db.orders[i].packingVideo)
  }

  predicate GuardedRun(w: World, es: seq<Event>) {
    es == [] || (GuardedRun(w, es[..|es| - 1]) && DeletesShipped(Run(w, es[..|es| - 1]), es[|es| - 1]))
  }

  /** Still tied to its stream, or filmed; and shipped by hand only when filmed. */
  predicate Tied(n: nat, w: World) {
    && (forall i :: n <= i < |w.db.orders| ==> Given(w.db.orders[i].streamId) || Given(w.db.orders[i].packingVideo))
    && (forall k :: 0 <= k < |w.pending| && n <= w.pending[k].id && w.pending[k].patch.ToShipped? ==>
          w.pending[k].id < |w.db.orders| && Given(w.db.orders[w.pending[k].id].packingVideo))
  }

  lemma ShipsUntied(db: Tables, c: Call)
    requires Passes(db, c) && Test(db, c).value.patch.ToShipped?
    ensures !Given(db.orders[c.id].streamId)
  {
  }

  lemma TiedRow(n: nat, w: World, e: Event, i: nat)
    requires Inv(w) && Tied(n, w) && AllPacked(n, w.db) && DeletesShipped(w, e) && n <= i < |Step(w, e).db.orders|
    ensures Given(Step(w, e).db.orders[i].streamId) || Given(Step(w, e).db.orders[i].packingVideo)
  {
    if i >= |w.db.orders| {
      NewRow(w, e, i);
    } else {
      StepRows(w, e, i);
      if Given(w.db.orders[i].packingVideo) {
        VideosStay(w, e, i);
      }
    }
  }

  lemma TiedStep(n: nat, w: World, e: Event)
    requires Inv(w) && Tied(n, w) && AllPacked(n, w.db) && DeletesShipped(w, e)
    ensures Tied(n, Step(w, e))
  {
    var w' := Step(w, e);
    forall i | n <= i < |w'.db.orders|
      ensures Given(w'.db.orders[i].streamId) || Given(w'.db.orders[i].packingVideo)
    {
      TiedRow(n, w, e, i);
    }
    hide Step, Inv, Passes, AllPacked, DeletesShipped;
    forall k | 0 <= k < |w'.pending| && n <= w'.pending[k].id && w'.pending[k].patch.ToShipped?
      ensures w'.pending[k].id < |w'.db.orders| && Given(w'.db.orders[w'.pending[k].id].packingVideo)
    {
      PendingFrom(w, e, k);
      if w'.pending[k] !in w.pending {
        ShipsUntied(w.db, e.call);
        TestNames(w.db, e.call);
      }
      VideosStay(w, e, w'.pending[k].id);
    }
  }

  lemma TestNames(db: Tables, c: Call)
    requires Passes(db, c)
    ensures Test(db, c).value.id == c.id < |db.orders|
  {
  }

  /** Under that guard every created order ships only with its packing video, however calls overlap. */
  lemma {:induction false} GuardedDeletionsSuffice(w: World, es: seq<Event>)
    requires Inv(w) && AllowedRun(w, es) && GuardedRun(w, es)
    ensures NoneBare(|w.db.orders|, w, es) && Tied(|w.db.orders|, Run(w, es))
  {
    if es == [] {
      assert forall k :: 0 <= k < |w.pending| ==> ChangeOk(w.db, w.pending[k]);
    } else {
      var n, front, e := |w.db.orders|, es[..|es| - 1], es[|es| - 1];
      GuardedDeletionsSuffice(w, front);
      InvRun(w, front);
      FilmedRun(w, front);
      TiedStep(n, Run(w, front), e);
      hide Step, Inv, AllPacked, DeletesShipped;
    }
  }

  // ---------- payment ids ----------

  /** No two orders carry one payment id or one Razorpay order id. */
  predicate UniqueIds(orders: seq<Order>) {
    forall i, j :: 0 <= i < j < |orders| ==> !Clash(orders[i], orders[j])
  }

  predicate Clash(a: Order, b: Order) {
    (Given(a.rzOrderId) && a.rzOrderId == b.rzOrderId) || (Given(a.rzPaymentId) && a.rzPaymentId == b.rzPaymentId)
  }

  lemma UniqueStep(w: World, e: Event)
    requires Inv(w) && UniqueIds(w.db.orders)
    ensures UniqueIds(Step(w, e).db.orders)
  {
    var orders' := Step(w, e).db.orders;
    forall i, j | 0 <= i < j < |orders'|
      ensures !Clash(orders'[i], orders'[j])
    {
      if j < |w.db.orders| {
        assert !Clash(w.db.orders[i], w.db.orders[j]);
        StepRows(w, e, i);
        StepRows(w, e, j);
        RowsApart(w, e, i, j);
      } else {
        NewRow(w, e, j);
      }
    }
  }

  lemma RowsApart(w: World, e: Event, i: nat, j: nat)
    requires i < j < |w.db.orders| && !Clash(w.db.orders[i], w.db.orders[j])
    ensures !Clash(RowAfter(w, e, i), RowAfter(w, e, j))
  {
  }

  /** In every overlapping run each payment id and each Razorpay order id belongs to at most one order. */
  lemma {:induction false} UniqueRun(w: World, es: seq<Event>)
    requires Inv(w) && AllowedRun(w, es) && UniqueIds(w.db.orders)
    ensures UniqueIds(Run(w, es).db.orders)
  {
    if es != [] {
      UniqueRun(w, es[..|es| - 1]);
      InvRun(w, es[..|es| - 1]);
      hide UniqueIds, Inv, Step;
      UniqueStep(Run(w, es[..|es| - 1]), es[|es| - 1]);
    }
  }

  // ---------- cancelled for good ----------

  predicate IsCancelled(db: Tables, id: nat) {
    id < |db.orders| && db.orders[id].status == CANCELLED
  }

  ghost predicate StayCancelled(a: Tables, b: Tables) {
    forall id: nat :: IsCancelled(a, id) ==> IsCancelled(b, id)
  }

  /** Once cancelled, always cancelled: at every step of the run, for every order. */
  ghost predicate Absorbs(w: World, es: seq<Event>) {
    es == [] || (Absorbs(w, es[..|es| - 1]) && StayCancelled(Run(w, es[..|es| - 1]).db, Run(w, es).db))
  }

  predicate Revives(w: World, e: Event) {
    LandsOnCancelled(w, e) && !w.pending[e.change].patch.ToCancelled?
  }

  predicate NoneRevived(w: World, es: seq<Event>) {
    es == [] || (NoneRevived(w, es[..|es| - 1]) && !Revives(Run(w, es[..|es| - 1]), es[|es| - 1]))
  }

  lemma AbsorbStep(w: World, e: Event)
    requires Inv(w)
    ensures StayCancelled(w.db, Step(w, e).db) <==> !Revives(w, e)
  {
    forall id: nat | id < |w.db.orders|
      ensures id < |Step(w, e).db.orders|
      ensures Step(w, e).db.orders[id] == RowAfter(w, e, id)
    {
      StepRows(w, e, id);
    }
    hide Land, Step, Refused;
    if Revives(w, e) {
      assert IsCancelled(w.db, w.pending[e.change].id);
    }
  }

  /** Cancelled is final over a run exactly when no other status is written over a cancelled order. */
  lemma {:induction false} CancelledAbsorbs(w: World, es: seq<Event>)
    requires Inv(w) && AllowedRun(w, es)
    ensures Absorbs(w, es) <==> NoneRevived(w, es)
  {
    if es != [] {
      CancelledAbsorbs(w, es[..|es| - 1]);
      InvRun(w, es[..|es| - 1]);
      hide Step, Revives, StayCancelled;
      AbsorbStep(Run(w, es[..|es| - 1]), es[|es| - 1]);
    }
  }

  // ---------- stock given back once ----------

  function RestockAt(w: World, e: Event, id: nat): nat {
    if Lands(w, e) && w.pending[e.change].id == id && w.pending[e.change].patch.ToCancelled? then 1 else 0
  }

  /** How often a run gave an order's stock back. */
  function Restocks(w: World, es: seq<Event>, id: nat): nat {
    if es == [] then 0
    else Restocks(w, es[..|es| - 1], id) + RestockAt(Run(w, es[..|es| - 1]), es[|es| - 1], id)
  }

  function LateOnAt(w: World, e: Event, id: nat): nat {
    if LandsOnCancelled(w, e) && w.pending[e.change].id == id then 1 else 0
  }

  /** How often a status was written over this order while it was cancelled. */
  function LateOn(w: World, es: seq<Event>, id: nat): nat {
    if es == [] then 0
    else LateOn(w, es[..|es| - 1], id) + LateOnAt(Run(w, es[..|es| - 1]), es[|es| - 1], id)
  }

  function CountCancelled(db: Tables, id: nat): nat {
    if IsCancelled(db, id) then 1 else 0
  }

  lemma RestockStep(w: World, e: Event, id: nat)
    requires Inv(w)
    ensures RestockAt(w, e, id) == LateOnAt(w, e, id) + CountCancelled(Step(w, e).db, id) - CountCancelled(w.db, id)
  {
    if id < |w.db.orders| {
      StepRows(w, e, id);
    } else if id < |Step(w, e).db.orders| {
      NewRow(w, e, id);
    }
    hide Inv, Step, Land;
  }

  /**
   Over every run an order's stock is given back as often as the order became cancelled,
   plus once for each status written over it while cancelled: so exactly once if the run
   cancelled it and nothing was late, and never if it did not.
   */
  lemma {:induction false} RestockedOnce(w: World, es: seq<Event>, id: nat)
    requires Inv(w) && AllowedRun(w, es)
    ensures Restocks(w, es, id) == LateOn(w, es, id) + CountCancelled(Run(w, es).db, id) - CountCancelled(w.db, id)
    ensures LateOn(w, es, id) == 0 ==> Restocks(w, es, id) <= 1
  {
    if es != [] {
      RestockedOnce(w, es[..|es| - 1], id);
      InvRun(w, es[..|es| - 1]);
      hide Inv, Step, RestockAt, LateOnAt, IsCancelled;
      RestockStep(Run(w, es[..|es| - 1]), es[|es| - 1], id);
    }
  }

  // ---------- tracking ----------

  /** A tracking id only in transit. */
  predicate TrackingOk(o: Order) {
    Given(o.trackingId) ==> InTransit(o.status)
  }

  predicate AllTracked(db: Tables) {
    forall i :: 0 <= i < |db.orders| ==> TrackingOk(db.orders[i])
  }

  predicate TrackedThroughout(w: World, es: seq<Event>) {
    AllTracked(Run(w, es).db) && (es == [] || TrackedThroughout(w, es[..|es| - 1]))
  }

  /** A write sets a status before transit, or cancelled, on an order that has a tracking id. */
  predicate PullsBack(w: World, e: Event) {
    && Lands(w, e) && Given(w.db.orders[w.pending[e.change].id].trackingId)
    && Sets(w.pending[e.change].patch).Some? && !InTransit(Sets(w.pending[e.change].patch).value)
  }

  predicate NonePulledBack(w: World, es: seq<Event>) {
    es == [] || (NonePulledBack(w, es[..|es| - 1]) && !PullsBack(Run(w, es[..|es| - 1]), es[|es| - 1]))
  }

  lemma LandTracking(o: Order, p: Patch)
    requires TrackingOk(o)
    ensures TrackingOk(Land(o, p)) <==> !(Given(o.trackingId) && Sets(p).Some? && !InTransit(Sets(p).value))
  {
  }

  lemma TrackingStep(w: World, e: Event)
    requires Inv(w) && AllTracked(w.db)
    ensures AllTracked(Step(w, e).db) <==> !PullsBack(w, e)
  {
    hide Step, Land, TrackingOk, Inv, Refused;
    var orders' := Step(w, e).db.orders;
    forall i | 0 <= i < |orders'|
      ensures TrackingOk(orders'[i])
           <==> !(PullsBack(w, e) && i == w.pending[e.change].id)
    {
      if i < |w.db.orders| {
        StepRows(w, e, i);
        if Lands(w, e) && i == w.pending[e.change].id {
          LandTracking(w.db.orders[i], w.pending[e.change].patch);
        } else if e.StreamDeleted? {
          DetachTracking(w.db.orders[i], e.stream);
        }
      } else {
        NewRow(w, e, i);
        NewTracking(w.tickets[e.ticket]);
      }
    }
    if PullsBack(w, e) {
      StepRows(w, e, w.pending[e.change].id);
    }
  }

  lemma DetachTracking(o: Order, s: StreamId)
    ensures TrackingOk(Detach(o, s)) <==> TrackingOk(o)
  {
  }

  lemma NewTracking(t: Ticket)
    ensures TrackingOk(NewOrder(t))
  {
  }

  /** A tracking id means in transit throughout a run exactly when no write pulls a tracked order back. */
  lemma {:induction false} TrackingExactly(w: World, es: seq<Event>)
    requires Inv(w) && AllowedRun(w, es) && AllTracked(w.db)
    ensures TrackedThroughout(w, es) <==> NonePulledBack(w, es)
  {
    if es != [] {
      var front := es[..|es| - 1];
      TrackingExactly(w, front);
      InvRun(w, front);
      hide Step, PullsBack, AllTracked;
      if TrackedThroughout(w, front) {
        TrackedNow(w, front);
        TrackingStep(Run(w, front), es[|es| - 1]);
      }
    }
  }

  lemma TrackedNow(w: World, es: seq<Event>)
    requires TrackedThroughout(w, es)
    ensures AllTracked(Run(w, es).db)
  {
  }

  // ---------- writes that find what their tests saw ----------

  /** The statuses from which the source allows a write. */
  predicate SeenOk(ch: Change) {
    match ch.patch
    case ToPaid => ch.seen == PENDING
    case ToShipped(_) => ch.seen == PAID
    case ToDelivered(_) => ch.seen == SHIPPED
    case ToCancelled => ch.seen == PENDING || ch.seen == PAID || ch.seen == PACKED
    case ToReturned => ch.seen == DELIVERED
    case ToPacked(_) => ch.seen == PAID
    case ToPartner(_) => ch.seen == PACKED
    case ToTracked(_) => InTransit(ch.seen)
    case ToSettled(_) => ch.seen == PENDING
  }

  predicate Calm(w: World) {
    AllTracked(w.db) && forall k :: 0 <= k < |w.pending| ==> SeenOk(w.pending[k])
  }

  /** The write finds its order in the status its test saw. */
  predicate OnTime(w: World, e: Event) {
    Lands(w, e) ==> w.db.orders[w.pending[e.change].id].status == w.pending[e.change].seen
  }

  predicate OnTimeRun(w: World, es: seq<Event>) {
    es == [] || (OnTimeRun(w, es[..|es| - 1]) && OnTime(Run(w, es[..|es| - 1]), es[|es| - 1]))
  }

  lemma OnTimeIsClean(w: World, e: Event)
    requires Calm(w) && OnTime(w, e)
    ensures !LandsOnCancelled(w, e) && !PullsBack(w, e)
  {
  }

  lemma CalmStep(w: World, e: Event)
    requires Inv(w) && Calm(w) && OnTime(w, e)
    ensures Calm(Step(w, e))
  {
    OnTimeIsClean(w, e);
    TrackingStep(w, e);
    if e.Tested? && Passes(w.db, e.call) {
      assert TrackingOk(w.db.orders[e.call.id]);
    }
  }

  /** Moving forward, but for the tracking poll on a returned order. */
  predicate Forward(s: Status, s': Status) {
    Rank(s') >= Rank(s) || (s == RETURNED && s' == DELIVERED)
  }

  /**
   If every write finds its order in the status its test saw, everything above holds:
   nothing is late, nothing revived, nothing pulled back, and statuses only move forward.
   */
  lemma {:induction false} OnTimeRunsAreSafe(w: World, es: seq<Event>)
    requires Inv(w) && AllowedRun(w, es) && Calm(w) && OnTimeRun(w, es)
    ensures Calm(Run(w, es)) && NoneRevived(w, es) && NonePulledBack(w, es)
    ensures forall p, variant :: NothingLate(w, es, p, variant)
    ensures forall id :: LateOn(w, es, id) == 0
  {
    if es != [] {
      var front := es[..|es| - 1];
      OnTimeRunsAreSafe(w, front);
      InvRun(w, front);
      OnTimeIsClean(Run(w, front), es[|es| - 1]);
      CalmStep(Run(w, front), es[|es| - 1]);
      hide Step, LandsOnCancelled, PullsBack, Calm;
    }
  }

  lemma OnTimeMovesForward(w: World, e: Event, id: nat)
    requires Inv(w) && Calm(w) && OnTime(w, e) && id < |w.db.orders|
    ensures id < |Step(w, e).db.orders|
    ensures Forward(w.db.orders[id].status, Step(w, e).db.orders[id].status)
  {
    StepRows(w, e, id);
    if Lands(w, e) {
      assert SeenOk(w.pending[e.change]);
    }
  }

  // ---------- calls that do not overlap ----------

  /** A test that passes, and the write that follows it at once, whatever is pending before it. */
  lemma TestThenLand(w: World, c: Call)
    requires Passes(w.db, c)
    ensures var n := |w.pending|;
            Step(Step(w, Tested(c)), Landed(n)) == w.(db := After(w.db, Whole(w.db, c)))
  {
    WholeCall(w.db, c);
    var n, ch := |w.pending|, Test(w.db, c).value;
    assert ch.id < |w.db.orders|;
    hide Whole, Passes, LandOn, Test;
    var w1 := Step(w, Tested(c));
    assert w1 == w.(pending := w.pending + [ch]) && Lands(w1, Landed(n));
    assert Without(w1.pending, n) == w.pending;
  }

  /** What holds between calls when they do not overlap. */
  ghost predicate Healthy(db: Tables) {
    Inv(World(db, [], [], {})) && AllTracked(db)
  }

  lemma WholeKeepsHealthy(db: Tables, c: Call)
    requires Healthy(db)
    ensures Healthy(After(db, Whole(db, c)))
  {
    WholeCall(db, c);
    if Passes(db, c) {
      var w := World(db, [], [], {});
      TestThenLand(w, c);
      InvStep(w, Tested(c));
      CalmStep(w, Tested(c));
      var w1 := Step(w, Tested(c));
      assert w1.pending == [Test(db, c).value] && w1.db == db;
      hide Inv, Calm, Whole, Passes, LandOn;
      InvStep(w1, Landed(0));
      CalmStep(w1, Landed(0));
      CalmIsTracked(Step(w1, Landed(0)));
    }
  }

  lemma CalmIsTracked(w: World)
    requires Calm(w)
    ensures AllTracked(w.db)
  {
  }

  lemma CommitKeepsHealthy(db: Tables, streams: map<StreamId, Stream>, now: int, buyer: Option<BuyerId>, dto: OrderDto,
                           payment: Payment)
    requires Healthy(db) && Prepare(db.products, streams, now, buyer, dto).Ok?
    ensures var t := Prepare(db.products, streams, now, buyer, dto).value;
            Healthy(After(db, Commit(db, t)))
            && (!IdsTaken(db.orders, |db.orders|, payment) ==> Healthy(After(db, CommitPaid(db, t, payment))))
  {
    hide Prepare, Commit, CommitPaid, Healthy, TicketOk;
    PreparedTicket(db, streams, now, buyer, dto);
    var t := Prepare(db.products, streams, now, buyer, dto).value;
    if Commit(db, t).Ok? {
      TicketHealthy(db, t, payment);
    }
    CommitPaidFails(db, t, payment);
  }

  lemma PreparedTicket(db: Tables, streams: map<StreamId, Stream>, now: int, buyer: Option<BuyerId>, dto: OrderDto)
    requires Healthy(db) && Prepare(db.products, streams, now, buyer, dto).Ok?
    ensures TicketOk(db.products, Prepare(db.products, streams, now, buyer, dto).value)
  {
    PreparedFits(db.products, streams, now, buyer, dto);
  }

  lemma CommitPaidFails(db: Tables, t: Ticket, payment: Payment)
    ensures Commit(db, t).Err? ==> CommitPaid(db, t, payment).Err?
  {
  }

  lemma TicketHealthy(db: Tables, t: Ticket, payment: Payment)
    requires Healthy(db) && TicketOk(db.products, t) && Commit(db, t).Ok?
    ensures Healthy(Commit(db, t).value)
    ensures !IdsTaken(db.orders, |db.orders|, payment) ==> Healthy(After(db, CommitPaid(db, t, payment)))
  {
    hide Inv, Calm, IdsTaken;
    var w, e := World(db, [t], [], {}), Committed(0, payment);
    OneTicketInv(db, t);
    InvStep(w, e);
    CalmStep(w, e);
    var w1 := Step(w, e);
    var ch := Change(|db.orders|, PENDING, ToSettled(payment));
    assert w1 == World(Commit(db, t).value, [], [ch], {}) by {
      assert Without([t], 0) == [] && [] + [ch] == [ch];
    }
    PendingDropped(w1);
    if !IdsTaken(db.orders, |db.orders|, payment) {
      IdsTakenAppend(db.orders, NewOrder(t), payment);
      InvStep(w1, Landed(0));
      CalmStep(w1, Landed(0));
      assert Without([ch], 0) == [];
      PendingDropped(Step(w1, Landed(0)));
    }
  }

  lemma OneTicketInv(db: Tables, t: Ticket)
    requires Healthy(db) && TicketOk(db.products, t)
    ensures Inv(World(db, [t], [], {})) && Calm(World(db, [t], [], {}))
  {
  }

  lemma PendingDropped(w: World)
    requires Inv(w) && Calm(w) && w.tickets == []
    ensures Healthy(w.db)
  {
  }

  // ---------- plain stock over runs ----------

  ghost predicate NonNegative(products: Products) {
    forall p :: p in products ==> products[p].stock >= 0
  }

  /** A commit about to succeed. */
  predicate Commits(w: World, e: Event) {
    && e.Committed? && e.ticket < |w.tickets| && w.tickets[e.ticket].streamId !in w.gone
    && Commit(w.db, w.tickets[e.ticket]).Ok?
  }

  /** A commit about to succeed asks no plain product for more than it has left. */
  ghost predicate Covered(w: World, e: Event) {
    Commits(w, e) ==>
      forall p :: p in w.db.products && !HasVariants(w.db.products[p]) ==>
        Quantity(w.tickets[e.ticket].lines, p, None) <= w.db.products[p].stock
  }

  ghost predicate CoveredRun(w: World, es: seq<Event>) {
    es == [] || (CoveredRun(w, es[..|es| - 1]) && Covered(Run(w, es[..|es| - 1]), es[|es| - 1]))
  }

  ghost predicate NeverNegative(w: World, es: seq<Event>) {
    NonNegative(Run(w, es).db.products) && (es == [] || NeverNegative(w, es[..|es| - 1]))
  }

  lemma {:induction false} SumNonNegative(items: seq<VariantItem>)
    requires forall i :: i in items ==> i.stock >= 0
    ensures StockSum(items) >= 0
  {
    if items != [] {
      SumNonNegative(items[..|items| - 1]);
    }
  }

  lemma SoundSumNonNegative(x: Product)
    requires SoundProduct(x) && HasVariants(x)
    ensures x.stock >= 0
  {
    SumNonNegative(x.variants.value.items);
  }

  lemma RestockKeepsNonNegative(products: Products, lines: seq<Line>)
    requires Sound(products) && AllFit(products, lines) && NonNegative(products)
    requires MoveLines(products, lines, 1).Ok?
    ensures NonNegative(MoveLines(products, lines, 1).value)
  {
    MoveLinesClosedForm(products, lines, 1);
    MoveLinesSound(products, lines, 1);
    var after := MoveLines(products, lines, 1).value;
    forall p | p in after
      ensures after[p].stock >= 0
    {
      if HasVariants(after[p]) {
        SoundSumNonNegative(after[p]);
      } else {
        ShapeKept(products[p], lines, p, 1);
      }
    }
  }

  lemma CommitNonNegative(w: World, k: nat, payment: Payment)
    requires Inv(w) && NonNegative(w.db.products) && k < |w.tickets|
    ensures NonNegative(Step(w, Committed(k, payment)).db.products) <==> Covered(w, Committed(k, payment))
  {
    var t := w.tickets[k];
    assert TicketOk(w.db.products, t);
    if Commit(w.db, t).Ok? {
      MoveLinesClosedForm(w.db.products, t.lines, -1);
      MoveLinesSound(w.db.products, t.lines, -1);
      var after := MoveLines(w.db.products, t.lines, -1).value;
      forall p | p in w.db.products
        ensures if HasVariants(w.db.products[p]) then after[p].stock >= 0
                else after[p].stock == w.db.products[p].stock - Quantity(t.lines, p, None)
      {
        ShapeKept(w.db.products[p], t.lines, p, -1);
        if HasVariants(after[p]) {
          SoundSumNonNegative(after[p]);
        }
      }
    }
  }

  lemma StepNonNegative(w: World, e: Event)
    requires Inv(w) && Allowed(w, e) && NonNegative(w.db.products)
    ensures NonNegative(Step(w, e).db.products) <==> Covered(w, e)
  {
    match e
    case Committed(k, payment) =>
      if k < |w.tickets| {
        CommitNonNegative(w, k, payment);
      }
    case Landed(k) =>
      if Lands(w, e) {
        var ch := w.pending[k];
        assert OrderOk(w.db.products, w.db.orders[ch.id]);
        LandShape(w.db, ch);
        if ch.patch.ToCancelled? {
          RestockKeepsNonNegative(w.db.products, w.db.orders[ch.id].lines);
        }
      }
    case VariantsEdited(p, v, _) =>
      EditsKeepSound(w, e);
      if p in w.db.products {
        SoundSumNonNegative(Step(w, e).db.products[p]);
      }
    case _ =>
  }

  /** Over every run: stock never goes negative if and only if every successful commit was covered. */
  lemma {:induction false} NeverNegativeExactly(w: World, es: seq<Event>)
    requires Inv(w) && AllowedRun(w, es) && NonNegative(w.db.products)
    ensures NeverNegative(w, es) <==> CoveredRun(w, es)
  {
    if es != [] {
      var front := es[..|es| - 1];
      NeverNegativeExactly(w, front);
      InvRun(w, front);
      if NonNegative(Run(w, front).db.products) {
        StepNonNegative(Run(w, front), es[|es| - 1]);
      }
      NeverNegativeLast(w, front);
    }
  }

  lemma NeverNegativeLast(w: World, es: seq<Event>)
    ensures NeverNegative(w, es) ==> NonNegative(Run(w, es).db.products)
  {
  }

  /** A commit right after its own validation is covered, when the order names each plain product once. */
  lemma SerialCommitCovered(w: World, e: Event, payment: Payment)
    requires Inv(w) && NonNegative(w.db.products) && e.Validated?
             && Prepare(w.db.products, e.streams, e.now, e.buyer, e.dto).Ok?
    requires forall i, j :: 0 <= i < j < |e.dto.items| && e.dto.items[i].product in w.db.products
                            && !HasVariants(w.db.products[e.dto.items[i].product])
                            ==> e.dto.items[i].product != e.dto.items[j].product
    ensures Covered(Step(w, e), Committed(|w.tickets|, payment))
  {
    var t := Prepare(w.db.products, e.streams, e.now, e.buyer, e.dto).value;
    PreparedFits(w.db.products, e.streams, e.now, e.buyer, e.dto);
    if Commit(w.db, t).Ok? {
      forall p | p in w.db.products && !HasVariants(w.db.products[p])
        ensures Quantity(t.lines, p, None) <= w.db.products[p].stock
      {
        PlainStockAfterCreate(w.db, t, p);
        if k: nat :| k < |e.dto.items| && e.dto.items[k].product == p {
          NamedOnceStaysNonNegative(w.db, e.streams, e.now, e.buyer, e.dto, p, k);
        } else {
          CheckItemsEach(w.db.products, e.dto.items);
          QuantityNone(t.lines, p);
        }
      }
    }
  }
}
