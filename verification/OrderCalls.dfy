/**
 A call on an order tests the order and then writes to its row, without testing again.
 The two halves are separate here: `Test` is what a call decides, `Land` what its write
 does to the row, whatever the row has become in between.
 */
module OrderCalls {
  import opened Base
  import opened Shop

  datatype Call =
    | Accepts(id: nat, seller: Option<SellerId>)
    | Ships(id: nat, seller: Option<SellerId>, trackingId: string)
    | Delivers(id: nat, seller: Option<SellerId>, now: int)
    | Cancels(id: nat, buyer: Option<BuyerId>)
    | Returns(id: nat, buyer: Option<BuyerId>)
    | Packs(id: nat, seller: Option<SellerId>, video: Option<string>)
    | RequestsDelivery(id: nat, seller: Option<SellerId>, waybill: Option<string>)
    | Polls(id: nat, seller: Option<SellerId>, delivered: bool, now: int)

  /** The call with nothing between its test and its write. */
  function Whole(db: Tables, c: Call): Result<Tables, Failure> {
    match c
    case Accepts(id, seller) => Accept(db, id, seller)
    case Ships(id, seller, trackingId) => Ship(db, id, seller, trackingId)
    case Delivers(id, seller, now) => Deliver(db, id, seller, now)
    case Cancels(id, buyer) => Cancel(db, id, buyer)
    case Returns(id, buyer) => Return(db, id, buyer)
    case Packs(id, seller, video) => UploadPackingVideo(db, id, seller, video)
    case RequestsDelivery(id, seller, waybill) => RequestDelivery(db, id, seller, waybill)
    case Polls(id, seller, delivered, now) => PollDelivery(db, id, seller, delivered, now)
  }

  /** The fields a write sets. `ToSettled` is the second write of a checkout. */
  datatype Patch =
    | ToPaid
    | ToShipped(trackingId: string)
    | ToDelivered(at: int)
    | ToCancelled
    | ToReturned
    | ToPacked(video: Option<string>)
    | ToPartner(waybill: Option<string>)
    | ToTracked(at: int)
    | ToSettled(payment: Payment)

  /** A write on its way, and the status its test saw. */
  datatype Change = Change(id: nat, seen: Status, patch: Patch)

  /** The status a write sets; a checkout that is not paid sets none. */
  function Sets(p: Patch): Option<Status> {
    match p
    case ToPaid => Some(PAID)
    case ToShipped(_) => Some(SHIPPED)
    case ToDelivered(_) => Some(DELIVERED)
    case ToCancelled => Some(CANCELLED)
    case ToReturned => Some(RETURNED)
    case ToPacked(_) => Some(PACKED)
    case ToPartner(_) => Some(SHIPPED)
    case ToTracked(_) => Some(DELIVERED)
    case ToSettled(payment) => if payment.markPaid then Some(PAID) else None
  }

  function Land(o: Order, p: Patch): (o': Order)
    ensures o'.lines == o.lines && o'.buyer == o.buyer && o'.streamId == o.streamId
    ensures o'.status == Sets(p).GetOr(o.status)
  {
    match p
    case ToPaid => o.(status := PAID)
    case ToShipped(trackingId) => o.(status := SHIPPED, trackingId := Some(trackingId))
    case ToDelivered(at) => o.(status := DELIVERED, deliveredAt := Some(at))
    case ToCancelled => o.(status := CANCELLED)
    case ToReturned => o.(status := RETURNED)
    case ToPacked(video) => o.(packingVideo := video, status := PACKED)
    case ToPartner(waybill) => o.(status := SHIPPED, trackingId := waybill, provider := Some("DELHIVERY"))
    case ToTracked(at) => o.(status := DELIVERED, deliveredAt := Some(at))
    case ToSettled(payment) => ApplyPayment(o, payment)
  }

  function PatchOf(o: Order, c: Call): Patch {
    match c
    case Accepts(_, _) => ToPaid
    case Ships(_, _, trackingId) => ToShipped(trackingId)
    case Delivers(_, _, now) => ToDelivered(now)
    case Cancels(_, _) => ToCancelled
    case Returns(_, _) => ToReturned
    case Packs(_, _, video) => ToPacked(video)
    case RequestsDelivery(_, _, waybill) => ToPartner(waybill)
    case Polls(_, _, _, now) => ToTracked(o.deliveredAt.GetOr(now))
  }

  /** Does the call's test let it write? */
  predicate Passes(db: Tables, c: Call) {
    && c.id < |db.orders|
    && (if c.Cancels? then MayCancel(db, c.id, c.buyer).Ok? else Whole(db, c).Ok?)
    && (c.Polls? ==> Tracks(db.orders[c.id], c.delivered))
  }

  function Test(db: Tables, c: Call): Option<Change> {
    if Passes(db, c) then Some(Change(c.id, db.orders[c.id].status, PatchOf(db.orders[c.id], c))) else None
  }

  function After(db: Tables, r: Result<Tables, Failure>): Tables {
    if r.Ok? then r.value else db
  }

  /** The write itself; that of a cancellation is a transaction with the stock. */
  function LandOn(db: Tables, ch: Change): Tables
    requires ch.id < |db.orders|
  {
    if ch.patch.ToCancelled? then After(db, CancelTransaction(db, ch.id))
    else Write(db, ch.id, Land(db.orders[ch.id], ch.patch))
  }

  /** The table refuses a write that would give two orders one payment id. */
  predicate Refused(db: Tables, ch: Change) {
    ch.patch.ToSettled? && IdsTaken(db.orders, ch.id, ch.patch.payment)
  }

  /** Test and write with nothing in between are the whole call. */
  lemma WholeCall(db: Tables, c: Call)
    ensures After(db, Whole(db, c))
         == if Test(db, c).Some? then LandOn(db, Test(db, c).value) else db
  {
  }

  // ---------- who may do what ----------

  /** A caller on the right side of the order: its buyer, or the seller of one of its products. */
  ghost predicate Party(db: Tables, o: Order, c: Call) {
    if c.Cancels? || c.Returns? then c.buyer == Some(o.buyer)
    else exists k :: 0 <= k < |o.lines| && SellsLine(db, o.lines[k], c.seller)
  }

  ghost predicate SellsLine(db: Tables, l: Line, seller: Option<SellerId>) {
    l.product in db.products && seller == Some(db.products[l.product].seller)
  }

  /** The order protocol: in which condition of the order each call may write. */
  predicate Ready(o: Order, c: Call) {
    match c
    case Accepts(_, _) => o.status == PENDING
    case Ships(_, _, _) => o.status == PAID && (o.streamId == None || o.streamId == Some(""))
    case Delivers(_, _, _) => o.status == SHIPPED
    case Cancels(_, _) => o.status == PENDING || o.status == PAID || o.status == PACKED
    case Returns(_, _) => o.status == DELIVERED
    case Packs(_, _, video) => o.status == PAID && OfStream(o) && video.Some? && video.value != ""
    case RequestsDelivery(_, _, waybill) => o.status == PACKED && OfStream(o) && waybill.Some? && waybill.value != ""
    case Polls(_, _, delivered, _) =>
      delivered && o.provider == Some("DELHIVERY") && o.trackingId.Some? && o.trackingId.value != ""
  }

  predicate OfStream(o: Order) {
    o.streamId.Some? && o.streamId.value != ""
  }

  lemma SellsExactly(db: Tables, o: Order, seller: Option<SellerId>)
    ensures seller.Some? && SellsIn(db, o, seller.value)
       <==> exists k :: 0 <= k < |o.lines| && SellsLine(db, o.lines[k], seller)
  {
    if seller.Some? && SellsIn(db, o, seller.value) {
      var l :| l in o.lines && l.product in db.products && db.products[l.product].seller == seller.value;
      var k :| 0 <= k < |o.lines| && o.lines[k] == l;
      assert SellsLine(db, o.lines[k], seller);
    }
    if exists k :: 0 <= k < |o.lines| && SellsLine(db, o.lines[k], seller) {
      var k :| 0 <= k < |o.lines| && SellsLine(db, o.lines[k], seller);
      assert o.lines[k] in o.lines;
    }
  }

  /** A call's test passes exactly for a party to the order, while the order is ready for it. */
  lemma PassesExactly(db: Tables, c: Call)
    ensures Passes(db, c) <==> c.id < |db.orders| && Party(db, db.orders[c.id], c) && Ready(db.orders[c.id], c)
  {
    if c.id < |db.orders| && !c.Cancels? && !c.Returns? {
      SellsExactly(db, db.orders[c.id], c.seller);
      hide SellsLine, SellsIn;
    }
  }

  /** So a call changes the tables for a party to the order only, in its turn. */
  lemma OnlyParties(db: Tables, c: Call)
    requires After(db, Whole(db, c)) != db
    ensures c.id < |db.orders| && Party(db, db.orders[c.id], c) && Ready(db.orders[c.id], c)
  {
    hide Whole, Party, Ready;
    WholeCall(db, c);
    PassesExactly(db, c);
  }

  /** What a write leaves on the order, beside its status: only what the call brings. */
  lemma WriteBrings(db: Tables, c: Call)
    requires Passes(db, c) && !c.Cancels?
    ensures var (o, o') := (db.orders[c.id], Land(db.orders[c.id], PatchOf(db.orders[c.id], c)));
            && o' == o.(status := o'.status, trackingId := o'.trackingId, deliveredAt := o'.deliveredAt,
                        packingVideo := o'.packingVideo, provider := o'.provider)
            && o'.trackingId == (if c.Ships? then Some(c.trackingId)
                                 else if c.RequestsDelivery? then c.waybill else o.trackingId)
            && o'.packingVideo == (if c.Packs? then c.video else o.packingVideo)
            && o'.provider == (if c.RequestsDelivery? then Some("DELHIVERY") else o.provider)
            && o'.deliveredAt == (if c.Delivers? || (c.Polls? && o.deliveredAt == None) then Some(c.now)
                                  else o.deliveredAt)
            && o'.status == (match c
                             case Accepts(_, _) => PAID
                             case Ships(_, _, _) => SHIPPED
                             case Delivers(_, _, _) => DELIVERED
                             case Returns(_, _) => RETURNED
                             case Packs(_, _, _) => PACKED
                             case RequestsDelivery(_, _, _) => SHIPPED
                             case _ => DELIVERED)
  {
  }

  // ---------- forwards and backwards ----------

  function Rank(s: Status): nat {
    match s
    case PENDING => 0 case PAID => 1 case PACKED => 2 case SHIPPED => 3
    case DELIVERED => 4 case RETURNED => 5 case CANCELLED => 6
  }

  /**
   A call takes its order backwards exactly when it is a tracking poll finding a returned or
   cancelled order delivered.
   */
  lemma BackwardExactly(db: Tables, c: Call)
    requires c.id < |db.orders|
    ensures var after := After(db, Whole(db, c)).orders;
            var s := db.orders[c.id].status;
            && |after| == |db.orders|
            && (Rank(after[c.id].status) < Rank(s)
                <==> c.Polls? && Passes(db, c) && (s == RETURNED || s == CANCELLED))
  {
  }

  /** That happens to every returned order that went with the partner, for each of its sellers. */
  lemma ReturnedCanBeDeliveredAgain(db: Tables, id: nat, seller: SellerId, now: int)
    requires id < |db.orders| && db.orders[id].status == RETURNED
    requires SellsIn(db, db.orders[id], seller) && Tracks(db.orders[id], true)
    ensures var after := After(db, Whole(db, Polls(id, Some(seller), true, now)));
            id < |after.orders| && after.orders[id].status == DELIVERED
  {
  }
}
