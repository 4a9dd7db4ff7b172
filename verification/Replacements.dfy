/**
 Replacement requests: pricing, approval, the balance payment and fulfilment, as
 steps on the request table and the balance payment sessions.
 */
module Replacements {
  import opened Base
  import opened Money
  import opened Streams
  import opened Variants
  import Shop
  import opened Redis

  type UserId = string
  type RzId = string

  const DAY: int := 24 * HOUR
  const SUBMIT_DAYS: int := 3
  const AUTO_APPROVE_MIN_SCORE: real := 3.0
  const PENDING_TTL_SECONDS: nat := 1800

  datatype RStatus =
    | REQUESTED | PENDING_ADMIN_REVIEW | AWAITING_PAYMENT | APPROVED | REJECTED
    | PACKED | SHIPPED | DELIVERED

  datatype Balance = NONE | PENDING | PAID

  /** `item` is the order line to replace, `variantId` and `price` are those of what is sent instead. */
  datatype Replacement = Replacement(
    orderId: nat, item: nat, buyer: Shop.BuyerId, seller: Shop.SellerId, status: RStatus,
    variantId: Option<string>, title: Option<string>, originalPrice: real, price: real,
    balanceDue: real, balance: Balance,
    rzOrderId: Option<RzId>, rzPaymentId: Option<string>,
    packingVideo: Option<string>, trackingId: Option<string>, provider: Option<string>)

  datatype BalanceSession = BalanceSession(user: UserId, replacement: nat, amountPaise: int)

  type Sessions = Store<RzId, BalanceSession, int, int>

  /** `issued` are the ids the payment provider has given out; `now` is the clock. */
  datatype Desk = Desk(requests: seq<Replacement>, sessions: Sessions, issued: set<RzId>, now: int)

  datatype RError =
    | NotFound | Forbidden | NotDelivered | NoDeliveryDate | TooLate | AlreadyRequested
    | NoSuchLine | NotReplaceable | SelectVariant | BadVariant | NoVariants
    | NotPending | NoBalanceDue | AlreadyPaid | BelowMinimum
    | InvalidSignature | PaymentNotFound | SessionExpired
    | NoVideo | NotApproved | NotPacked | WaitingForPayment | BalanceUnpaid | NoWaybill
    | IdInUse

  // ---------- pure parts ----------

  datatype Pricing = Pricing(original: real, replacement: real, title: Option<string>, balanceDue: real)

  /** What is sent instead and the price difference a buyer owes for it; never negative. */
  function ComputePricing(line: Shop.Line, product: Shop.Product, replacementVariantId: Option<string>):
    Result<Pricing, RError>
  {
    if Shop.HasVariants(product) then
      if !Given(replacementVariantId) then Err(SelectVariant)
      else
        var v := Find(product.variants.value, replacementVariantId.value);
        if v.None? then Err(BadVariant)
        else Ok(Pricing(line.price, v.value.price, Some(v.value.title), Surplus(v.value.price, line.price)))
    else if Given(replacementVariantId) then Err(NoVariants)
    else Ok(Pricing(line.price, product.price, None, Surplus(product.price, line.price)))
  }

  function Surplus(replacement: real, original: real): real {
    if replacement - original > 0.0 then replacement - original else 0.0
  }

  function ResolveApproval(r: Replacement): Replacement {
    if r.balanceDue > 0.0 then r.(status := AWAITING_PAYMENT, balance := PENDING)
    else r.(status := APPROVED, balance := NONE)
  }

  function AssertSellerCanFulfill(r: Replacement): Option<RError> {
    if r.status == AWAITING_PAYMENT then Some(WaitingForPayment)
    else if r.balanceDue > 0.0 && r.balance != PAID then Some(BalanceUnpaid)
    else None
  }

  // ---------- steps ----------

  predicate Open(d: Desk, orderId: nat) {
    exists i :: 0 <= i < |d.requests| && d.requests[i].orderId == orderId && d.requests[i].status != REJECTED
  }

  /** `item` is the position of the order line, `returnable` its product's flag, `score` the buyer's rating. */
  function CreateForOrder(d: Desk, db: Shop.Tables, buyer: Option<Shop.BuyerId>, orderId: nat, item: nat,
                          returnable: bool,
                          replacementVariantId: Option<string>, score: real): Result<Desk, RError>
  {
    if buyer.None? then Err(NotFound)
    else if orderId >= |db.orders| || db.orders[orderId].buyer != buyer.value then Err(NotFound)
    else
      var o := db.orders[orderId];
      if o.status != Shop.DELIVERED then Err(NotDelivered)
      else if o.deliveredAt.None? then Err(NoDeliveryDate)
      else if d.now > o.deliveredAt.value + SUBMIT_DAYS * DAY then Err(TooLate)
      else if Open(d, orderId) then Err(AlreadyRequested)
      else if item >= |o.lines| || o.lines[item].product !in db.products then Err(NoSuchLine)
      else if !returnable then Err(NotReplaceable)
      else
        var line := o.lines[item];
        var product := db.products[line.product];
        var pricing := ComputePricing(line, product, replacementVariantId);
        if pricing.Err? then Err(pricing.error)
        else
          var p := pricing.value;
          var r := Replacement(orderId, item, buyer.value, product.seller, PENDING_ADMIN_REVIEW,
                               if replacementVariantId.Some? then replacementVariantId else line.variantId,
                               if p.title.Some? then p.title else line.title,
                               p.original, p.replacement, p.balanceDue, NONE, None, None, None, None, None);
          Ok(d.(requests := d.requests + [if score >= AUTO_APPROVE_MIN_SCORE then ResolveApproval(r) else r]))
  }

  function Write(d: Desk, id: nat, r: Replacement): Desk
    requires id < |d.requests|
  {
    d.(requests := d.requests[id := r])
  }

  function Decide(d: Desk, id: nat, approved: bool): Result<Desk, RError> {
    if id >= |d.requests| then Err(NotFound)
    else if d.requests[id].status != PENDING_ADMIN_REVIEW then Err(NotPending)
    else Ok(Write(d, id, if approved then ResolveApproval(d.requests[id]) else d.requests[id].(status := REJECTED)))
  }

  /** The table keeps Razorpay order ids and payment ids unique over the requests. */
  predicate RzTaken(d: Desk, id: nat, rz: RzId) {
    exists j :: 0 <= j < |d.requests| && j != id && d.requests[j].rzOrderId == Some(rz)
  }

  predicate PayTaken(d: Desk, id: nat, pay: string) {
    exists j :: 0 <= j < |d.requests| && j != id && d.requests[j].rzPaymentId == Some(pay)
  }

  /** A second call returns the id already stored and opens no new session. */
  function CreateBalanceOrder(d: Desk, buyers: map<UserId, Shop.BuyerId>, u: UserId, id: nat, rz: RzId):
    (Desk, Result<RzId, RError>)
  {
    if u !in buyers then (d, Err(Forbidden))
    else if id >= |d.requests| || d.requests[id].buyer != buyers[u] then (d, Err(NotFound))
    else
      var r := d.requests[id];
      if r.status != AWAITING_PAYMENT || r.balanceDue <= 0.0 then (d, Err(NoBalanceDue))
      else if r.balance == PAID then (d, Err(AlreadyPaid))
      else if Given(r.rzOrderId) then (d, Ok(r.rzOrderId.value))
      else
        var amountPaise := Round(r.balanceDue * 100.0);
        if amountPaise < 100 then (d, Err(BelowMinimum))
        else if RzTaken(d, id, rz) then (d, Err(IdInUse))
        else
          (Desk(d.requests[id := r.(rzOrderId := Some(rz))],
                d.sessions.Put(rz, BalanceSession(u, id, amountPaise), Some(PENDING_TTL_SECONDS), d.now),
                d.issued + {rz}, d.now),
           Ok(rz))
  }

  /** The verification of a balance payment; it looks at the session, not at the request's status. */
  function VerifyBalancePayment(d: Desk, buyers: map<UserId, Shop.BuyerId>, u: UserId, id: nat, rz: RzId,
                                pay: string, signed: bool):
    (Desk, Result<RStatus, RError>)
  {
    if !signed then (d, Err(InvalidSignature))
    else if u !in buyers then (d, Err(Forbidden))
    else if id >= |d.requests| || d.requests[id].buyer != buyers[u] || d.requests[id].rzOrderId != Some(rz)
    then (d, Err(PaymentNotFound))
    else
      var r := d.requests[id];
      if r.balance == PAID then (d, Ok(r.status))
      else
        var s := d.sessions.Get(rz, d.now);
        if s.None? then (d, Err(SessionExpired))
        else if s.value.user != u || s.value.replacement != id then (d, Err(Forbidden))
        else if PayTaken(d, id, pay) then (d, Err(IdInUse))
        else
          (d.(requests := d.requests[id := r.(status := APPROVED, balance := PAID, rzPaymentId := Some(pay))],
              sessions := d.sessions.Del(rz)),
           Ok(APPROVED))
  }

  function MarkBalancePaid(d: Desk, id: nat, pay: string): Result<Desk, RError> {
    if id >= |d.requests| then Err(NotFound)
    else if d.requests[id].status != AWAITING_PAYMENT then Ok(d)
    else if PayTaken(d, id, pay) then Err(IdInUse)
    else Ok(Write(d, id, d.requests[id].(status := APPROVED, balance := PAID, rzPaymentId := Some(pay))))
  }

  function SellersRequest(d: Desk, id: nat, seller: Option<Shop.SellerId>): Result<Replacement, RError> {
    if seller.None? then Err(Forbidden)
    else if id >= |d.requests| || d.requests[id].seller != seller.value then Err(NotFound)
    else Ok(d.requests[id])
  }

  function UploadPackingVideo(d: Desk, id: nat, seller: Option<Shop.SellerId>, video: Option<string>):
    Result<Desk, RError>
  {
    if !Given(video) then Err(NoVideo)
    else
      var r := SellersRequest(d, id, seller);
      if r.Err? then Err(r.error)
      else if r.value.status != APPROVED then Err(NotApproved)
      else
        var failure := AssertSellerCanFulfill(r.value);
        if failure.Some? then Err(failure.value)
        else Ok(Write(d, id, r.value.(packingVideo := video, status := PACKED)))
  }

  function RequestDelivery(d: Desk, id: nat, seller: Option<Shop.SellerId>, waybill: Option<string>):
    Result<Desk, RError>
  {
    var r := SellersRequest(d, id, seller);
    if r.Err? then Err(r.error)
    else if r.value.status != PACKED then Err(NotPacked)
    else
      var failure := AssertSellerCanFulfill(r.value);
      if failure.Some? then Err(failure.value)
      else if !Given(waybill) then Err(NoWaybill)
      else Ok(Write(d, id, r.value.(status := SHIPPED, trackingId := waybill, provider := Some("DELHIVERY"))))
  }

  /** The tracking poll tests no status. */
  function PollDelivery(d: Desk, id: nat, seller: Option<Shop.SellerId>, delivered: bool): Result<Desk, RError> {
    var r := SellersRequest(d, id, seller);
    if r.Err? then Err(r.error)
    else if r.value.provider == Some("DELHIVERY") && Given(r.value.trackingId) && delivered
    then Ok(Write(d, id, r.value.(status := DELIVERED)))
    else Ok(d)
  }

  function Deliver(d: Desk, id: nat, seller: Option<Shop.SellerId>): Result<Desk, RError> {
    var r := SellersRequest(d, id, seller);
    if r.Err? then Err(NotFound)
    else if r.value.status != SHIPPED then Err(NotFound)
    else Ok(Write(d, id, r.value.(status := DELIVERED)))
  }

  // ---------- runs ----------

  datatype Event =
    | Tick(ms: nat)
    | Created(db: Shop.Tables, buyer: Option<Shop.BuyerId>, orderId: nat, item: nat, returnable: bool,
              variant: Option<string>, score: real)
    | Decided(id: nat, approved: bool)
    | BalanceOpened(buyers: map<UserId, Shop.BuyerId>, u: UserId, id: nat, rz: RzId)
    | BalanceVerified(buyers: map<UserId, Shop.BuyerId>, u: UserId, id: nat, rz: RzId, pay: string, signed: bool)
    | MarkedPaid(id: nat, pay: string)
    | Packed(id: nat, seller: Option<Shop.SellerId>, video: Option<string>)
    | DeliveryRequested(id: nat, seller: Option<Shop.SellerId>, waybill: Option<string>)
    | Polled(id: nat, seller: Option<Shop.SellerId>, delivered: bool)
    | DeliveredByHand(id: nat, seller: Option<Shop.SellerId>)

  function After(d: Desk, r: Result<Desk, RError>): Desk {
    if r.Ok? then r.value else d
  }

  function Step(d: Desk, e: Event): Desk {
    match e
    case Tick(ms) => d.(now := d.now + ms)
    case Created(db, buyer, orderId, item, returnable, variant, score) =>
      After(d, CreateForOrder(d, db, buyer, orderId, item, returnable, variant, score))
    case Decided(id, approved) => After(d, Decide(d, id, approved))
    case BalanceOpened(buyers, u, id, rz) => CreateBalanceOrder(d, buyers, u, id, rz).0
    case BalanceVerified(buyers, u, id, rz, pay, signed) => VerifyBalancePayment(d, buyers, u, id, rz, pay, signed).0
    case MarkedPaid(id, pay) => After(d, MarkBalancePaid(d, id, pay))
    case Packed(id, seller, video) => After(d, UploadPackingVideo(d, id, seller, video))
    case DeliveryRequested(id, seller, waybill) => After(d, RequestDelivery(d, id, seller, waybill))
    case Polled(id, seller, delivered) => After(d, PollDelivery(d, id, seller, delivered))
    case DeliveredByHand(id, seller) => After(d, Deliver(d, id, seller))
  }

  function Run(d: Desk, es: seq<Event>): Desk {
    if es == [] then d else Step(Run(d, es[..|es| - 1]), es[|es| - 1])
  }

  /** The provider never reuses an id or gives an empty one. */
  predicate Allowed(d: Desk, e: Event) {
    e.BalanceOpened? ==> e.rz !in d.issued && e.rz != ""
  }

  predicate AllowedRun(d: Desk, es: seq<Event>) {
    es == [] || (AllowedRun(d, es[..|es| - 1]) && Allowed(Run(d, es[..|es| - 1]), es[|es| - 1]))
  }

  // ---------- safety ----------

  predicate Fulfilling(s: RStatus) {
    s == APPROVED || s == PACKED || s == SHIPPED || s == DELIVERED
  }

  /**
   The balance is paid before fulfilment. The strengthening: an open payment belongs
   to a request that still waits for it, since verification does not test the status.
   */
  ghost predicate ReplacementOk(r: Replacement) {
    && (Fulfilling(r.status) && r.balanceDue > 0.0 ==> r.balance == PAID)
    && (r.rzOrderId.Some? && r.balance != PAID ==> r.status == AWAITING_PAYMENT)
    && (r.rzOrderId.Some? ==> r.rzOrderId.value != "")
    && (r.status == PENDING_ADMIN_REVIEW ==> r.rzOrderId.None?)
    && (r.status == AWAITING_PAYMENT ==> r.balanceDue > 0.0 && r.balance == PENDING)
    && (Given(r.trackingId) ==> r.status == SHIPPED || r.status == DELIVERED)
    && r.status != REQUESTED
    && IsDifference(r.balanceDue, r.price, r.originalPrice)
  }

  /** What is due is the difference of the two prices, or nothing when the replacement is not dearer. */
  predicate IsDifference(due: real, price: real, original: real) {
    due >= 0.0 && due >= price - original && (due == 0.0 || due == price - original)
  }

  /** What the request is about. */
  predicate SameTerms(r: Replacement, r': Replacement) {
    && r'.orderId == r.orderId && r'.item == r.item && r'.buyer == r.buyer && r'.seller == r.seller
    && r'.variantId == r.variantId && r'.title == r.title
    && r'.originalPrice == r.originalPrice && r'.price == r.price && r'.balanceDue == r.balanceDue
  }

  /** Two requests for the same order, neither of them rejected. */
  predicate BothOpen(a: Replacement, b: Replacement) {
    a.orderId == b.orderId && a.status != REJECTED && b.status != REJECTED
  }

  ghost predicate Inv(d: Desk) {
    && (forall i :: 0 <= i < |d.requests| ==> ReplacementOk(d.requests[i]))
    && (forall i :: 0 <= i < |d.requests| && d.requests[i].rzOrderId.Some? ==>
          d.requests[i].rzOrderId.value in d.issued)
    && (forall rz :: rz in d.sessions.entries ==> SessionOk(d, rz))
    && (forall i, j :: 0 <= i < j < |d.requests| ==> !BothOpen(d.requests[i], d.requests[j]))
    && (forall i, j :: 0 <= i < j < |d.requests| ==> !SameId(d.requests[i], d.requests[j]))
  }

  /** The session of an id belongs to the request that holds the id. */
  ghost predicate SessionOk(d: Desk, rz: RzId)
    requires rz in d.sessions.entries
  {
    var k := d.sessions.entries[rz].value.replacement;
    k < |d.requests| && d.requests[k].rzOrderId == Some(rz)
  }

  predicate SameId(a: Replacement, b: Replacement) {
    a.rzOrderId.Some? && a.rzOrderId == b.rzOrderId
  }

  /** A desk without requests starts a run. */
  lemma EmptyInv(now: int)
    ensures Inv(Desk([], Store(map[], map[]), {}, now))
  {
  }

  /** The arrows of the request's life. */
  predicate Arrow(s: RStatus, s': RStatus) {
    || s == s'
    || (s == PENDING_ADMIN_REVIEW && (s' == REJECTED || s' == AWAITING_PAYMENT || s' == APPROVED))
    || (s == AWAITING_PAYMENT && s' == APPROVED)
    || (s == APPROVED && s' == PACKED)
    || (s == PACKED && s' == SHIPPED)
    || (s == SHIPPED && s' == DELIVERED)
  }

  /** The request receives an id the provider has just given out. */
  ghost predicate TakesId(d: Desk, d': Desk, r: Replacement, r': Replacement) {
    r.rzOrderId.None? && r'.rzOrderId.Some? && r'.rzOrderId.value !in d.issued && r'.rzOrderId.value in d'.issued
  }

  /** One request moves along an arrow; the others, and its order and price, stay. */
  ghost predicate OneMoved(d: Desk, d': Desk, id: nat) {
    && id < |d.requests| && |d'.requests| == |d.requests|
    && d'.requests == d.requests[id := d'.requests[id]]
    && var (r, r') := (d.requests[id], d'.requests[id]);
       && SameTerms(r, r')
       && ReplacementOk(r') && Arrow(r.status, r'.status)
       && (r'.rzOrderId == r.rzOrderId || TakesId(d, d', r, r'))
  }

  lemma FulfilmentMoves(d: Desk, e: Event)
    requires Inv(d) && (e.Packed? || e.DeliveryRequested? || e.Polled? || e.DeliveredByHand?)
    ensures Step(d, e) == d || OneMoved(d, Step(d, e), e.id)
  {
  }

  lemma DecisionMoves(d: Desk, e: Event)
    requires Inv(d) && (e.Decided? || e.MarkedPaid?)
    ensures Step(d, e) == d || OneMoved(d, Step(d, e), e.id)
  {
  }

  lemma BalanceOpenedMoves(d: Desk, e: Event)
    requires Inv(d) && Allowed(d, e) && e.BalanceOpened?
    ensures Step(d, e) == d || OneMoved(d, Step(d, e), e.id)
  {
  }

  lemma BalanceVerifiedMoves(d: Desk, e: Event)
    requires Inv(d) && e.BalanceVerified?
    ensures Step(d, e) == d || OneMoved(d, Step(d, e), e.id)
  {
  }

  lemma StepMoves(d: Desk, e: Event)
    requires Inv(d) && Allowed(d, e)
    ensures var d' := Step(d, e);
            d'.requests == d.requests || (e.Created? && CreatedOne(d, d'))
            || (!e.Created? && !e.Tick? && OneMoved(d, d', e.id))
  {
    match e
    case Tick(_) =>
    case Created(_, _, _, _, _, _, _) => CreateAdds(d, e);
    case Decided(_, _) => DecisionMoves(d, e);
    case MarkedPaid(_, _) => DecisionMoves(d, e);
    case BalanceOpened(_, _, _, _) => BalanceOpenedMoves(d, e);
    case BalanceVerified(_, _, _, _, _, _) => BalanceVerifiedMoves(d, e);
    case _ => FulfilmentMoves(d, e);
  }

  ghost predicate CreatedOne(d: Desk, d': Desk) {
    && |d'.requests| == |d.requests| + 1 && d'.requests[..|d.requests|] == d.requests
    && d' == d.(requests := d'.requests)
    && var r := d'.requests[|d.requests|];
       ReplacementOk(r) && r.rzOrderId.None? && !Open(d, r.orderId)
  }

  lemma CreateAdds(d: Desk, e: Event)
    requires e.Created?
    ensures Step(d, e) == d || CreatedOne(d, Step(d, e))
  {
  }

  lemma InvStep(d: Desk, e: Event)
    requires Inv(d) && Allowed(d, e)
    ensures Inv(Step(d, e))
  {
    StepMoves(d, e);
    StepSessions(d, e);
    hide Step, ReplacementOk, Allowed;
    var d' := Step(d, e);
    if d'.requests == d.requests {
    } else if e.Created? {
      AddedKeepsInv(d, d');
    } else {
      MovedKeepsInv(d, d', e.id);
    }
  }

  /** A session of the new desk is an old one, or was opened now for the request that receives its id. */
  ghost predicate SessionFrom(d: Desk, d': Desk, rz: RzId)
    requires rz in d'.sessions.entries
  {
    || (rz in d.sessions.entries && d'.sessions.entries[rz] == d.sessions.entries[rz])
    || SessionOk(d', rz)
  }

  lemma StepSessions(d: Desk, e: Event)
    requires Inv(d)
    ensures var d' := Step(d, e);
            d.issued <= d'.issued && forall rz :: rz in d'.sessions.entries ==> SessionFrom(d, d', rz)
  {
  }

  lemma AddedKeepsInv(d: Desk, d': Desk)
    requires Inv(d) && CreatedOne(d, d')
    ensures Inv(d')
  {
  }

  lemma MovedKeepsInv(d: Desk, d': Desk, id: nat)
    requires Inv(d) && OneMoved(d, d', id) && d.issued <= d'.issued
    requires forall rz :: rz in d'.sessions.entries ==> SessionFrom(d, d', rz)
    ensures Inv(d')
  {
  }

  lemma {:induction false} InvRun(d: Desk, es: seq<Event>)
    requires Inv(d) && AllowedRun(d, es)
    ensures Inv(Run(d, es))
  {
    if es != [] {
      InvRun(d, es[..|es| - 1]);
      InvStep(Run(d, es[..|es| - 1]), es[|es| - 1]);
    }
  }

  /**
   In every reachable state a request approved, packed, shipped or delivered with a
   balance due has been paid, and an order has at most one request not rejected.
   */
  lemma PaidBeforeFulfilment(d: Desk, es: seq<Event>, id: nat)
    requires Inv(d) && AllowedRun(d, es) && id < |Run(d, es).requests|
    ensures var r := Run(d, es).requests[id]; Fulfilling(r.status) && r.balanceDue > 0.0 ==> r.balance == PAID
    ensures var rs := Run(d, es).requests;
            forall j :: 0 <= j < |rs| && j != id ==> !BothOpen(rs[j], rs[id])
  {
    hide Run, AllowedRun;
    InvRun(d, es);
    assert ReplacementOk(Run(d, es).requests[id]);
  }

  /** No step takes a status backwards, and none skips packing or shipping. */
  lemma StatusFollowsArrows(d: Desk, e: Event, id: nat)
    requires Inv(d) && Allowed(d, e) && id < |d.requests|
    ensures id < |Step(d, e).requests| && Arrow(d.requests[id].status, Step(d, e).requests[id].status)
    ensures SameTerms(d.requests[id], Step(d, e).requests[id])
  {
    StepMoves(d, e);
    hide Step, ReplacementOk, Inv;
    var d' := Step(d, e);
    if e.Created? && |d'.requests| > |d.requests| {
      assert d'.requests[..|d.requests|][id] == d'.requests[id];
    }
  }

  // ---------- who may do what, and what a request costs ----------

  /** A returnable line of the buyer's own order, delivered at most three days ago and without an open request. */
  ghost predicate Replaceable(d: Desk, db: Shop.Tables, buyer: Option<Shop.BuyerId>, orderId: nat, item: nat,
                              returnable: bool)
  {
    && orderId < |db.orders| && buyer == Some(db.orders[orderId].buyer)
    && var o := db.orders[orderId];
    && o.status == Shop.DELIVERED && o.deliveredAt.Some? && d.now - o.deliveredAt.value <= 259_200_000
    && (forall i :: 0 <= i < |d.requests| && d.requests[i].orderId == orderId ==> d.requests[i].status == REJECTED)
    && item < |o.lines| && o.lines[item].product in db.products && returnable
  }

  /** The chosen variant exists, or there are none and none is chosen. */
  ghost predicate Choosable(x: Shop.Product, variantId: Option<string>) {
    && (exists price, stock :: Shop.Stands(x, variantId, price, stock))
    && (x.variants.None? || |x.variants.value.items| == 0 ==> variantId.None? || variantId.value == "")
  }

  lemma PricingExactly(line: Shop.Line, x: Shop.Product, variantId: Option<string>)
    ensures ComputePricing(line, x, variantId).Ok? <==> Choosable(x, variantId)
    ensures ComputePricing(line, x, variantId).Ok? ==>
              var p := ComputePricing(line, x, variantId).value;
              && (exists stock :: Shop.Stands(x, variantId, p.replacement, stock))
              && (if Shop.HasVariants(x)
                  then p.title.Some? && exists i :: i in x.variants.value.items && variantId == Some(i.id)
                                                    && p.title == Some(i.title) && p.replacement == i.price
                  else p.title == None)
              && p.original == line.price && IsDifference(p.balanceDue, p.replacement, line.price)
  {
    if !Shop.HasVariants(x) {
      assert Shop.Stands(x, variantId, x.price, x.stock);
    } else if Given(variantId) {
      Shop.FoundStands(x, variantId);
    }
  }

  /**
   A request is accepted exactly for something replaceable and choosable. It records the
   price of what was chosen, and the balance due is what that costs more than the line.
   Buyers with a score of three or more are approved at once, exactly when nothing is due.
   */
  lemma CreateExactly(d: Desk, db: Shop.Tables, buyer: Option<Shop.BuyerId>, orderId: nat, item: nat, returnable: bool,
                      variantId: Option<string>, score: real)
    ensures var made := CreateForOrder(d, db, buyer, orderId, item, returnable, variantId, score);
            && (made.Ok? <==>
                  && Replaceable(d, db, buyer, orderId, item, returnable)
                  && Choosable(db.products[db.orders[orderId].lines[item].product], variantId))
            && (made.Ok? ==>
                  && |made.value.requests| == |d.requests| + 1
                  && made.value == d.(requests := d.requests + [made.value.requests[|d.requests|]])
                  && RequestFor(made.value.requests[|d.requests|], db, orderId, item, variantId, score))
  {
    if orderId < |db.orders| && item < |db.orders[orderId].lines| {
      var line := db.orders[orderId].lines[item];
      if line.product in db.products {
        PricingExactly(line, db.products[line.product], variantId);
      }
    }
    hide ComputePricing, Choosable;
  }

  ghost predicate RequestFor(r: Replacement, db: Shop.Tables, orderId: nat, item: nat, variantId: Option<string>,
                             score: real)
  {
    && orderId < |db.orders| && item < |db.orders[orderId].lines|
    && var (o, line) := (db.orders[orderId], db.orders[orderId].lines[item]);
    && line.product in db.products
    && r.orderId == orderId && r.item == item && r.buyer == o.buyer && r.seller == db.products[line.product].seller
    && (variantId.Some? ==> r.variantId == variantId) && (variantId.None? ==> r.variantId == line.variantId)
    && (if Shop.HasVariants(db.products[line.product])
        then r.title.Some? && exists i :: i in db.products[line.product].variants.value.items
                                          && variantId == Some(i.id) && r.title == Some(i.title) && r.price == i.price
        else r.title == line.title)
    && (exists stock :: Shop.Stands(db.products[line.product], variantId, r.price, stock))
    && r.originalPrice == line.price && IsDifference(r.balanceDue, r.price, line.price)
    && (if score < 3.0 then r.status == PENDING_ADMIN_REVIEW && r.balance == NONE
        else if r.price > line.price then r.status == AWAITING_PAYMENT && r.balance == PENDING
        else r.status == APPROVED && r.balance == NONE)
    && r.rzOrderId == None && r.rzPaymentId == None && r.packingVideo == None && r.trackingId == None
  }

  /** The caller is the request's buyer. */
  predicate IsBuyer(d: Desk, buyers: map<UserId, Shop.BuyerId>, u: UserId, id: nat) {
    id < |d.requests| && u in buyers && buyers[u] == d.requests[id].buyer
  }

  /** The session of this id is alive, and is the caller's for this request. */
  predicate OwnSession(d: Desk, u: UserId, id: nat, rz: RzId) {
    && rz in d.sessions.entries && Alive(d.sessions.entries[rz], d.now)
    && d.sessions.entries[rz].value.user == u && d.sessions.entries[rz].value.replacement == id
  }

  predicate FreeOf(d: Desk, id: nat, pay: string) {
    forall j :: 0 <= j < |d.requests| && j != id ==> d.requests[j].rzPaymentId != Some(pay)
  }

  /** The seller may send what was asked for: it is paid, or nothing is due. */
  predicate Payment(r: Replacement) {
    r.balanceDue <= 0.0 || r.balance == PAID
  }

  /** Who may write to a request, and in which condition of it. */
  ghost predicate Permitted(d: Desk, e: Event) {
    match e
    case Tick(_) => false
    case Created(db, buyer, orderId, item, returnable, variant, _) =>
      && Replaceable(d, db, buyer, orderId, item, returnable)
      && Choosable(db.products[db.orders[orderId].lines[item].product], variant)
    case Decided(id, _) => id < |d.requests| && d.requests[id].status == PENDING_ADMIN_REVIEW
    case BalanceOpened(buyers, u, id, rz) =>
      && IsBuyer(d, buyers, u, id) && d.requests[id].status == AWAITING_PAYMENT && d.requests[id].rzOrderId == None
      && d.requests[id].balance != PAID && Round(d.requests[id].balanceDue * 100.0) >= 100
      && forall j :: 0 <= j < |d.requests| ==> d.requests[j].rzOrderId != Some(rz)
    case BalanceVerified(buyers, u, id, rz, pay, signed) =>
      && signed && IsBuyer(d, buyers, u, id) && d.requests[id].rzOrderId == Some(rz) && d.requests[id].balance != PAID
      && OwnSession(d, u, id, rz) && FreeOf(d, id, pay)
    case MarkedPaid(id, pay) => id < |d.requests| && d.requests[id].status == AWAITING_PAYMENT && FreeOf(d, id, pay)
    case Packed(id, seller, video) =>
      && id < |d.requests| && seller == Some(d.requests[id].seller) && d.requests[id].status == APPROVED
      && Payment(d.requests[id]) && video.Some? && video.value != ""
    case DeliveryRequested(id, seller, waybill) =>
      && id < |d.requests| && seller == Some(d.requests[id].seller) && d.requests[id].status == PACKED
      && Payment(d.requests[id]) && waybill.Some? && waybill.value != ""
    case Polled(id, seller, delivered) =>
      && id < |d.requests| && seller == Some(d.requests[id].seller) && delivered
      && d.requests[id].status != DELIVERED && d.requests[id].trackingId.Some? && d.requests[id].trackingId.value != ""
      && d.requests[id].provider == Some("DELHIVERY")
    case DeliveredByHand(id, seller) =>
      id < |d.requests| && seller == Some(d.requests[id].seller) && d.requests[id].status == SHIPPED
  }

  lemma CreatedPermitted(d: Desk, e: Event)
    requires e.Created?
    ensures Step(d, e).requests != d.requests <==> Permitted(d, e)
  {
    CreateExactly(d, e.db, e.buyer, e.orderId, e.item, e.returnable, e.variant, e.score);
    hide CreateForOrder, Replaceable, Choosable, RequestFor;
  }

  lemma BalancePermitted(d: Desk, e: Event)
    requires Inv(d) && (e.BalanceOpened? || e.BalanceVerified?)
    ensures Step(d, e).requests != d.requests <==> Permitted(d, e)
  {
    if e.id < |d.requests| {
      assert ReplacementOk(d.requests[e.id]);
    }
    if Permitted(d, e) {
      assert Step(d, e).requests[e.id] != d.requests[e.id];
    }
  }

  lemma HandledPermitted(d: Desk, e: Event)
    requires !e.Created? && !e.BalanceOpened? && !e.BalanceVerified?
    ensures Step(d, e).requests != d.requests <==> Permitted(d, e)
  {
    if Permitted(d, e) {
      assert Step(d, e).requests[e.id] != d.requests[e.id];
    }
  }

  /** In every reachable state a call changes the requests exactly when caller and request permit it. */
  lemma ChangesExactly(d: Desk, e: Event)
    requires Inv(d)
    ensures Step(d, e).requests != d.requests <==> Permitted(d, e)
  {
    hide Step, Permitted, Inv;
    if e.Created? {
      CreatedPermitted(d, e);
    } else if e.BalanceOpened? || e.BalanceVerified? {
      BalancePermitted(d, e);
    } else {
      HandledPermitted(d, e);
    }
  }

  /** What an approved, paid request needs to arrive is up to its seller and the partner alone. */
  lemma ApprovedArrives(d: Desk, id: nat, video: string, waybill: string)
    requires Inv(d) && id < |d.requests| && d.requests[id].status == APPROVED && video != "" && waybill != ""
    ensures var seller := Some(d.requests[id].seller);
            var d1 := Step(d, Packed(id, seller, Some(video)));
            var d2 := Step(d1, DeliveryRequested(id, seller, Some(waybill)));
            var d3 := Step(d2, Polled(id, seller, true));
            && id < |d1.requests| && d1.requests[id].status == PACKED && d1.requests[id].packingVideo == Some(video)
            && id < |d2.requests| && d2.requests[id].status == SHIPPED && d2.requests[id].trackingId == Some(waybill)
            && id < |d3.requests| && d3.requests[id].status == DELIVERED
  {
    assert ReplacementOk(d.requests[id]);
  }

  /** Opening a balance asks for what is due, for half an hour. */
  lemma OpenedBalance(d: Desk, buyers: map<UserId, Shop.BuyerId>, u: UserId, id: nat, rz: RzId)
    requires Permitted(d, BalanceOpened(buyers, u, id, rz))
    ensures var (d', r) := CreateBalanceOrder(d, buyers, u, id, rz);
            && r == Ok(rz) && rz in d'.sessions.entries && d'.requests[id].rzOrderId == Some(rz)
            && var e := d'.sessions.entries[rz];
            && e.value.user == u && e.value.replacement == id && e.expiresAt == Some(d.now + 1_800_000)
            && -0.5 <= 100.0 * d.requests[id].balanceDue - e.value.amountPaise as real < 0.5
  {
    RoundNear(100.0 * d.requests[id].balanceDue);
  }

  // ---------- when a waiting balance can be paid ----------

  /** The balance can be opened, or has been and its session is alive. */
  predicate Payable(d: Desk, id: nat)
    requires id < |d.requests|
  {
    var r := d.requests[id];
    if r.rzOrderId.None? then Round(r.balanceDue * 100.0) >= 100 else d.sessions.Get(r.rzOrderId.value, d.now).Some?
  }

  ghost predicate Blocked(d: Desk, id: nat) {
    id < |d.requests| && d.requests[id].status == AWAITING_PAYMENT && !Payable(d, id)
  }

  /** No call of the repair entry, which nothing in the application makes. */
  predicate NoneMarked(es: seq<Event>) {
    forall k :: 0 <= k < |es| ==> !es[k].MarkedPaid?
  }

  lemma BlockedCreate(d: Desk, e: Event, id: nat)
    requires Blocked(d, id) && e.Created?
    ensures Blocked(Step(d, e), id)
  {
  }

  /** Only the request the call names can change. */
  lemma BlockedBalance(d: Desk, e: Event, id: nat)
    requires Inv(d) && Allowed(d, e) && Blocked(d, id) && (e.BalanceOpened? || e.BalanceVerified?)
    ensures Blocked(Step(d, e), id)
  {
  }

  lemma BlockedOther(d: Desk, e: Event, id: nat)
    requires Blocked(d, id) && ReplacementOk(d.requests[id])
    requires !e.Created? && !e.BalanceOpened? && !e.BalanceVerified? && !e.MarkedPaid?
    ensures Blocked(Step(d, e), id)
  {
  }

  lemma BlockedStep(d: Desk, e: Event, id: nat)
    requires Inv(d) && Allowed(d, e) && Blocked(d, id) && !e.MarkedPaid?
    ensures Blocked(Step(d, e), id)
  {
    assert ReplacementOk(d.requests[id]);
    hide Step, Inv, Allowed, Blocked, ReplacementOk;
    if e.Created? {
      BlockedCreate(d, e, id);
    } else if e.BalanceOpened? || e.BalanceVerified? {
      BlockedBalance(d, e, id);
    } else {
      BlockedOther(d, e, id);
    }
  }

  lemma {:induction false} BlockedForever(d: Desk, es: seq<Event>, id: nat)
    requires Inv(d) && AllowedRun(d, es) && Blocked(d, id) && NoneMarked(es)
    ensures Blocked(Run(d, es), id)
  {
    if es != [] {
      var front := es[..|es| - 1];
      assert forall k :: 0 <= k < |front| ==> front[k] == es[k];
      BlockedForever(d, front, id);
      InvRun(d, front);
      BlockedStep(Run(d, front), es[|es| - 1], id);
    }
  }

  lemma {:induction false} Longest(ids: set<RzId>) returns (n: nat)
    ensures forall x :: x in ids ==> |x| <= n
    decreases |ids|
  {
    if ids == {} {
      n := 0;
    } else {
      var x :| x in ids;
      var m := Longest(ids - {x});
      n := if |x| < m then m else |x|;
      forall y | y in ids
        ensures |y| <= n
      {
        assert y == x || y in ids - {x};
      }
    }
  }

  /** The provider can always give an id it has not given before. */
  lemma FreshId(ids: set<RzId>) returns (rz: RzId)
    ensures rz !in ids && rz != ""
  {
    var n := Longest(ids);
    rz := seq(n + 1, _ => 'x');
  }

  /** Paying while the session is alive. */
  lemma PaidInTime(d: Desk, id: nat) returns (e: Event)
    requires Inv(d) && id < |d.requests| && d.requests[id].status == AWAITING_PAYMENT
    requires Payable(d, id) && d.requests[id].rzOrderId.Some?
    ensures Allowed(d, e) && !e.MarkedPaid?
    ensures id < |Step(d, e).requests| && Step(d, e).requests[id].status == APPROVED
  {
    var r := d.requests[id];
    var rz := r.rzOrderId.value;
    assert ReplacementOk(r) && SessionOk(d, rz);
    var s := d.sessions.entries[rz].value;
    if s.replacement != id {
      assert SameId(d.requests[s.replacement], r) && SameId(r, d.requests[s.replacement]);
    }
    var pay := FreshId(set j | 0 <= j < |d.requests| && d.requests[j].rzPaymentId.Some? ::
                         d.requests[j].rzPaymentId.value);
    e := BalanceVerified(map[s.user := r.buyer], s.user, id, rz, pay, true);
  }

  /** Opening the balance. */
  lemma OpenedInTime(d: Desk, id: nat) returns (e: Event)
    requires Inv(d) && id < |d.requests| && d.requests[id].status == AWAITING_PAYMENT
    requires Payable(d, id) && d.requests[id].rzOrderId.None?
    ensures Allowed(d, e) && !e.MarkedPaid?
    ensures var d' := Step(d, e);
            && id < |d'.requests| && d'.requests[id].status == AWAITING_PAYMENT
            && d'.requests[id].rzOrderId.Some? && Payable(d', id)
  {
    hide Round;
    assert ReplacementOk(d.requests[id]);
    var rz := FreshId(d.issued);
    e := BalanceOpened(map["u" := d.requests[id].buyer], "u", id, rz);
  }

  lemma RunTwo(d: Desk, a: Event, b: Event)
    ensures Run(d, [a]) == Step(d, a) && Run(d, [a, b]) == Step(Step(d, a), b)
    ensures AllowedRun(d, [a]) <==> Allowed(d, a)
    ensures AllowedRun(d, [a, b]) <==> Allowed(d, a) && Allowed(Step(d, a), b)
  {
  }

  /** Some run of the calls the application makes takes the request out of its wait. */
  ghost predicate CanMoveOn(d: Desk, id: nat) {
    exists es ::
      && AllowedRun(d, es) && NoneMarked(es)
      && id < |Run(d, es).requests| && Run(d, es).requests[id].status != AWAITING_PAYMENT
  }

  lemma PayableMovesOn(d: Desk, id: nat)
    requires Inv(d) && id < |d.requests| && d.requests[id].status == AWAITING_PAYMENT && Payable(d, id)
    ensures CanMoveOn(d, id)
  {
    hide Step, Inv, Allowed, Payable;
    if d.requests[id].rzOrderId.Some? {
      var pay := PaidInTime(d, id);
      RunTwo(d, pay, pay);
      assert NoneMarked([pay]);
    } else {
      var open := OpenedInTime(d, id);
      InvStep(d, open);
      var pay := PaidInTime(Step(d, open), id);
      RunTwo(d, open, pay);
      assert NoneMarked([open, pay]);
    }
  }

  /**
   A request waiting for its balance can move on, by any run of the calls the
   application makes, exactly when its balance has not been opened and comes to a rupee
   or more, or has been opened and its session is alive.
   */
  lemma MovesOnExactly(d: Desk, id: nat)
    requires Inv(d) && id < |d.requests| && d.requests[id].status == AWAITING_PAYMENT
    ensures CanMoveOn(d, id) <==> Payable(d, id)
  {
    if Payable(d, id) {
      PayableMovesOn(d, id);
    } else {
      forall es | AllowedRun(d, es) && NoneMarked(es)
        ensures Blocked(Run(d, es), id)
      {
        BlockedForever(d, es, id);
      }
    }
  }

  /** Half an hour without payment closes the window of any balance for good. */
  lemma HalfHourBlocks(d: Desk, buyers: map<UserId, Shop.BuyerId>, u: UserId, id: nat, rz: RzId)
    requires Inv(d) && Allowed(d, BalanceOpened(buyers, u, id, rz))
    requires u in buyers && id < |d.requests| && d.requests[id].buyer == buyers[u]
    requires d.requests[id].status == AWAITING_PAYMENT && d.requests[id].rzOrderId.None?
    ensures Blocked(Step(Step(d, BalanceOpened(buyers, u, id, rz)), Tick(1000 * PENDING_TTL_SECONDS)), id)
  {
  }

  /** A price difference below one rupee is blocked from the moment the request is approved. */
  lemma SubRupeeBlocks(d: Desk, db: Shop.Tables, buyer: Option<Shop.BuyerId>, orderId: nat, item: nat, returnable: bool,
                       variant: Option<string>, score: real)
    requires CreateForOrder(d, db, buyer, orderId, item, returnable, variant, score).Ok?
             && score >= AUTO_APPROVE_MIN_SCORE
    ensures var d' := CreateForOrder(d, db, buyer, orderId, item, returnable, variant, score).value;
            var due := d'.requests[|d.requests|].balanceDue;
            Blocked(d', |d.requests|) <==> due > 0.0 && Round(due * 100.0) < 100
  {
  }

  /** For example, a product that went from 10 rupees to 10 rupees 50. */
  lemma HalfRupeeIsBlocked()
    ensures var line := Shop.Line("p", 1, 10.0, None, None);
            var order := Shop.Order("b", Some("t"), None, Shop.DELIVERED, 10.0, [line],
                                    0.0, None, None, None, Some(0), None, None);
            var db := Shop.Tables(map["p" := Shop.Product("s", 10.5, 1, None)], [order]);
            var d := CreateForOrder(Desk([], Store(map[], map[]), {}, 0), db, Some("b"), 0, 0, true, None, 5.0);
            d.Ok? && Blocked(d.value, 0)
  {
  }

  /** A paid balance settles the request once and for all; verifying again changes nothing. */
  lemma VerifyAgainIsIdempotent(d: Desk, buyers: map<UserId, Shop.BuyerId>, u: UserId, id: nat, rz: RzId,
                                pay: string, signed: bool)
    requires VerifyBalancePayment(d, buyers, u, id, rz, pay, signed).1.Ok?
    ensures var d' := VerifyBalancePayment(d, buyers, u, id, rz, pay, signed).0;
            VerifyBalancePayment(d', buyers, u, id, rz, pay, signed) == (d', Ok(d'.requests[id].status))
            && d'.requests[id].balance == PAID
  {
  }
}
