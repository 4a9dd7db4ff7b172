/**
 The replacements service, and the balance payment steps of the payments service,
 updating request rows and balance sessions in place. The methods are tied to the
 steps of `Replacements`.
 */
module ReplacementsService {
  import opened Base
  import opened Money
  import Shop
  import opened Redis
  import opened Replacements

  class ReplacementsService {
    const sessions: RedisService<RzId, BalanceSession, int, int>
    var requests: seq<Replacement>
    var issued: set<RzId>

    constructor (sessions: RedisService<RzId, BalanceSession, int, int>)
      ensures this.sessions == sessions && requests == [] && issued == {}
      ensures sessions.View() == Store(map[], map[]) ==> forall now :: Valid(now)
    {
      this.sessions := sessions;
      requests, issued := [], {};
    }

    /** The invariant of `Replacements`; it does not depend on the clock. */
    ghost predicate Valid(now: int)
      reads this, sessions
    {
      Inv(View(now))
    }

    ghost function View(now: int): Desk
      reads this, sessions
    {
      Desk(requests, sessions.View(), issued, now)
    }

    /** Is there a request for the order that was not rejected? */
    method FindOpen(orderId: nat) returns (found: bool)
      ensures found <==> Open(View(0), orderId)
    {
      for k := 0 to |requests|
        invariant forall i :: 0 <= i < k ==> !(requests[i].orderId == orderId && requests[i].status != REJECTED)
      {
        if requests[k].orderId == orderId && requests[k].status != REJECTED {
          return true;
        }
      }
      found := false;
    }

    method Create(db: Shop.Tables, buyer: Option<Shop.BuyerId>, orderId: nat, item: nat, returnable: bool,
                  variant: Option<string>, score: real, now: int) returns (r: Result<nat, RError>)
      requires Valid(now)
      modifies this`requests
      ensures var spec := CreateForOrder(old(View(now)), db, buyer, orderId, item, returnable, variant, score);
              if spec.Ok? then r == Ok(|old(requests)|) && View(now) == spec.value
              else r == Err(spec.error) && View(now) == old(View(now))
      ensures Valid(now)
    {
      InvStep(View(now), Created(db, buyer, orderId, item, returnable, variant, score));
      if buyer.None? {
        return Err(NotFound);
      }
      if orderId >= |db.orders| || db.orders[orderId].buyer != buyer.value {
        return Err(NotFound);
      }
      var o := db.orders[orderId];
      if o.status != Shop.DELIVERED {
        return Err(NotDelivered);
      }
      if o.deliveredAt.None? {
        return Err(NoDeliveryDate);
      }
      if now > o.deliveredAt.value + SUBMIT_DAYS * DAY {
        return Err(TooLate);
      }
      var existing := FindOpen(orderId);
      assert existing <==> Open(View(now), orderId);
      if existing {
        return Err(AlreadyRequested);
      }
      if item >= |o.lines| || o.lines[item].product !in db.products {
        return Err(NoSuchLine);
      }
      if !returnable {
        return Err(NotReplaceable);
      }
      var product := db.products[o.lines[item].product];
      var line := o.lines[item];
      var pricing := ComputePricing(line, product, variant);
      if pricing.Err? {
        return Err(pricing.error);
      }
      var p := pricing.value;
      var status, balance := PENDING_ADMIN_REVIEW, NONE;
      if score >= AUTO_APPROVE_MIN_SCORE {
        if p.balanceDue > 0.0 {
          status, balance := AWAITING_PAYMENT, PENDING;
        } else {
          status, balance := APPROVED, NONE;
        }
      }
      r := Ok(|requests|);
      requests := requests + [Replacement(orderId, item, buyer.value, product.seller, status,
                                          if variant.Some? then variant else line.variantId,
                                          if p.title.Some? then p.title else line.title,
                                          p.original, p.replacement, p.balanceDue, balance,
                                          None, None, None, None, None)];
    }

    method DecideRequest(id: nat, approved: bool, now: int) returns (r: Result<(), RError>)
      requires Valid(now)
      modifies this`requests
      ensures Outcome(Decide(old(View(now)), id, approved), old(View(now)), View(now), r)
      ensures Valid(now)
    {
      InvStep(View(now), Decided(id, approved));
      if id >= |requests| {
        return Err(NotFound);
      }
      var req := requests[id];
      if req.status != PENDING_ADMIN_REVIEW {
        return Err(NotPending);
      }
      if !approved {
        requests := requests[id := req.(status := REJECTED)];
      } else if req.balanceDue > 0.0 {
        requests := requests[id := req.(status := AWAITING_PAYMENT, balance := PENDING)];
      } else {
        requests := requests[id := req.(status := APPROVED, balance := NONE)];
      }
      r := Ok(());
    }

    method OpenBalance(buyers: map<UserId, Shop.BuyerId>, u: UserId, id: nat, rz: RzId, now: int)
      returns (r: Result<RzId, RError>)
      requires Valid(now)
      modifies this`requests, this`issued, sessions
      ensures (View(now), r) == CreateBalanceOrder(old(View(now)), buyers, u, id, rz)
      ensures rz !in old(issued) && rz != "" ==> Valid(now)
    {
      hide Inv;
      if rz !in issued && rz != "" {
        InvStep(View(now), BalanceOpened(buyers, u, id, rz));
      }
      hide Round;
      if u !in buyers {
        return Err(Forbidden);
      }
      if id >= |requests| || requests[id].buyer != buyers[u] {
        return Err(NotFound);
      }
      var req := requests[id];
      if req.status != AWAITING_PAYMENT || req.balanceDue <= 0.0 {
        return Err(NoBalanceDue);
      }
      if req.balance == PAID {
        return Err(AlreadyPaid);
      }
      if Given(req.rzOrderId) {
        return Ok(req.rzOrderId.value);
      }
      var amountPaise := Round(req.balanceDue * 100.0);
      if amountPaise < 100 {
        return Err(BelowMinimum);
      }
      var taken := exists j :: 0 <= j < |requests| && j != id && requests[j].rzOrderId == Some(rz);
      if taken {
        return Err(IdInUse);
      }
      issued := issued + {rz};
      requests := requests[id := req.(rzOrderId := Some(rz))];
      sessions.Set(rz, BalanceSession(u, id, amountPaise), Some(PENDING_TTL_SECONDS), now);
      r := Ok(rz);
    }

    method VerifyBalance(buyers: map<UserId, Shop.BuyerId>, u: UserId, id: nat, rz: RzId, pay: string,
                         signed: bool, now: int)
      returns (r: Result<RStatus, RError>)
      requires Valid(now)
      modifies this`requests, sessions
      ensures (View(now), r) == VerifyBalancePayment(old(View(now)), buyers, u, id, rz, pay, signed)
      ensures Valid(now)
    {
      InvStep(View(now), BalanceVerified(buyers, u, id, rz, pay, signed));
      if !signed {
        return Err(InvalidSignature);
      }
      if u !in buyers {
        return Err(Forbidden);
      }
      if id >= |requests| || requests[id].buyer != buyers[u] || requests[id].rzOrderId != Some(rz) {
        return Err(PaymentNotFound);
      }
      var req := requests[id];
      if req.balance == PAID {
        return Ok(req.status);
      }
      var raw := sessions.Get(rz, now);
      if raw.None? {
        return Err(SessionExpired);
      }
      if raw.value.user != u || raw.value.replacement != id {
        return Err(Forbidden);
      }
      var taken := exists j :: 0 <= j < |requests| && j != id && requests[j].rzPaymentId == Some(pay);
      if taken {
        return Err(IdInUse);
      }
      requests := requests[id := req.(status := APPROVED, balance := PAID, rzPaymentId := Some(pay))];
      sessions.Del(rz);
      r := Ok(APPROVED);
    }

    method MarkPaid(id: nat, pay: string, now: int) returns (r: Result<(), RError>)
      requires Valid(now)
      modifies this`requests
      ensures Outcome(MarkBalancePaid(old(View(now)), id, pay), old(View(now)), View(now), r)
      ensures Valid(now)
    {
      InvStep(View(now), MarkedPaid(id, pay));
      if id >= |requests| {
        return Err(NotFound);
      }
      if requests[id].status == AWAITING_PAYMENT {
        var taken := exists j :: 0 <= j < |requests| && j != id && requests[j].rzPaymentId == Some(pay);
        if taken {
          return Err(IdInUse);
        }
        requests := requests[id := requests[id].(status := APPROVED, balance := PAID, rzPaymentId := Some(pay))];
      }
      r := Ok(());
    }

    method RecordPackingVideo(id: nat, seller: Option<Shop.SellerId>, video: Option<string>, now: int)
      returns (r: Result<(), RError>)
      requires Valid(now)
      modifies this`requests
      ensures Outcome(UploadPackingVideo(old(View(now)), id, seller, video), old(View(now)), View(now), r)
      ensures Valid(now)
    {
      InvStep(View(now), Packed(id, seller, video));
      if !Given(video) {
        return Err(NoVideo);
      }
      if seller.None? {
        return Err(Forbidden);
      }
      if id >= |requests| || requests[id].seller != seller.value {
        return Err(NotFound);
      }
      var req := requests[id];
      if req.status != APPROVED {
        return Err(NotApproved);
      }
      var failure := AssertSellerCanFulfill(req);
      if failure.Some? {
        return Err(failure.value);
      }
      requests := requests[id := req.(packingVideo := video, status := PACKED)];
      r := Ok(());
    }

    method RequestDeliveryFromPartner(id: nat, seller: Option<Shop.SellerId>, waybill: Option<string>, now: int)
      returns (r: Result<(), RError>)
      requires Valid(now)
      modifies this`requests
      ensures Outcome(RequestDelivery(old(View(now)), id, seller, waybill), old(View(now)), View(now), r)
      ensures Valid(now)
    {
      InvStep(View(now), DeliveryRequested(id, seller, waybill));
      if seller.None? {
        return Err(Forbidden);
      }
      if id >= |requests| || requests[id].seller != seller.value {
        return Err(NotFound);
      }
      var req := requests[id];
      if req.status != PACKED {
        return Err(NotPacked);
      }
      var failure := AssertSellerCanFulfill(req);
      if failure.Some? {
        return Err(failure.value);
      }
      if !Given(waybill) {
        return Err(NoWaybill);
      }
      requests := requests[id := req.(status := SHIPPED, trackingId := waybill, provider := Some("DELHIVERY"))];
      r := Ok(());
    }

    method GetDeliveryStatus(id: nat, seller: Option<Shop.SellerId>, delivered: bool, now: int)
      returns (r: Result<(), RError>)
      requires Valid(now)
      modifies this`requests
      ensures Outcome(PollDelivery(old(View(now)), id, seller, delivered), old(View(now)), View(now), r)
      ensures Valid(now)
    {
      InvStep(View(now), Polled(id, seller, delivered));
      if seller.None? {
        return Err(Forbidden);
      }
      if id >= |requests| || requests[id].seller != seller.value {
        return Err(NotFound);
      }
      var req := requests[id];
      if req.provider == Some("DELHIVERY") && Given(req.trackingId) && delivered {
        requests := requests[id := req.(status := DELIVERED)];
      }
      r := Ok(());
    }

    method DeliverByHand(id: nat, seller: Option<Shop.SellerId>, now: int) returns (r: Result<(), RError>)
      requires Valid(now)
      modifies this`requests
      ensures Outcome(Deliver(old(View(now)), id, seller), old(View(now)), View(now), r)
      ensures Valid(now)
    {
      InvStep(View(now), DeliveredByHand(id, seller));
      if seller.None? || id >= |requests| || requests[id].seller != seller.value || requests[id].status != SHIPPED {
        return Err(NotFound);
      }
      requests := requests[id := requests[id].(status := DELIVERED)];
      r := Ok(());
    }
  }

  ghost predicate Outcome(spec: Result<Desk, RError>, before: Desk, after: Desk, r: Result<(), RError>) {
    match spec
    case Ok(d) => r.Ok? && after == d
    case Err(e) => r == Err(e) && after == before
  }
}
