/**
 The payments service working in place: sessions in the key store, failure rows and
 orders written one after the other. The methods are tied to the steps of `Payments`.
 */
module PaymentsService {
  import opened Base
  import opened Shop
  import opened Redis
  import C = Carts
  import opened Checkout
  import opened Payments
  import O = OrdersService

  class PaymentsService {
    const orders: O.OrdersService
    const sessions: RedisService<RzId, Pending, int, int>
    var failures: map<PaymentId, FailureRow>
    /** What was sent to the payment provider, and what it has given out. */
    var refunds: seq<(PaymentId, int)>
    var issued: set<RzId>

    constructor (orders: O.OrdersService, sessions: RedisService<RzId, Pending, int, int>)
      ensures this.orders == orders && this.sessions == sessions
      ensures failures == map[] && refunds == [] && issued == {}
    {
      this.orders, this.sessions := orders, sessions;
      failures, refunds, issued := map[], [], {};
    }

    /** The order tables are healthy, and the payment invariant holds: see `Payments`. */
    ghost predicate Valid()
      reads this, orders, orders.carts, orders.carts.redis, sessions
    {
      orders.Valid() && Inv(View())
    }

    ghost function View(): Ledger
      reads this, orders, orders.carts, orders.carts.redis, sessions
    {
      Ledger(orders.View(), sessions.View(), failures, refunds, issued)
    }

    method OpenPayment(u: C.UserId, now: int, addressId: string, address: Option<string>, quote: Quote, rz: RzId)
      returns (r: Result<int, PaymentError>)
      requires sessions as object != orders.carts.redis && Valid()
      modifies this`issued, sessions, orders.carts.redis
      ensures (View(), r) == CreateRazorpayOrder(old(View()), u, now, addressId, address, quote, rz)
      ensures rz !in old(issued) && rz != "" ==> Valid()
    {
      hide PrepareCheckout, Inv;
      if rz !in issued && rz != "" {
        InvStep(View(), Opens(u, now, addressId, address, quote, rz));
      }
      var prep := orders.PrepareForPayment(u, now, address, quote);
      if prep.Err? {
        return Err(PrepareRefused(prep.error));
      }
      var p := prep.value;
      var amountPaise := AmountPaise(p.total);
      if amountPaise < 100 {
        return Err(BelowMinimum);
      }
      issued := issued + {rz};
      sessions.Set(rz, Pending(u, addressId, p.address, amountPaise, p.subtotal, p.deliveryFee, p.provider, p.streamId),
                   Some(PENDING_TTL_SECONDS), now);
      r := Ok(amountPaise);
    }

    /** The order with this payment id, by a scan of the table. */
    method FindOrder(pay: PaymentId) returns (k: nat)
      ensures k == OrderOfPayment(orders.orders, pay)
    {
      k := 0;
      while k < |orders.orders| && orders.orders[k].rzPaymentId != Some(pay)
        invariant k <= |orders.orders|
        invariant forall j :: 0 <= j < k ==> orders.orders[j].rzPaymentId != Some(pay)
      {
        k := k + 1;
      }
      FirstOrderOfPayment(orders.orders, pay, k);
    }

    method VerifyPayment(v: Verify) returns (r: Result<nat, PaymentError>)
      requires sessions as object != orders.carts.redis && Valid()
      modifies this`failures, this`refunds, sessions, orders`products, orders`orders, orders.carts.redis
      ensures (View(), r) == VerifyAndCheckout(old(View()), v)
      ensures orders.Valid() && (v.recorded && (v.signed ==> v.pay != "") ==> Valid())
    {
      hide CheckoutFromCart, Inv;
      if v.recorded && (v.signed ==> v.pay != "") {
        InvStep(View(), Verifies(v));
      }
      if !v.signed {
        return Err(InvalidSignature);
      }
      var existing := FindOrder(v.pay);
      if existing < |orders.orders| {
        return Ok(existing);
      }
      if v.pay in failures {
        return Err(if failures[v.pay].refund.REFUNDED? then AlreadyRefunded else ContactSupport);
      }
      var raw := sessions.Get(v.rz, v.now);
      if raw.None? {
        return Err(SessionExpired);
      }
      var pending := raw.value;
      if pending.user != v.u {
        return Err(NotThisAccount);
      }
      if pending.addressId == "" || pending.shippingAddress == "" {
        return Err(MissingAddress);
      }
      var placed := orders.CheckoutCart(v.u, v.now, v.address, PaymentOf(v.rz, v.pay, pending));
      if placed.Ok? {
        sessions.Del(v.rz);
        return Ok(placed.value);
      }
      refunds := refunds + [(v.pay, pending.amountPaise)];
      if v.recorded {
        failures := failures[v.pay := FailureRow(v.u, v.rz, pending.amountPaise, placed.error,
                                                 if v.refunded then REFUNDED else REFUND_FAILED)];
      }
      r := Err(if v.refunded then RefundStarted else RefundPending);
    }
  }

  lemma {:induction false} FirstOrderOfPayment(orders: seq<Order>, pay: PaymentId, k: nat)
    requires k <= |orders| && forall j :: 0 <= j < k ==> orders[j].rzPaymentId != Some(pay)
    requires k < |orders| ==> orders[k].rzPaymentId == Some(pay)
    ensures OrderOfPayment(orders, pay) == k
  {
  }
}
