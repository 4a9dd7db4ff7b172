/**
 The Razorpay protocol as steps on the shop, the payment sessions and the failure
 records: opening a payment, and verifying one, possibly many times over. What the
 provider, its signature and a refund answer are inputs; `refunds` logs the refund
 calls sent and `issued` the order ids the provider has given out.
 */
module Payments {
  import opened Base
  import opened Streams
  import opened Shop
  import opened Redis
  import opened Carts
  import opened Checkout
  import OrderRuns

  type RzId = string
  type PaymentId = string

  const PENDING_TTL_SECONDS: nat := 1800

  datatype Pending = Pending(
    user: UserId, addressId: string, shippingAddress: string, amountPaise: int,
    subtotal: real, deliveryFee: real, provider: Option<string>, streamId: StreamId)

  datatype RefundStatus = REFUNDED | REFUND_FAILED

  datatype FailureRow = FailureRow(user: UserId, rzOrderId: RzId, amountPaise: int, reason: CheckoutError,
    refund: RefundStatus)

  type Sessions = Store<RzId, Pending, int, int>

  datatype Ledger = Ledger(
    w: World, sessions: Sessions, failures: map<PaymentId, FailureRow>,
    refunds: seq<(PaymentId, int)>, issued: set<RzId>)

  datatype PaymentError =
    | PrepareRefused(why: CheckoutError)
    | BelowMinimum | InvalidSignature | AlreadyRefunded | ContactSupport
    | SessionExpired | NotThisAccount | MissingAddress
    | RefundStarted | RefundPending

  // ---------- the steps ----------

  /** `rz` is the id the provider gives the new payment. */
  function CreateRazorpayOrder(l: Ledger, u: UserId, now: int, addressId: string, address: Option<string>,
                               quote: Quote, rz: RzId):
    (Ledger, Result<int, PaymentError>)
  {
    var (c, r) := PrepareCheckout(l.w, u, now, address, quote);
    var l1 := l.(w := l.w.(cache := c));
    if r.Err? then (l1, Err(PrepareRefused(r.error)))
    else
      var prep := r.value;
      var amountPaise := AmountPaise(prep.total);
      if amountPaise < 100 then (l1, Err(BelowMinimum))
      else
        var pending := Pending(u, addressId, prep.address, amountPaise,
                               prep.subtotal, prep.deliveryFee, prep.provider, prep.streamId);
        (l1.(sessions := l1.sessions.Put(rz, pending, Some(PENDING_TTL_SECONDS), now), issued := l1.issued + {rz}),
         Ok(amountPaise))
  }

  /** The order already placed for a payment, if any. */
  function OrderOfPayment(orders: seq<Order>, pay: PaymentId): (k: nat)
    ensures k <= |orders|
    ensures k < |orders| ==> orders[k].rzPaymentId == Some(pay)
    ensures forall j :: 0 <= j < k ==> orders[j].rzPaymentId != Some(pay)
  {
    if orders == [] then 0
    else if orders[0].rzPaymentId == Some(pay) then 0
    else 1 + OrderOfPayment(orders[1..], pay)
  }

  function PaymentOf(rz: RzId, pay: PaymentId, pending: Pending): Payment {
    Payment(pending.deliveryFee, pending.provider, true, Some(rz), Some(pay))
  }

  /**
   The buyer's address on file now, `refunded` the refund call's answer, `recorded` whether
   the failure row was written.
   */
  datatype Verify = Verify(
    u: UserId, rz: RzId, pay: PaymentId, signed: bool, now: int, address: Option<string>, refunded: bool,
    recorded: bool)

  /** The session a verify call may act on, or the answer it gives without one. */
  function Session(l: Ledger, v: Verify): Result<Pending, Result<nat, PaymentError>> {
    if !v.signed then Err(Err(InvalidSignature))
    else
      var k := OrderOfPayment(l.w.db.orders, v.pay);
      if k < |l.w.db.orders| then Err(Ok(k))
      else if v.pay in l.failures then
        Err(Err(if l.failures[v.pay].refund.REFUNDED? then AlreadyRefunded else ContactSupport))
      else
        var s := l.sessions.Get(v.rz, v.now);
        if s.None? then Err(Err(SessionExpired))
        else if s.value.user != v.u then Err(Err(NotThisAccount))
        else if s.value.addressId == "" || s.value.shippingAddress == "" then Err(Err(MissingAddress))
        else Ok(s.value)
  }

  /** What follows the session checks: an order, or a refund and a failure row. */
  function Settle(l: Ledger, v: Verify, pending: Pending): (Ledger, Result<nat, PaymentError>) {
    var (w', r) := CheckoutFromCart(l.w, v.u, v.now, v.address, PaymentOf(v.rz, v.pay, pending));
    if r.Ok? then (l.(w := w', sessions := l.sessions.Del(v.rz)), Ok(r.value))
    else
      var status := if v.refunded then REFUNDED else REFUND_FAILED;
      var row := FailureRow(v.u, v.rz, pending.amountPaise, r.error, status);
      (l.(w := w', refunds := l.refunds + [(v.pay, pending.amountPaise)],
          failures := if v.recorded && v.pay !in l.failures then l.failures[v.pay := row] else l.failures),
       Err(if v.refunded then RefundStarted else RefundPending))
  }

  function VerifyAndCheckout(l: Ledger, v: Verify): (Ledger, Result<nat, PaymentError>) {
    var s := Session(l, v);
    if s.Err? then (l, s.error) else Settle(l, v, s.value)
  }

  // ---------- runs ----------

  datatype Event =
    | Opens(u: UserId, now: int, addressId: string, address: Option<string>, quote: Quote, rz: RzId)
    | Verifies(v: Verify)
    | Elsewhere(w: World)

  function Step(l: Ledger, e: Event): Ledger {
    match e
    case Opens(u, now, addressId, address, quote, rz) => CreateRazorpayOrder(l, u, now, addressId, address, quote, rz).0
    case Verifies(v) => VerifyAndCheckout(l, v).0
    case Elsewhere(w) => l.(w := w)
  }

  function Run(l: Ledger, es: seq<Event>): Ledger {
    if es == [] then l else Step(Run(l, es[..|es| - 1]), es[|es| - 1])
  }

  /** Whatever else the shop does: orders stay, keep their payment ids, and new ones have none. */
  ghost predicate KeepsPayments(a: seq<Order>, b: seq<Order>) {
    && |a| <= |b|
    && (forall i :: 0 <= i < |a| ==> b[i].rzOrderId == a[i].rzOrderId && b[i].rzPaymentId == a[i].rzPaymentId)
    && (forall i :: |a| <= i < |b| ==> b[i].rzOrderId == None && b[i].rzPaymentId == None)
  }

  /** The provider never reuses or leaves empty an id; failure rows are written. */
  ghost predicate Allowed(l: Ledger, e: Event) {
    match e
    case Opens(_, _, _, _, _, rz) => rz !in l.issued && rz != ""
    case Verifies(v) => v.recorded && (v.signed ==> v.pay != "")
    case Elsewhere(w) => KeepsPayments(l.w.db.orders, w.db.orders)
  }

  ghost predicate AllowedRun(l: Ledger, es: seq<Event>) {
    es == [] || (AllowedRun(l, es[..|es| - 1]) && Allowed(Run(l, es[..|es| - 1]), es[|es| - 1]))
  }

  // ---------- exactly once ----------

  /** A refund call has its failure row, with the same amount. */
  predicate Recorded(failures: map<PaymentId, FailureRow>, refund: (PaymentId, int)) {
    refund.0 in failures && refund.1 == failures[refund.0].amountPaise
  }

  ghost predicate Inv(l: Ledger) {
    var orders := l.w.db.orders;
    && (forall i, j :: 0 <= i < j < |orders| && orders[i].rzPaymentId.Some? ==>
          orders[i].rzPaymentId != orders[j].rzPaymentId)
    && (forall i, j :: 0 <= i < j < |orders| && orders[i].rzOrderId.Some? ==>
          orders[i].rzOrderId != orders[j].rzOrderId)
    && (forall i :: 0 <= i < |orders| && orders[i].rzOrderId.Some? ==> orders[i].rzOrderId.value in l.issued)
    && (forall rz :: rz in l.sessions.entries ==> rz in l.issued && rz != "")
    && (forall rz, i :: rz in l.sessions.entries && 0 <= i < |orders| ==> orders[i].rzOrderId != Some(rz))
    && (forall pay, i :: pay in l.failures && 0 <= i < |orders| ==> orders[i].rzPaymentId != Some(pay))
    && RefundsOk(l.failures, l.refunds)
  }

  /** A ledger without orders, sessions, failures and refunds starts a run. */
  lemma EmptyInv(w: World)
    requires w.db.orders == []
    ensures Inv(Ledger(w, Store(map[], map[]), map[], [], {}))
  {
  }

  /** Refund calls and failure rows belong together one to one. */
  ghost predicate RefundsOk(failures: map<PaymentId, FailureRow>, refunds: seq<(PaymentId, int)>) {
    && (forall k :: 0 <= k < |refunds| ==> Recorded(failures, refunds[k]))
    && (forall j, k :: 0 <= j < k < |refunds| ==> refunds[j].0 != refunds[k].0)
    && (forall pay :: pay in failures ==> exists k :: 0 <= k < |refunds| && refunds[k].0 == pay)
  }

  /** Settling places one order with both ids, which were free, or leaves at most an unpaid one. */
  lemma CheckedOutOrder(l: Ledger, v: Verify, pending: Pending)
    ensures var (w', r) := CheckoutFromCart(l.w, v.u, v.now, v.address, PaymentOf(v.rz, v.pay, pending));
            var n := |l.w.db.orders|;
            if r.Ok? then
              && |w'.db.orders| == n + 1 && w'.db.orders[..n] == l.w.db.orders && r.value == n
              && w'.db.orders[n].status == PAID
              && (v.rz != "" ==> w'.db.orders[n].rzOrderId == Some(v.rz))
              && (v.pay != "" ==> w'.db.orders[n].rzPaymentId == Some(v.pay))
              && !IdsTaken(l.w.db.orders, n, PaymentOf(v.rz, v.pay, pending))
            else if r.error.IdsInUse? then
              LeftUnpaid(l.w.db, w'.db) && IdsTaken(l.w.db.orders, n, PaymentOf(v.rz, v.pay, pending))
            else w'.db == l.w.db
  {
    var payment := PaymentOf(v.rz, v.pay, pending);
    var (w', r) := CheckoutFromCart(l.w, v.u, v.now, v.address, payment);
    if r.Ok? {
      CheckoutLosesNothing(l.w, v.u, v.now, v.address, payment);
      CheckoutPays(l.w, v.u, v.now, v.address, payment);
    } else {
      FailedCheckoutLeaves(l.w, v.u, v.now, v.address, payment);
      LeavesUnpaidExactly(l.w, v.u, v.now, v.address, payment);
    }
  }

  /** While nothing overlaps, the ids of a session that may be acted on are free. */
  lemma SessionIdsFree(l: Ledger, v: Verify)
    requires Inv(l) && Session(l, v).Ok?
    ensures !IdsTaken(l.w.db.orders, |l.w.db.orders|, PaymentOf(v.rz, v.pay, Session(l, v).value))
  {
  }

  lemma CheckoutPays(w: World, u: UserId, now: int, address: Option<string>, payment: Payment)
    requires CheckoutFromCart(w, u, now, address, payment).1.Ok? && payment.markPaid
    ensures var (w', r) := CheckoutFromCart(w, u, now, address, payment);
            && r.value == |w.db.orders| && |w'.db.orders| == |w.db.orders| + 1
            && !IdsTaken(w.db.orders, |w.db.orders|, payment)
            && (Given(payment.rzOrderId) ==> w'.db.orders[r.value].rzOrderId == payment.rzOrderId)
            && (Given(payment.rzPaymentId) ==> w'.db.orders[r.value].rzPaymentId == payment.rzPaymentId)
  {
    CheckoutLosesNothing(w, u, now, address, payment);
    var c1 := ValidateCartForCheckout(w, u, now).0;
    var cart := GetCart(c1, w.streams, u, now).1;
    var priced := PriceAll(w.db.products, cart.items);
    var buyer := if u in w.buyers then Some(w.buyers[u]) else None;
    var t := Prepare(w.db.products, w.streams, now, buyer, OrderDto(Requests(priced), cart.streamId, address)).value;
    CommitPaidShape(w.db, t, payment);
  }

  lemma CreateKeepsOrders(l: Ledger, e: Event)
    requires e.Opens?
    ensures var l' := Step(l, e);
            && l'.w.db == l.w.db && l'.failures == l.failures && l'.refunds == l.refunds
            && ((l'.sessions == l.sessions && l'.issued == l.issued)
                || (l'.sessions.entries.Keys == l.sessions.entries.Keys + {e.rz} && l'.issued == l.issued + {e.rz}))
  {
    hide PrepareCheckout;
  }

  lemma InvStep(l: Ledger, e: Event)
    requires Inv(l) && Allowed(l, e)
    ensures Inv(Step(l, e))
  {
    match e
    case Opens(_, _, _, _, _, _) => CreateKeepsOrders(l, e);
    case Elsewhere(w) =>
    case Verifies(v) => VerifyKeepsInv(l, v);
  }

  lemma VerifyKeepsInv(l: Ledger, v: Verify)
    requires Inv(l) && v.recorded && (v.signed ==> v.pay != "")
    ensures Inv(VerifyAndCheckout(l, v).0)
  {
    if Session(l, v).Ok? {
      CheckedOutOrder(l, v, Session(l, v).value);
      SessionIdsFree(l, v);
      hide CheckoutFromCart;
      var (l', r) := VerifyAndCheckout(l, v);
      if r.Ok? {
        PlacedKeepsInv(l, l', v);
      } else {
        var row := l'.failures[v.pay];
        FailedKeepsInv(l, l', v.pay, row);
      }
    }
  }

  lemma PlacedKeepsInv(l: Ledger, l': Ledger, v: Verify)
    requires Inv(l) && v.pay != "" && v.rz in l.sessions.entries && v.pay !in l.failures
    requires forall i :: 0 <= i < |l.w.db.orders| ==> l.w.db.orders[i].rzPaymentId != Some(v.pay)
    requires var n := |l.w.db.orders|;
             && |l'.w.db.orders| == n + 1 && l'.w.db.orders[..n] == l.w.db.orders
             && l'.w.db.orders[n].rzOrderId == Some(v.rz) && l'.w.db.orders[n].rzPaymentId == Some(v.pay)
    requires l' == l.(w := l'.w, sessions := l.sessions.Del(v.rz))
    ensures Inv(l')
  {
    var a, b := l.w.db.orders, l'.w.db.orders;
    assert forall i :: 0 <= i < |a| ==> b[i] == b[..|a|][i] == a[i];
  }

  lemma FailedKeepsInv(l: Ledger, l': Ledger, pay: PaymentId, row: FailureRow)
    requires Inv(l) && pay !in l.failures
    requires forall i :: 0 <= i < |l.w.db.orders| ==> l.w.db.orders[i].rzPaymentId != Some(pay)
    requires l'.w.db == l.w.db
             && l' == l.(w := l'.w, refunds := l.refunds + [(pay, row.amountPaise)], failures := l.failures[pay := row])
    ensures Inv(l')
  {
    RefundAdded(l.failures, l.refunds, pay, row);
    hide RefundsOk;
  }

  lemma RefundAdded(failures: map<PaymentId, FailureRow>, refunds: seq<(PaymentId, int)>, pay: PaymentId,
                    row: FailureRow)
    requires RefundsOk(failures, refunds) && pay !in failures
    ensures RefundsOk(failures[pay := row], refunds + [(pay, row.amountPaise)])
  {
    var failures', refunds' := failures[pay := row], refunds + [(pay, row.amountPaise)];
    forall p | p in failures'
      ensures exists k :: 0 <= k < |refunds'| && refunds'[k].0 == p
    {
      if p == pay {
        assert refunds'[|refunds|].0 == p;
      } else {
        var k :| 0 <= k < |refunds| && refunds[k].0 == p;
        assert refunds'[k].0 == p;
      }
    }
    forall k | 0 <= k < |refunds|
      ensures Recorded(failures', refunds'[k]) && refunds'[k].0 != pay
    {
      assert Recorded(failures, refunds[k]);
    }
  }

  lemma {:induction false} InvRun(l: Ledger, es: seq<Event>)
    requires Inv(l) && AllowedRun(l, es)
    ensures Inv(Run(l, es))
  {
    if es != [] {
      InvRun(l, es[..|es| - 1]);
      InvStep(Run(l, es[..|es| - 1]), es[|es| - 1]);
    }
  }

  /**
   Exactly once, over every run with any retries: a payment has at most one order,
   never both an order and a failure; a Razorpay order id leads to at most one order;
   at most one refund call is sent per payment, none for a payment with an order.
   */
  lemma ExactlyOnce(l: Ledger, es: seq<Event>, pay: PaymentId, rz: RzId)
    requires Inv(l) && AllowedRun(l, es)
    ensures var l' := Run(l, es); OnceFor(l', pay) && OneOrderFor(l'.w.db.orders, rz)
  {
    hide Run, AllowedRun;
    InvRun(l, es);
    OnceInState(Run(l, es), pay, rz);
  }

  ghost predicate OneOrderFor(orders: seq<Order>, rz: RzId) {
    forall i, j :: 0 <= i < j < |orders| && orders[i].rzOrderId == Some(rz) ==> orders[j].rzOrderId != Some(rz)
  }

  ghost predicate OnceFor(l: Ledger, pay: PaymentId) {
    var orders := l.w.db.orders;
    && (forall i, j :: 0 <= i < j < |orders| && orders[i].rzPaymentId == Some(pay) ==>
          orders[j].rzPaymentId != Some(pay))
    && (forall i :: 0 <= i < |orders| && orders[i].rzPaymentId == Some(pay) ==> pay !in l.failures)
    && (forall j, k :: 0 <= j < k < |l.refunds| && l.refunds[j].0 == pay ==> l.refunds[k].0 != pay)
    && (forall k, i :: 0 <= k < |l.refunds| && l.refunds[k].0 == pay && 0 <= i < |orders| ==>
          orders[i].rzPaymentId != Some(pay))
  }

  lemma OnceInState(l: Ledger, pay: PaymentId, rz: RzId)
    requires Inv(l)
    ensures OnceFor(l, pay) && OneOrderFor(l.w.db.orders, rz)
  {
  }

  // ---------- every verified payment lands somewhere ----------

  predicate HasOrder(l: Ledger, pay: PaymentId) {
    OrderOfPayment(l.w.db.orders, pay) < |l.w.db.orders|
  }

  /**
   A payment past the session checks ends as exactly one of a paid order, a recorded
   refund, or a recorded failed refund, the refund being for the session's amount.
   */
  lemma LandsInOne(l: Ledger, v: Verify)
    requires Inv(l) && Session(l, v).Ok? && v.recorded && v.pay != ""
    ensures var (l', r) := VerifyAndCheckout(l, v);
            && (r.Ok? <==> HasOrder(l', v.pay)) && (r.Err? <==> v.pay in l'.failures)
            && (r.Ok? ==> r.value == OrderOfPayment(l'.w.db.orders, v.pay) && l'.w.db.orders[r.value].status == PAID
                          && l'.w.db.orders[r.value].rzOrderId == Some(v.rz) && l'.refunds == l.refunds)
            && (r.Err? ==> l'.refunds == l.refunds + [(v.pay, Session(l, v).value.amountPaise)]
                           && l'.failures[v.pay].refund == (if v.refunded then REFUNDED else REFUND_FAILED)
                           && l'.failures[v.pay].amountPaise == Session(l, v).value.amountPaise
                           && l'.failures[v.pay].user == v.u && l'.failures[v.pay].rzOrderId == v.rz
                           && r.error == (if v.refunded then RefundStarted else RefundPending)
                           && l'.w.db == l.w.db)
  {
    CheckedOutOrder(l, v, Session(l, v).value);
    SessionIdsFree(l, v);
    VerifyKeepsInv(l, v);
    hide CheckoutFromCart;
    var (l', r) := VerifyAndCheckout(l, v);
    if r.Ok? {
      var n := |l.w.db.orders|;
      assert l'.w.db.orders[n].rzPaymentId == Some(v.pay);
    } else {
      assert OrderOfPayment(l.w.db.orders, v.pay) == |l.w.db.orders|;
    }
  }

  /** Retrying a landed payment changes nothing and gives the same order, or no order. */
  lemma RetryIsIdempotent(l: Ledger, v: Verify)
    requires v.signed && (HasOrder(l, v.pay) || v.pay in l.failures)
    ensures VerifyAndCheckout(l, v).0 == l
    ensures HasOrder(l, v.pay) ==> VerifyAndCheckout(l, v).1 == Ok(OrderOfPayment(l.w.db.orders, v.pay))
    ensures !HasOrder(l, v.pay) ==>
              VerifyAndCheckout(l, v).1
              == Err(if l.failures[v.pay].refund == REFUNDED then AlreadyRefunded else ContactSupport)
  {
  }

  lemma {:induction false} OrderOfPaymentIs(orders: seq<Order>, pay: PaymentId, k: nat)
    requires k < |orders| && orders[k].rzPaymentId == Some(pay)
    requires forall j :: 0 <= j < k ==> orders[j].rzPaymentId != Some(pay)
    ensures OrderOfPayment(orders, pay) == k
  {
  }

  lemma StepKeepsIds(l: Ledger, e: Event)
    requires Inv(l) && Allowed(l, e)
    ensures var (a, b) := (l.w.db.orders, Step(l, e).w.db.orders);
            |a| <= |b| && forall j :: 0 <= j < |a| ==> b[j].rzPaymentId == a[j].rzPaymentId
    ensures forall pay :: pay in l.failures ==>
              pay in Step(l, e).failures && Step(l, e).failures[pay] == l.failures[pay]
  {
    match e {
      case Opens(_, _, _, _, _, _) => CreateKeepsOrders(l, e);
      case Elsewhere(w) =>
      case Verifies(v) =>
        if Session(l, v).Ok? {
          CheckedOutOrder(l, v, Session(l, v).value);
          SessionIdsFree(l, v);
          var a, b := l.w.db.orders, Step(l, e).w.db.orders;
          assert forall j :: 0 <= j < |a| ==> b[j] == b[..|a|][j];
        }
    }
  }

  /** Where a payment has landed it stays, through every later step. */
  lemma LandingIsFinal(l: Ledger, e: Event, pay: PaymentId)
    requires Inv(l) && Allowed(l, e)
    ensures HasOrder(l, pay) ==>
              var orders' := Step(l, e).w.db.orders;
              HasOrder(Step(l, e), pay) && OrderOfPayment(orders', pay) == OrderOfPayment(l.w.db.orders, pay)
    ensures pay in l.failures ==> pay in Step(l, e).failures && Step(l, e).failures[pay] == l.failures[pay]
  {
    hide Step, Inv, Allowed;
    StepKeepsIds(l, e);
    if HasOrder(l, pay) {
      OrderOfPaymentIs(Step(l, e).w.db.orders, pay, OrderOfPayment(l.w.db.orders, pay));
    }
  }

  /** The shop's other steps keep payments, as runs here assume. */
  lemma ShopStepsKeepPayments(w: OrderRuns.World, e: OrderRuns.Event)
    requires OrderRuns.Inv(w) && !MarksPaid(w, e)
    ensures KeepsPayments(w.db.orders, OrderRuns.Step(w, e).db.orders)
  {
    forall id | 0 <= id < |w.db.orders|
      ensures id < |OrderRuns.Step(w, e).db.orders|
      ensures OrderRuns.Step(w, e).db.orders[id].rzOrderId == w.db.orders[id].rzOrderId
      ensures OrderRuns.Step(w, e).db.orders[id].rzPaymentId == w.db.orders[id].rzPaymentId
    {
      OrderRuns.StepRows(w, e, id);
    }
    forall id | |w.db.orders| <= id < |OrderRuns.Step(w, e).db.orders|
      ensures OrderRuns.Step(w, e).db.orders[id].rzOrderId == None
      ensures OrderRuns.Step(w, e).db.orders[id].rzPaymentId == None
    {
      OrderRuns.NewRow(w, e, id);
    }
  }

  /** The paid mark of a checkout, which belongs to the payment steps. */
  predicate MarksPaid(w: OrderRuns.World, e: OrderRuns.Event) {
    OrderRuns.Lands(w, e) && w.pending[e.change].patch.ToSettled? && w.pending[e.change].patch.payment.markPaid
  }

  /** A failed checkout whose row is lost leaves only the refund call behind. */
  lemma FailedUnrecorded(l: Ledger, v: Verify)
    requires Session(l, v).Ok? && VerifyAndCheckout(l, v).1.Err? && !v.recorded
    ensures var l' := VerifyAndCheckout(l, v).0;
            l' == l.(w := l'.w, refunds := l.refunds + [(v.pay, Session(l, v).value.amountPaise)])
  {
  }

  lemma SameSession(l: Ledger, l1: Ledger, v: Verify, v2: Verify)
    requires Session(l, v).Ok? && v2.signed && v2.u == v.u && v2.rz == v.rz && v2.pay == v.pay
    requires l1.sessions == l.sessions && l1.failures == l.failures && l.sessions.Get(v.rz, v2.now).Some?
    requires OrderOfPayment(l1.w.db.orders, v.pay) == |l1.w.db.orders|
    ensures Session(l1, v2) == Session(l, v)
  {
  }

  lemma PlacedOrder(l: Ledger, v: Verify)
    requires Session(l, v).Ok? && v.pay != ""
    requires CheckoutFromCart(l.w, v.u, v.now, v.address, PaymentOf(v.rz, v.pay, Session(l, v).value)).1.Ok?
    ensures HasOrder(VerifyAndCheckout(l, v).0, v.pay) && VerifyAndCheckout(l, v).0.refunds == l.refunds
  {
    CheckedOutOrder(l, v, Session(l, v).value);
    hide CheckoutFromCart;
    assert VerifyAndCheckout(l, v).0.w.db.orders[|l.w.db.orders|].rzPaymentId == Some(v.pay);
  }

  lemma StillUnplaced(a: seq<Order>, b: seq<Order>, pay: PaymentId)
    requires KeepsPayments(a, b) && OrderOfPayment(a, pay) == |a|
    ensures OrderOfPayment(b, pay) == |b|
  {
  }

  /**
   The failure row is what makes a retry harmless: when it could not be written, a
   retry while the session lives, at any later time and after any other steps of the
   shop, places an order for the refunded payment as soon as the cart is valid again.
   */
  lemma LostRowAllowsBoth(l: Ledger, v: Verify, w2: World, v2: Verify)
    requires Session(l, v).Ok? && VerifyAndCheckout(l, v).1.Err? && v.refunded && !v.recorded && v.pay != ""
    requires KeepsPayments(l.w.db.orders, w2.db.orders)
    requires v2.u == v.u && v2.rz == v.rz && v2.pay == v.pay && v2.signed && l.sessions.Get(v.rz, v2.now).Some?
    requires CheckoutFromCart(w2, v.u, v2.now, v2.address, PaymentOf(v.rz, v.pay, Session(l, v).value)).1.Ok?
    ensures var l1 := Step(Step(l, Verifies(v)), Elsewhere(w2));
            var l2 := Step(l1, Verifies(v2));
            HasOrder(l2, v.pay) && exists k :: 0 <= k < |l2.refunds| && l2.refunds[k].0 == v.pay
  {
    var pending := Session(l, v).value;
    FailedUnrecorded(l, v);
    StillUnplaced(l.w.db.orders, w2.db.orders, v.pay);
    hide CheckoutFromCart, KeepsPayments, PaymentOf, VerifyAndCheckout, OrderOfPayment;
    var l1 := Step(Step(l, Verifies(v)), Elsewhere(w2));
    assert l1 == l.(w := w2, refunds := l.refunds + [(v.pay, pending.amountPaise)]);
    SameSession(l, l1, v, v2);
    hide Session, HasOrder;
    PlacedOrder(l1, v2);
    assert Step(l1, Verifies(v2)).refunds[|l.refunds|].0 == v.pay;
  }

  /**
   Exactly once also needs that two verifications of one payment do not overlap: one
   that passed its checks before another placed the order finds the cart empty, and
   refunds the payment of an order that stands.
   */
  lemma OverlappingVerifyRefundsOrder(l: Ledger, v: Verify)
    requires Session(l, v).Ok? && VerifyAndCheckout(l, v).1.Ok? && v.pay != ""
    ensures var pending := Session(l, v).value;
            var (l2, r) := Settle(VerifyAndCheckout(l, v).0, v, pending);
            && r.Err? && HasOrder(l2, v.pay) && l2.refunds == l.refunds + [(v.pay, pending.amountPaise)]
  {
    var pending := Session(l, v).value;
    var payment := PaymentOf(v.rz, v.pay, pending);
    CheckedOutOrder(l, v, pending);
    CheckoutLosesNothing(l.w, v.u, v.now, v.address, payment);
    var l1 := VerifyAndCheckout(l, v).0;
    assert LoadCartState(l1.w.cache, v.u, v.now) == EMPTY;
    NothingToCheckOut(l1.w, v.u, v.now, v.address, payment);
    hide CheckoutFromCart;
    var l2 := Settle(l1, v, pending).0;
    assert l2.w.db.orders[|l.w.db.orders|].rzPaymentId == Some(v.pay);
  }

  lemma NothingToCheckOut(w: World, u: UserId, now: int, address: Option<string>, payment: Payment)
    requires LoadCartState(w.cache, u, now).items == []
    ensures CheckoutFromCart(w, u, now, address, payment) == (w, Err(CartEmpty))
  {
  }

  // ---------- whose payment it is ----------

  /** The call is signed, the payment has no order and no failure row, and its session is the caller's. */
  ghost predicate Authorised(l: Ledger, v: Verify) {
    && v.signed
    && (forall i :: 0 <= i < |l.w.db.orders| ==> l.w.db.orders[i].rzPaymentId != Some(v.pay))
    && v.pay !in l.failures
    && v.rz in l.sessions.entries && Alive(l.sessions.entries[v.rz], v.now)
    && var s := l.sessions.entries[v.rz].value;
       s.user == v.u && s.addressId != "" && s.shippingAddress != ""
  }

  /** A verification changes the ledger exactly when it is authorised. */
  lemma ChangesExactly(l: Ledger, v: Verify)
    ensures VerifyAndCheckout(l, v).0 != l <==> Authorised(l, v)
  {
    SessionExactly(l, v);
    if Session(l, v).Ok? {
      CheckedOutOrder(l, v, Session(l, v).value);
      hide CheckoutFromCart;
      var l' := VerifyAndCheckout(l, v).0;
      assert |l'.w.db.orders| != |l.w.db.orders| || |l'.refunds| != |l.refunds|;
    }
  }

  lemma SessionExactly(l: Ledger, v: Verify)
    ensures Session(l, v).Ok? <==> Authorised(l, v)
    ensures Session(l, v).Ok? ==> Session(l, v).value == l.sessions.entries[v.rz].value
  {
    var orders := l.w.db.orders;
    var k := OrderOfPayment(orders, v.pay);
    if k < |orders| {
      assert orders[k].rzPaymentId == Some(v.pay);
    }
  }

  /** Who opened each payment. */
  type Openers = map<RzId, UserId>

  function OpenersAfter(who: Openers, l: Ledger, e: Event): Openers {
    match e
    case Opens(u, now, addressId, address, quote, rz) =>
      if CreateRazorpayOrder(l, u, now, addressId, address, quote, rz).1.Ok? then who[rz := u] else who
    case _ => who
  }

  function OpenersOver(who: Openers, l: Ledger, es: seq<Event>): Openers {
    if es == [] then who
    else OpenersAfter(OpenersOver(who, l, es[..|es| - 1]), Run(l, es[..|es| - 1]), es[|es| - 1])
  }

  /** Orders keep their buyer, and users the buyer they are, whatever else the shop does. */
  ghost predicate KeepsOwners(a: World, b: World) {
    && |a.db.orders| <= |b.db.orders|
    && (forall i :: 0 <= i < |a.db.orders| ==> b.db.orders[i].buyer == a.db.orders[i].buyer)
    && (forall u :: u in a.buyers ==> u in b.buyers && b.buyers[u] == a.buyers[u])
  }

  ghost predicate OwnersKept(l: Ledger, es: seq<Event>) {
    es == [] || (OwnersKept(l, es[..|es| - 1])
                 && (es[|es| - 1].Elsewhere? ==> KeepsOwners(Run(l, es[..|es| - 1]).w, es[|es| - 1].w)))
  }

  /** The buyer of an order with a Razorpay id is the buyer who opened it. */
  ghost predicate OwnOrder(o: Order, who: Openers, buyers: map<UserId, BuyerId>) {
    o.rzOrderId.Some? ==>
      o.rzOrderId.value in who && who[o.rzOrderId.value] in buyers && o.buyer == buyers[who[o.rzOrderId.value]]
  }

  ghost predicate SessionsOwned(l: Ledger, who: Openers) {
    && (forall rz :: rz in l.sessions.entries ==> rz in who && who[rz] == l.sessions.entries[rz].value.user)
    && (forall rz :: rz in who ==> rz in l.issued)
  }

  ghost predicate OrdersOwned(orders: seq<Order>, who: Openers, buyers: map<UserId, BuyerId>) {
    forall i :: 0 <= i < |orders| ==> OwnOrder(orders[i], who, buyers)
  }

  ghost predicate Owned(l: Ledger, who: Openers) {
    SessionsOwned(l, who) && OrdersOwned(l.w.db.orders, who, l.w.buyers)
  }

  /** The order carries the delivery fee and the carrier of the session. */
  ghost predicate Charged(o: Order, s: Pending) {
    if s.deliveryFee > 0.0 then o.deliveryFee == s.deliveryFee && o.provider == s.provider else o.deliveryFee == 0.0
  }

  /** A settled order belongs to the caller's buyer, and is charged as the session says. */
  lemma SettledFor(l: Ledger, v: Verify)
    requires Inv(l) && Session(l, v).Ok?
    ensures var (l', r) := VerifyAndCheckout(l, v);
            && l'.w.buyers == l.w.buyers && l'.issued == l.issued
            && (forall rz :: rz in l'.sessions.entries ==>
                  rz in l.sessions.entries && l'.sessions.entries[rz] == l.sessions.entries[rz])
            && (if r.Ok? then
                  && |l'.w.db.orders| == |l.w.db.orders| + 1 && l'.w.db.orders[..|l.w.db.orders|] == l.w.db.orders
                  && (v.rz != "" ==> l'.w.db.orders[|l.w.db.orders|].rzOrderId == Some(v.rz))
                  && v.u in l.w.buyers && l'.w.db.orders[|l.w.db.orders|].buyer == l.w.buyers[v.u]
                  && Charged(l'.w.db.orders[|l.w.db.orders|], Session(l, v).value)
                else l'.w.db == l.w.db)
  {
    var pending := Session(l, v).value;
    CheckedOutOrder(l, v, pending);
    SessionIdsFree(l, v);
    BuyersStay(l.w, v.u, v.now, v.address, PaymentOf(v.rz, v.pay, pending));
    if VerifyAndCheckout(l, v).1.Ok? {
      CheckoutLosesNothing(l.w, v.u, v.now, v.address, PaymentOf(v.rz, v.pay, pending));
    }
    hide CheckoutFromCart;
  }

  lemma BuyersStay(w: World, u: UserId, now: int, address: Option<string>, payment: Payment)
    ensures CheckoutFromCart(w, u, now, address, payment).0.buyers == w.buyers
  {
    hide ValidateCartForCheckout, GetCart, PriceAll, Prepare, Commit, CommitPaid, ClearCart;
  }

  lemma OpenedFor(l: Ledger, e: Event)
    requires e.Opens?
    ensures var (l', r) := CreateRazorpayOrder(l, e.u, e.now, e.addressId, e.address, e.quote, e.rz);
            && l'.w.db == l.w.db && l'.w.buyers == l.w.buyers
            && (if r.Ok? then
                  && e.rz in l'.sessions.entries && l'.sessions.entries[e.rz].value.user == e.u
                  && l'.sessions.entries == l.sessions.entries[e.rz := l'.sessions.entries[e.rz]]
                  && l'.issued == l.issued + {e.rz}
                else l'.sessions == l.sessions && l'.issued == l.issued)
  {
    hide PrepareCheckout;
  }

  lemma OwnMore(orders: seq<Order>, who: Openers, buyers: map<UserId, BuyerId>, rz: RzId, u: UserId)
    requires OrdersOwned(orders, who, buyers) && rz !in who
    ensures OrdersOwned(orders, who[rz := u], buyers)
  {
    forall i | 0 <= i < |orders|
      ensures OwnOrder(orders[i], who[rz := u], buyers)
    {
      assert OwnOrder(orders[i], who, buyers);
    }
  }

  lemma OwnOneMore(orders: seq<Order>, o: Order, who: Openers, buyers: map<UserId, BuyerId>)
    requires OrdersOwned(orders, who, buyers) && OwnOrder(o, who, buyers)
    ensures OrdersOwned(orders + [o], who, buyers)
  {
  }

  lemma OpenedSessionsOwned(l: Ledger, l': Ledger, who: Openers, rz: RzId, u: UserId)
    requires SessionsOwned(l, who) && rz in l'.sessions.entries && l'.sessions.entries[rz].value.user == u
    requires l'.sessions.entries == l.sessions.entries[rz := l'.sessions.entries[rz]]
    requires l'.issued == l.issued + {rz}
    ensures SessionsOwned(l', who[rz := u])
  {
  }

  lemma OwnedOpening(l: Ledger, who: Openers, e: Event)
    requires Owned(l, who) && Allowed(l, e) && e.Opens?
    ensures Owned(Step(l, e), OpenersAfter(who, l, e))
  {
    OpenedFor(l, e);
    assert e.rz !in who;
    hide CreateRazorpayOrder, OrdersOwned, SessionsOwned, PrepareCheckout;
    var (l', r) := CreateRazorpayOrder(l, e.u, e.now, e.addressId, e.address, e.quote, e.rz);
    if r.Ok? {
      OpenedSessionsOwned(l, l', who, e.rz, e.u);
      OwnMore(l.w.db.orders, who, l.w.buyers, e.rz, e.u);
    } else {
      SessionsOwnedStill(l, l', who);
    }
  }

  lemma SessionsOwnedStill(l: Ledger, l': Ledger, who: Openers)
    requires SessionsOwned(l, who) && l'.sessions == l.sessions && l'.issued == l.issued
    ensures SessionsOwned(l', who)
  {
  }

  lemma OwnedElsewhere(l: Ledger, who: Openers, w: World)
    requires Owned(l, who) && KeepsPayments(l.w.db.orders, w.db.orders) && KeepsOwners(l.w, w)
    ensures Owned(l.(w := w), who)
  {
    forall i | 0 <= i < |w.db.orders|
      ensures OwnOrder(w.db.orders[i], who, w.buyers)
    {
      if i < |l.w.db.orders| {
        assert OwnOrder(l.w.db.orders[i], who, l.w.buyers);
      }
    }
  }

  lemma SessionsOwnedFewer(l: Ledger, l': Ledger, who: Openers)
    requires SessionsOwned(l, who) && l'.issued == l.issued
    requires forall rz :: rz in l'.sessions.entries ==>
               rz in l.sessions.entries && l'.sessions.entries[rz] == l.sessions.entries[rz]
    ensures SessionsOwned(l', who)
  {
  }

  lemma OwnNew(l: Ledger, who: Openers, v: Verify, o: Order)
    requires SessionsOwned(l, who) && Authorised(l, v)
    requires o.rzOrderId == Some(v.rz) && v.u in l.w.buyers && o.buyer == l.w.buyers[v.u]
    ensures OwnOrder(o, who, l.w.buyers)
  {
  }

  lemma SessionNamed(l: Ledger, v: Verify)
    requires Inv(l) && Session(l, v).Ok?
    ensures v.rz != ""
  {
  }

  lemma OwnedSettling(l: Ledger, who: Openers, v: Verify)
    requires Inv(l) && Owned(l, who) && Session(l, v).Ok?
    ensures Owned(VerifyAndCheckout(l, v).0, who)
  {
    hide VerifyAndCheckout, Session, Inv, OrdersOwned, SessionsOwned, Authorised, OwnOrder, Charged;
    SessionExactly(l, v);
    SettledFor(l, v);
    SessionNamed(l, v);
    var (l', r) := VerifyAndCheckout(l, v);
    SessionsOwnedFewer(l, l', who);
    if r.Ok? {
      var n := |l.w.db.orders|;
      assert l'.w.db.orders == l.w.db.orders + [l'.w.db.orders[n]];
      OwnNew(l, who, v, l'.w.db.orders[n]);
      OwnOneMore(l.w.db.orders, l'.w.db.orders[n], who, l.w.buyers);
    }
  }

  lemma OwnedStep(l: Ledger, who: Openers, e: Event)
    requires Inv(l) && Owned(l, who) && Allowed(l, e)
    requires e.Elsewhere? ==> KeepsOwners(l.w, e.w)
    ensures Owned(Step(l, e), OpenersAfter(who, l, e))
  {
    hide Inv, Owned, Session, KeepsOwners, CreateRazorpayOrder, Settle, KeepsPayments;
    match e
    case Opens(_, _, _, _, _, _) => OwnedOpening(l, who, e);
    case Elsewhere(w) => OwnedElsewhere(l, who, w);
    case Verifies(v) =>
      if Session(l, v).Ok? {
        OwnedSettling(l, who, v);
      }
  }

  /** Over every run an order carrying a Razorpay id belongs to the buyer who opened that payment. */
  lemma {:induction false} PaidByItsOpener(l: Ledger, who: Openers, es: seq<Event>)
    requires Inv(l) && Owned(l, who) && AllowedRun(l, es) && OwnersKept(l, es)
    ensures Owned(Run(l, es), OpenersOver(who, l, es))
  {
    if es != [] {
      var front := es[..|es| - 1];
      PaidByItsOpener(l, who, front);
      InvRun(l, front);
      hide Inv, Owned, Allowed, Step, OpenersAfter, KeepsOwners;
      OwnedStep(Run(l, front), OpenersOver(who, l, front), es[|es| - 1]);
    }
  }

  // ---------- the amount ----------

  lemma PreparedFee(w: World, u: UserId, now: int, address: Option<string>, quote: Quote)
    requires PrepareCheckout(w, u, now, address, quote).1.Ok? && (quote.Fee? ==> quote.fee >= 0.0)
    ensures PrepareCheckout(w, u, now, address, quote).1.value.deliveryFee >= 0.0
  {
  }

  /** What opening a payment stores in its session. */
  lemma OpenedSession(l: Ledger, u: UserId, now: int, addressId: string, address: Option<string>, quote: Quote,
                      rz: RzId)
    requires CreateRazorpayOrder(l, u, now, addressId, address, quote, rz).1.Ok?
    ensures var prep := PrepareCheckout(l.w, u, now, address, quote).1;
            var l' := CreateRazorpayOrder(l, u, now, addressId, address, quote, rz).0;
            && prep.Ok? && rz in l'.sessions.entries
            && var entry := l'.sessions.entries[rz];
            && entry.value.user == u && entry.value.addressId == addressId
            && address == Some(entry.value.shippingAddress)
            && AmountPaise(prep.value.total) == entry.value.amountPaise >= 100
            && entry.value.subtotal + entry.value.deliveryFee == prep.value.total
            && entry.value.deliveryFee == prep.value.deliveryFee
            && entry.value.deliveryFee == (if quote.Fee? then quote.fee else 0.0)
            && entry.value.provider == (if quote.Fee? then quote.provider else None)
            && Some(entry.value.streamId) == LoadCartState(l.w.cache, u, now).streamId
            && entry.expiresAt == Some(now + 1_800_000)
  {
    hide PrepareCheckout;
    PreparedCart(l.w, u, now, address, quote);
  }

  /**
   The order placed for a session costs what the buyer was asked to pay, when cart and
   prices did not change since the session was opened.
   */
  lemma PaidOrderMatchesSession(
    l: Ledger, u: UserId, now: int, addressId: string, address: Option<string>, quote: Quote, rz: RzId, l': Ledger,
    v: Verify)
    requires CreateRazorpayOrder(l, u, now, addressId, address, quote, rz).1.Ok?
    requires Session(l', v).Ok? && v.u == u
    requires l'.sessions.entries[v.rz].value
           == CreateRazorpayOrder(l, u, now, addressId, address, quote, rz).0.sessions.entries[rz].value
    requires CheckoutFromCart(l'.w, u, v.now, v.address, PaymentOf(v.rz, v.pay, Session(l', v).value)).1.Ok?
    requires LoadCartState(l'.w.cache, u, v.now).items == LoadCartState(l.w.cache, u, now).items
    requires forall i :: i in LoadCartState(l.w.cache, u, now).items ==>
               Price(l'.w.db.products, i) == Price(l.w.db.products, i)
    requires quote.Fee? ==> quote.fee >= 0.0
    ensures var (done, r) := VerifyAndCheckout(l', v);
            r.Ok? && r.value < |done.w.db.orders|
            && AmountPaise(done.w.db.orders[r.value].total) == Session(l', v).value.amountPaise
  {
    hide CreateRazorpayOrder, PrepareCheckout, CheckoutFromCart, LoadCartState, Price, AmountPaise;
    var pending := Session(l', v).value;
    OpenedSession(l, u, now, addressId, address, quote, rz);
    PreparedFee(l.w, u, now, address, quote);
    PaidAmountIsOrderTotal(l.w, l'.w, u, now, v.now, address, v.address, quote, PaymentOf(v.rz, v.pay, pending));
    CheckedOutOrder(l', v, pending);
  }
}
