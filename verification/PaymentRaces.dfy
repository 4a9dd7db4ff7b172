/**
 Verifications that overlap: the checks of a verification and its settlement are
 separate steps, other steps of the shop may come in between, and the row of a failed
 checkout may be lost.
 */
module PaymentRaces {
  import opened Base
  import opened Shop
  import opened Redis
  import opened Carts
  import opened Checkout
  import OrderRuns
  import P = Payments

  /** A verification past its checks, with the session it read. */
  datatype Claim = Claim(v: P.Verify, pending: P.Pending)

  datatype Desk = Desk(l: P.Ledger, claims: seq<Claim>)

  datatype Event =
    | Opens(u: UserId, now: int, addressId: string, address: Option<string>, quote: Quote, rz: P.RzId)
    | Checks(v: P.Verify)
    | Settles(claim: nat, now: int, address: Option<string>, refunded: bool, recorded: bool)
    | Elsewhere(w: World)

  predicate Acts(d: Desk, e: Event) {
    e.Settles? && e.claim < |d.claims|
  }

  /** The claim as it settles: the clock, the address and the answers are those of that moment. */
  function Settling(d: Desk, e: Event): P.Verify
    requires Acts(d, e)
  {
    d.claims[e.claim].v.(now := e.now, address := e.address, refunded := e.refunded, recorded := e.recorded)
  }

  function Step(d: Desk, e: Event): Desk {
    match e
    case Opens(u, now, addressId, address, quote, rz) =>
      d.(l := P.Step(d.l, P.Opens(u, now, addressId, address, quote, rz)))
    case Checks(v) =>
      var s := P.Session(d.l, v);
      if s.Ok? then d.(claims := d.claims + [Claim(v, s.value)]) else d
    case Settles(k, _, _, _, _) =>
      if Acts(d, e) then Desk(P.Settle(d.l, Settling(d, e), d.claims[k].pending).0, Without(d.claims, k)) else d
    case Elsewhere(w) => d.(l := d.l.(w := w))
  }

  function Run(d: Desk, es: seq<Event>): Desk {
    if es == [] then d else Step(Run(d, es[..|es| - 1]), es[|es| - 1])
  }

  /**
   The provider gives fresh ids, none of them empty; the rest of the shop keeps payments.
   Failure rows may be lost.
   */
  ghost predicate Allowed(d: Desk, e: Event) {
    match e
    case Opens(_, _, _, _, _, rz) => rz != ""
    case Checks(v) => v.signed ==> v.pay != ""
    case Settles(_, _, _, _, _) => true
    case Elsewhere(w) => P.KeepsPayments(d.l.w.db.orders, w.db.orders)
  }

  ghost predicate AllowedRun(d: Desk, es: seq<Event>) {
    es == [] || (AllowedRun(d, es[..|es| - 1]) && Allowed(Run(d, es[..|es| - 1]), es[|es| - 1]))
  }

  // ---------- once, or twice ----------

  ghost predicate WellFormed(d: Desk) {
    && (forall rz :: rz in d.l.sessions.entries ==> rz != "")
    && (forall k :: 0 <= k < |d.claims| ==> d.claims[k].v.rz != "" && d.claims[k].v.pay != "")
  }

  /** No payment has both an order and a refund call, nor two refund calls. */
  ghost predicate Once(l: P.Ledger) {
    var orders := l.w.db.orders;
    && (forall j, k :: 0 <= j < k < |l.refunds| ==> l.refunds[j].0 != l.refunds[k].0)
    && (forall i, k :: 0 <= i < |orders| && 0 <= k < |l.refunds| ==> orders[i].rzPaymentId != Some(l.refunds[k].0))
  }

  /** The payment already has an order or a refund call. */
  predicate Touched(l: P.Ledger, pay: P.PaymentId) {
    P.HasOrder(l, pay) || exists k :: 0 <= k < |l.refunds| && l.refunds[k].0 == pay
  }

  predicate EachFresh(d: Desk, es: seq<Event>) {
    es == []
    || var before := Run(d, es[..|es| - 1]);
       && EachFresh(d, es[..|es| - 1])
       && (Acts(before, es[|es| - 1]) ==> !Touched(before.l, before.claims[es[|es| - 1].claim].v.pay))
  }

  lemma OpensWellFormed(d: Desk, e: Event)
    requires WellFormed(d) && Allowed(d, e) && e.Opens?
    ensures WellFormed(Step(d, e))
  {
  }

  lemma SettlesWellFormed(d: Desk, e: Event)
    requires WellFormed(d) && e.Settles?
    ensures WellFormed(Step(d, e))
  {
  }

  lemma KeepsWellFormed(d: Desk, e: Event)
    requires WellFormed(d) && Allowed(d, e)
    ensures WellFormed(Step(d, e))
  {
    hide Step, WellFormed, Allowed;
    if e.Opens? {
      OpensWellFormed(d, e);
    } else if e.Settles? {
      SettlesWellFormed(d, e);
    } else {
      OthersWellFormed(d, e);
    }
  }

  lemma OthersWellFormed(d: Desk, e: Event)
    requires WellFormed(d) && Allowed(d, e) && (e.Checks? || e.Elsewhere?)
    ensures WellFormed(Step(d, e))
  {
  }

  /** One more order with the claim's ids, which were free; or one more refund call, and at most an unpaid order. */
  ghost predicate Adds(l: P.Ledger, l': P.Ledger, v: P.Verify, placed: bool) {
    var (a, b) := (l.w.db.orders, l'.w.db.orders);
    if placed then
      && |b| == |a| + 1 && b[..|a|] == a && l'.refunds == l.refunds
      && b[|a|].rzPaymentId == Some(v.pay) && b[|a|].rzOrderId == Some(v.rz)
      && (forall i :: 0 <= i < |a| ==> a[i].rzPaymentId != Some(v.pay) && a[i].rzOrderId != Some(v.rz))
    else
      && (b == a || (|b| == |a| + 1 && b[..|a|] == a && b[|a|].rzPaymentId == None && b[|a|].rzOrderId == None))
      && |l'.refunds| == |l.refunds| + 1 && l'.refunds[..|l.refunds|] == l.refunds && l'.refunds[|l.refunds|].0 == v.pay
  }

  lemma FreeIds(orders: seq<Order>, v: P.Verify, pending: P.Pending)
    requires v.pay != "" && v.rz != "" && !IdsTaken(orders, |orders|, P.PaymentOf(v.rz, v.pay, pending))
    ensures forall i :: 0 <= i < |orders| ==> orders[i].rzPaymentId != Some(v.pay) && orders[i].rzOrderId != Some(v.rz)
  {
  }

  lemma SettleAdds(l: P.Ledger, v: P.Verify, pending: P.Pending)
    requires v.pay != "" && v.rz != ""
    ensures var (l', r) := P.Settle(l, v, pending); Adds(l, l', v, r.Ok?)
  {
    P.CheckedOutOrder(l, v, pending);
    hide CheckoutFromCart, IdsTaken;
    if P.Settle(l, v, pending).1.Ok? {
      FreeIds(l.w.db.orders, v, pending);
    }
  }

  lemma AddedOnce(l: P.Ledger, l': P.Ledger, v: P.Verify, placed: bool)
    requires Adds(l, l', v, placed)
    ensures Once(l') <==> Once(l) && !Touched(l, v.pay)
  {
  }

  lemma AddedUnique(l: P.Ledger, l': P.Ledger, v: P.Verify, placed: bool)
    requires Adds(l, l', v, placed) && OrderRuns.UniqueIds(l.w.db.orders)
    ensures OrderRuns.UniqueIds(l'.w.db.orders)
  {
  }

  lemma StepOnce(d: Desk, e: Event)
    requires WellFormed(d) && Allowed(d, e)
    ensures Once(Step(d, e).l) <==> Once(d.l) && (Acts(d, e) ==> !Touched(d.l, d.claims[e.claim].v.pay))
    ensures OrderRuns.UniqueIds(d.l.w.db.orders) ==> OrderRuns.UniqueIds(Step(d, e).l.w.db.orders)
  {
    match e
    case Opens(u, now, addressId, address, quote, rz) =>
      P.CreateKeepsOrders(d.l, P.Opens(u, now, addressId, address, quote, rz));
      hide P.Step;
    case Checks(_) =>
    case Settles(k, _, _, _, _) =>
      if Acts(d, e) {
        SettleStep(d, e);
      }
    case Elsewhere(w) => ElsewhereUnique(d.l.w.db.orders, w.db.orders);
  }

  lemma SettleStep(d: Desk, e: Event)
    requires WellFormed(d) && Acts(d, e)
    ensures Once(Step(d, e).l) <==> Once(d.l) && !Touched(d.l, d.claims[e.claim].v.pay)
    ensures OrderRuns.UniqueIds(d.l.w.db.orders) ==> OrderRuns.UniqueIds(Step(d, e).l.w.db.orders)
  {
    hide P.Settle, Once, Adds, Touched, OrderRuns.UniqueIds;
    var v := Settling(d, e);
    SettleAdds(d.l, v, d.claims[e.claim].pending);
    var (l', r) := P.Settle(d.l, v, d.claims[e.claim].pending);
    AddedOnce(d.l, l', v, r.Ok?);
    if OrderRuns.UniqueIds(d.l.w.db.orders) {
      AddedUnique(d.l, l', v, r.Ok?);
    }
  }

  lemma ElsewhereUnique(a: seq<Order>, b: seq<Order>)
    requires P.KeepsPayments(a, b)
    ensures OrderRuns.UniqueIds(a) ==> OrderRuns.UniqueIds(b)
  {
  }

  lemma {:induction false} WellFormedRun(d: Desk, es: seq<Event>)
    requires WellFormed(d) && AllowedRun(d, es)
    ensures WellFormed(Run(d, es))
  {
    if es != [] {
      WellFormedRun(d, es[..|es| - 1]);
      KeepsWellFormed(Run(d, es[..|es| - 1]), es[|es| - 1]);
    }
  }

  /**
   Over every run of overlapping verifications and lost rows: no payment has both an
   order and a refund call, nor two refund calls, exactly when every settlement acts on a
   payment without an earlier order and without an earlier refund call.
   */
  lemma {:induction false} OnceExactly(d: Desk, es: seq<Event>)
    requires WellFormed(d) && Once(d.l) && AllowedRun(d, es)
    ensures Once(Run(d, es).l) <==> EachFresh(d, es)
  {
    if es != [] {
      var front := es[..|es| - 1];
      OnceExactly(d, front);
      WellFormedRun(d, front);
      hide Once, Step, Acts, Touched, WellFormed, Allowed;
      StepOnce(Run(d, front), es[|es| - 1]);
    }
  }

  /** And in all of them each payment and each Razorpay order id has at most one order. */
  lemma {:induction false} OneOrderEach(d: Desk, es: seq<Event>)
    requires WellFormed(d) && OrderRuns.UniqueIds(d.l.w.db.orders) && AllowedRun(d, es)
    ensures OrderRuns.UniqueIds(Run(d, es).l.w.db.orders)
  {
    if es != [] {
      var front := es[..|es| - 1];
      OneOrderEach(d, front);
      WellFormedRun(d, front);
      hide OrderRuns.UniqueIds, Step, WellFormed, Allowed;
      StepOnce(Run(d, front), es[|es| - 1]);
    }
  }

  /**
   A failed settlement leaves an unpaid order behind, its stock taken, exactly when the
   cart could be checked out and an order already carries one of the payment's ids. The
   payment is refunded then, although that order may be its own.
   */
  lemma LeavesUnpaidExactly(l: P.Ledger, v: P.Verify, pending: P.Pending)
    ensures var payment := P.PaymentOf(v.rz, v.pay, pending);
            var (l', r) := P.Settle(l, v, pending);
            && (r.Err? && LeftUnpaid(l.w.db, l'.w.db)
                <==> CheckoutFromCart(l.w, v.u, v.now, v.address, payment.(markPaid := false)).1.Ok?
                     && IdsTaken(l.w.db.orders, |l.w.db.orders|, payment))
            && (r.Err? && !LeftUnpaid(l.w.db, l'.w.db) ==> l'.w.db == l.w.db)
            && (r.Err? ==> l'.refunds == l.refunds + [(v.pay, pending.amountPaise)])
  {
    hide CheckoutFromCart, IdsTaken;
    var payment := P.PaymentOf(v.rz, v.pay, pending);
    Checkout.LeavesUnpaidExactly(l.w, v.u, v.now, v.address, payment);
    P.CheckedOutOrder(l, v, pending);
  }

  /** A settlement that follows its checks at once is the whole verification. */
  lemma ChecksThenSettles(d: Desk, v: P.Verify)
    requires P.Session(d.l, v).Ok?
    ensures var settle := Settles(|d.claims|, v.now, v.address, v.refunded, v.recorded);
            Step(Step(d, Checks(v)), settle) == d.(l := P.VerifyAndCheckout(d.l, v).0)
  {
  }
}
