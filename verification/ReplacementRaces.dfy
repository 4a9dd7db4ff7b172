/**
 Replacement calls that overlap: the test of a call and its write are separate steps.
 What stays true then, and exactly when: the balance is paid before fulfilment, and an
 order has one open request.
 */
module ReplacementRaces {
  import opened Base
  import opened Money
  import opened Redis
  import Shop
  import R = Replacements

  /** What a write does to the desk. An approval is settled by the balance due, which never changes. */
  datatype Patch =
    | Adds(r: R.Replacement)
    | Approves
    | Rejects
    | Opens(rz: R.RzId, session: R.BalanceSession)
    | Verifies(rz: R.RzId, pay: string)
    | Marks(pay: string)
    | Packs(video: Option<string>)
    | Ships(waybill: Option<string>)
    | Arrives

  /** A write on its way, and the status and balance its test saw; a new request has seen none. */
  datatype Change = Change(id: nat, seen: R.RStatus, balance: R.Balance, patch: Patch)

  function Row(r: R.Replacement, p: Patch): R.Replacement {
    match p
    case Adds(_) => r
    case Approves => R.ResolveApproval(r)
    case Rejects => r.(status := R.REJECTED)
    case Opens(rz, _) => r.(rzOrderId := Some(rz))
    case Verifies(_, pay) => r.(status := R.APPROVED, balance := R.PAID, rzPaymentId := Some(pay))
    case Marks(pay) => r.(status := R.APPROVED, balance := R.PAID, rzPaymentId := Some(pay))
    case Packs(video) => r.(packingVideo := video, status := R.PACKED)
    case Ships(waybill) => r.(status := R.SHIPPED, trackingId := waybill, provider := Some("DELHIVERY"))
    case Arrives => r.(status := R.DELIVERED)
  }

  function Land(d: R.Desk, ch: Change): R.Desk
    requires ch.patch.Adds? || ch.id < |d.requests|
  {
    match ch.patch
    case Adds(r) => d.(requests := d.requests + [r])
    case Opens(rz, session) =>
      R.Desk(d.requests[ch.id := Row(d.requests[ch.id], ch.patch)],
             d.sessions.Put(rz, session, Some(R.PENDING_TTL_SECONDS), d.now), d.issued + {rz}, d.now)
    case Verifies(rz, _) =>
      d.(requests := d.requests[ch.id := Row(d.requests[ch.id], ch.patch)], sessions := d.sessions.Del(rz))
    case _ => R.Write(d, ch.id, Row(d.requests[ch.id], ch.patch))
  }

  /** The request a creation would add. */
  function NewRow(d: R.Desk, e: R.Event): Option<R.Replacement>
    requires e.Created?
  {
    var r := R.CreateForOrder(d, e.db, e.buyer, e.orderId, e.item, e.returnable, e.variant, e.score);
    if r.Ok? && |r.value.requests| > |d.requests| then Some(r.value.requests[|d.requests|]) else None
  }

  /** The test says no; that an id is taken shows only when the table refuses the write. */
  predicate Refuses<T>(r: Result<T, R.RError>) {
    r.Err? && r.error != R.IdInUse
  }

  /** The write a call decides on, if its test lets it write. */
  function PatchOf(d: R.Desk, e: R.Event): Option<Patch> {
    match e
    case Tick(_) => None
    case Created(_, _, _, _, _, _, _) => var r := NewRow(d, e); if r.Some? then Some(Adds(r.value)) else None
    case Decided(id, approved) =>
      if R.Decide(d, id, approved).Err? then None else Some(if approved then Approves else Rejects)
    case BalanceOpened(buyers, u, id, rz) =>
      if Refuses(R.CreateBalanceOrder(d, buyers, u, id, rz).1) || Given(d.requests[id].rzOrderId) then None
      else Some(Opens(rz, R.BalanceSession(u, id, Round(d.requests[id].balanceDue * 100.0))))
    case BalanceVerified(buyers, u, id, rz, pay, signed) =>
      if Refuses(R.VerifyBalancePayment(d, buyers, u, id, rz, pay, signed).1) || d.requests[id].balance == R.PAID
      then None
      else Some(Verifies(rz, pay))
    case MarkedPaid(id, pay) =>
      if id >= |d.requests| || d.requests[id].status != R.AWAITING_PAYMENT then None else Some(Marks(pay))
    case Packed(id, seller, video) =>
      if R.UploadPackingVideo(d, id, seller, video).Err? then None else Some(Packs(video))
    case DeliveryRequested(id, seller, waybill) =>
      if R.RequestDelivery(d, id, seller, waybill).Err? then None else Some(Ships(waybill))
    case Polled(id, seller, delivered) =>
      if R.SellersRequest(d, id, seller).Err? || !Tracks(d.requests[id], delivered) then None else Some(Arrives)
    case DeliveredByHand(id, seller) => if R.Deliver(d, id, seller).Err? then None else Some(Arrives)
  }

  predicate Tracks(r: R.Replacement, delivered: bool) {
    r.provider == Some("DELHIVERY") && Given(r.trackingId) && delivered
  }

  function Test(d: R.Desk, e: R.Event): Option<Change> {
    var p := PatchOf(d, e);
    if p.None? then None
    else if p.value.Adds? then Some(Change(0, R.REQUESTED, R.NONE, p.value))
    else Some(Change(e.id, d.requests[e.id].status, d.requests[e.id].balance, p.value))
  }

  predicate Refused(d: R.Desk, ch: Change) {
    match ch.patch
    case Opens(rz, _) => R.RzTaken(d, ch.id, rz)
    case Verifies(_, pay) => R.PayTaken(d, ch.id, pay)
    case Marks(pay) => R.PayTaken(d, ch.id, pay)
    case _ => false
  }

  /** Test and write with nothing in between are the whole call. */
  lemma WholeCall(d: R.Desk, e: R.Event)
    requires !e.Tick?
    ensures R.Step(d, e)
         == if Test(d, e).Some? && !Refused(d, Test(d, e).value) then Land(d, Test(d, e).value) else d
  {
  }

  // ---------- runs ----------

  datatype World = World(d: R.Desk, pending: seq<Change>)

  datatype Event = Tick(ms: nat) | Tested(call: R.Event) | Landed(change: nat)

  predicate Lands(w: World, e: Event) {
    && e.Landed? && e.change < |w.pending|
    && (w.pending[e.change].patch.Adds? || w.pending[e.change].id < |w.d.requests|)
    && !Refused(w.d, w.pending[e.change])
  }

  function Step(w: World, e: Event): World {
    match e
    case Tick(ms) => w.(d := w.d.(now := w.d.now + ms))
    case Tested(call) =>
      var t := Test(w.d, call);
      if t.Some? then w.(pending := w.pending + [t.value]) else w
    case Landed(k) =>
      if k >= |w.pending| then w
      else World(if Lands(w, e) then Land(w.d, w.pending[k]) else w.d, Without(w.pending, k))
  }

  function Run(w: World, es: seq<Event>): World {
    if es == [] then w else Step(Run(w, es[..|es| - 1]), es[|es| - 1])
  }

  /** What a pending write carries: new requests are open and not ahead of their balance. */
  predicate PatchOk(p: Patch) {
    p.Adds? ==>
      PaidOk(p.r) && p.r.status != R.REJECTED && p.r.trackingId.None? && p.r.rzOrderId.None? && p.r.rzPaymentId.None?
  }

  predicate WellFormed(w: World) {
    forall k :: 0 <= k < |w.pending| ==> PatchOk(w.pending[k].patch)
  }

  lemma StepWellFormed(w: World, e: Event)
    requires WellFormed(w)
    ensures WellFormed(Step(w, e))
  {
  }

  lemma {:induction false} RunWellFormed(w: World, es: seq<Event>)
    requires WellFormed(w)
    ensures WellFormed(Run(w, es))
  {
    if es != [] {
      RunWellFormed(w, es[..|es| - 1]);
      StepWellFormed(Run(w, es[..|es| - 1]), es[|es| - 1]);
    }
  }

  /** One request is added or changed by the write that lands; the others stay. */
  lemma StepRows(w: World, e: Event, i: nat)
    ensures |Step(w, e).d.requests| == |w.d.requests| + if Lands(w, e) && w.pending[e.change].patch.Adds? then 1 else 0
    ensures i < |w.d.requests| ==>
              Step(w, e).d.requests[i]
              == if Lands(w, e) && !w.pending[e.change].patch.Adds? && w.pending[e.change].id == i
                 then Row(w.d.requests[i], w.pending[e.change].patch) else w.d.requests[i]
    ensures i == |w.d.requests| && i < |Step(w, e).d.requests| ==>
              Step(w, e).d.requests[i] == w.pending[e.change].patch.r
  {
  }

  // ---------- paid before fulfilment ----------

  predicate PaidOk(r: R.Replacement) {
    R.Fulfilling(r.status) && r.balanceDue > 0.0 ==> r.balance == R.PAID
  }

  predicate AllPaid(d: R.Desk) {
    forall i :: 0 <= i < |d.requests| ==> PaidOk(d.requests[i])
  }

  predicate PaidThroughout(w: World, es: seq<Event>) {
    AllPaid(Run(w, es).d) && (es == [] || PaidThroughout(w, es[..|es| - 1]))
  }

  predicate Fulfils(p: Patch) {
    p.Packs? || p.Ships? || p.Arrives?
  }

  /** A fulfilment write lands on a request whose balance is due and not paid. */
  predicate LandsUnpaid(w: World, e: Event) {
    && Lands(w, e) && Fulfils(w.pending[e.change].patch)
    && w.d.requests[w.pending[e.change].id].balanceDue > 0.0 && w.d.requests[w.pending[e.change].id].balance != R.PAID
  }

  predicate NoneUnpaid(w: World, es: seq<Event>) {
    es == [] || (NoneUnpaid(w, es[..|es| - 1]) && !LandsUnpaid(Run(w, es[..|es| - 1]), es[|es| - 1]))
  }

  lemma RowPaid(r: R.Replacement, p: Patch)
    requires PaidOk(r)
    ensures PaidOk(Row(r, p)) <==> !(Fulfils(p) && r.balanceDue > 0.0 && r.balance != R.PAID)
  {
  }

  lemma PaidStep(w: World, e: Event)
    requires WellFormed(w) && AllPaid(w.d)
    ensures AllPaid(Step(w, e).d) <==> !LandsUnpaid(w, e)
  {
    hide Step, Row, PaidOk, Land;
    var rs := Step(w, e).d.requests;
    StepRows(w, e, 0);
    forall i | 0 <= i < |rs|
      ensures PaidOk(rs[i]) <==> !(LandsUnpaid(w, e) && i == w.pending[e.change].id)
    {
      StepRows(w, e, i);
      if i < |w.d.requests| {
        if Lands(w, e) {
          RowPaid(w.d.requests[i], w.pending[e.change].patch);
        }
      } else {
        assert PatchOk(w.pending[e.change].patch);
      }
    }
    if LandsUnpaid(w, e) {
      assert !PaidOk(rs[w.pending[e.change].id]);
    }
  }

  /**
   In every overlapping run the balance is paid before fulfilment exactly when no
   fulfilment write lands on an unpaid request.
   */
  lemma {:induction false} PaidExactly(w: World, es: seq<Event>)
    requires WellFormed(w) && AllPaid(w.d)
    ensures PaidThroughout(w, es) <==> NoneUnpaid(w, es)
  {
    if es != [] {
      var front := es[..|es| - 1];
      PaidExactly(w, front);
      RunWellFormed(w, front);
      hide Step, AllPaid, LandsUnpaid, WellFormed;
      if PaidThroughout(w, front) {
        PaidNow(w, front);
        PaidStep(Run(w, front), es[|es| - 1]);
      }
    }
  }

  lemma PaidNow(w: World, es: seq<Event>)
    requires PaidThroughout(w, es)
    ensures AllPaid(Run(w, es).d)
  {
  }

  // ---------- one open request an order ----------

  predicate OneOpen(d: R.Desk) {
    forall i, j :: 0 <= i < j < |d.requests| ==> !R.BothOpen(d.requests[i], d.requests[j])
  }

  predicate OneOpenThroughout(w: World, es: seq<Event>) {
    OneOpen(Run(w, es).d) && (es == [] || OneOpenThroughout(w, es[..|es| - 1]))
  }

  /** Another request of this order is open. */
  predicate OtherOpen(d: R.Desk, id: nat, orderId: nat) {
    exists j ::
      0 <= j < |d.requests| && j != id && d.requests[j].orderId == orderId && d.requests[j].status != R.REJECTED
  }

  /**
   A write opens a request, by adding it or by a status over its rejection, while another
   one of its order is open.
   */
  predicate Doubles(w: World, e: Event) {
    && Lands(w, e)
    && var ch := w.pending[e.change];
       if ch.patch.Adds? then OtherOpen(w.d, |w.d.requests|, ch.patch.r.orderId)
       else
         && w.d.requests[ch.id].status == R.REJECTED && Row(w.d.requests[ch.id], ch.patch).status != R.REJECTED
         && OtherOpen(w.d, ch.id, w.d.requests[ch.id].orderId)
  }

  predicate NoneDoubled(w: World, es: seq<Event>) {
    es == [] || (NoneDoubled(w, es[..|es| - 1]) && !Doubles(Run(w, es[..|es| - 1]), es[|es| - 1]))
  }

  lemma RowKeepsOrder(r: R.Replacement, p: Patch)
    ensures Row(r, p).orderId == r.orderId && Row(r, p).balanceDue == r.balanceDue
  {
  }

  lemma AddedOne(d: R.Desk, r: R.Replacement)
    requires OneOpen(d) && r.status != R.REJECTED
    ensures OneOpen(d.(requests := d.requests + [r])) <==> !OtherOpen(d, |d.requests|, r.orderId)
  {
    var rs := d.requests + [r];
    if OtherOpen(d, |d.requests|, r.orderId) {
      var j :| 0 <= j < |d.requests| && d.requests[j].orderId == r.orderId && d.requests[j].status != R.REJECTED;
      assert R.BothOpen(rs[j], rs[|d.requests|]);
    } else {
      forall i, j | 0 <= i < j < |rs|
        ensures !R.BothOpen(rs[i], rs[j])
      {
        if j < |d.requests| {
          assert !R.BothOpen(d.requests[i], d.requests[j]);
        }
      }
    }
  }

  lemma ChangedOne(d: R.Desk, id: nat, r': R.Replacement)
    requires OneOpen(d) && id < |d.requests| && r'.orderId == d.requests[id].orderId
    ensures OneOpen(d.(requests := d.requests[id := r']))
       <==> !(d.requests[id].status == R.REJECTED && r'.status != R.REJECTED && OtherOpen(d, id, r'.orderId))
  {
    var rs := d.requests[id := r'];
    if d.requests[id].status == R.REJECTED && r'.status != R.REJECTED && OtherOpen(d, id, r'.orderId) {
      var j :|
        0 <= j < |d.requests| && j != id && d.requests[j].orderId == r'.orderId && d.requests[j].status != R.REJECTED;
      assert R.BothOpen(rs[j], rs[id]) && R.BothOpen(rs[id], rs[j]);
    } else {
      forall i, j | 0 <= i < j < |rs|
        ensures !R.BothOpen(rs[i], rs[j])
      {
        assert !R.BothOpen(d.requests[i], d.requests[j]);
        if (i == id || j == id) && r'.status != R.REJECTED && d.requests[id].status == R.REJECTED {
          var k := if i == id then j else i;
          assert d.requests[k].orderId != r'.orderId || d.requests[k].status == R.REJECTED;
        }
      }
    }
  }

  lemma OneOpenStep(w: World, e: Event)
    requires WellFormed(w) && OneOpen(w.d)
    ensures OneOpen(Step(w, e).d) <==> !Doubles(w, e)
  {
    if Lands(w, e) {
      var ch := w.pending[e.change];
      if ch.patch.Adds? {
        assert PatchOk(ch.patch);
        AddedOne(w.d, ch.patch.r);
      } else {
        RowKeepsOrder(w.d.requests[ch.id], ch.patch);
        ChangedOne(w.d, ch.id, Row(w.d.requests[ch.id], ch.patch));
      }
    }
    hide Row, OtherOpen, R.BothOpen, PatchOk;
  }

  /**
   In every overlapping run an order has at most one open request throughout exactly when
   no write opens one while another is open.
   */
  lemma {:induction false} OneOpenExactly(w: World, es: seq<Event>)
    requires WellFormed(w) && OneOpen(w.d)
    ensures OneOpenThroughout(w, es) <==> NoneDoubled(w, es)
  {
    if es != [] {
      var front := es[..|es| - 1];
      OneOpenExactly(w, front);
      RunWellFormed(w, front);
      hide Step, OneOpen, Doubles, WellFormed;
      if OneOpenThroughout(w, front) {
        OneOpenNow(w, front);
        OneOpenStep(Run(w, front), es[|es| - 1]);
      }
    }
  }

  lemma OneOpenNow(w: World, es: seq<Event>)
    requires OneOpenThroughout(w, es)
    ensures OneOpen(Run(w, es).d)
  {
  }

  // ---------- payment ids ----------

  predicate UniqueIds(d: R.Desk) {
    forall i, j :: 0 <= i < j < |d.requests| ==> !Clash(d.requests[i], d.requests[j])
  }

  predicate Clash(a: R.Replacement, b: R.Replacement) {
    (a.rzOrderId.Some? && a.rzOrderId == b.rzOrderId) || (a.rzPaymentId.Some? && a.rzPaymentId == b.rzPaymentId)
  }

  lemma UniqueStep(w: World, e: Event)
    requires WellFormed(w) && UniqueIds(w.d)
    ensures UniqueIds(Step(w, e).d)
  {
    var rs := Step(w, e).d.requests;
    StepRows(w, e, 0);
    hide Step;
    forall i, j | 0 <= i < j < |rs|
      ensures !Clash(rs[i], rs[j])
    {
      StepRows(w, e, i);
      StepRows(w, e, j);
      if j < |w.d.requests| {
        assert !Clash(w.d.requests[i], w.d.requests[j]);
      } else {
        assert PatchOk(w.pending[e.change].patch);
      }
    }
  }

  /** In every overlapping run each payment id and each Razorpay order id belongs to at most one request. */
  lemma {:induction false} UniqueRun(w: World, es: seq<Event>)
    requires WellFormed(w) && UniqueIds(w.d)
    ensures UniqueIds(Run(w, es).d)
  {
    if es != [] {
      UniqueRun(w, es[..|es| - 1]);
      RunWellFormed(w, es[..|es| - 1]);
      hide UniqueIds, WellFormed, Step;
      UniqueStep(Run(w, es[..|es| - 1]), es[|es| - 1]);
    }
  }

  // ---------- the order of statuses ----------

  /** Each step of a run takes every request along an arrow of its life, or nowhere. */
  predicate ArrowsThroughout(w: World, es: seq<Event>) {
    es == []
    || (ArrowsThroughout(w, es[..|es| - 1]) && AllArrows(Run(w, es[..|es| - 1]).d.requests, Run(w, es).d.requests))
  }

  predicate AllArrows(a: seq<R.Replacement>, b: seq<R.Replacement>) {
    |a| <= |b| && forall i :: 0 <= i < |a| ==> R.Arrow(a[i].status, b[i].status)
  }

  /** The statuses on which a write keeps to the arrows. */
  function Sources(p: Patch, due: real): set<R.RStatus> {
    match p
    case Approves => {R.PENDING_ADMIN_REVIEW, R.AWAITING_PAYMENT} + (if due > 0.0 then {} else {R.APPROVED})
    case Rejects => {R.PENDING_ADMIN_REVIEW, R.REJECTED}
    case Verifies(_, _) => {R.PENDING_ADMIN_REVIEW, R.AWAITING_PAYMENT, R.APPROVED}
    case Marks(_) => {R.PENDING_ADMIN_REVIEW, R.AWAITING_PAYMENT, R.APPROVED}
    case Packs(_) => {R.APPROVED, R.PACKED}
    case Ships(_) => {R.PACKED, R.SHIPPED}
    case Arrives => {R.SHIPPED, R.DELIVERED}
    case _ => {}
  }

  predicate SetsStatus(p: Patch) {
    !p.Adds? && !p.Opens?
  }

  /** A write lands on a request in a status from which no arrow leads to the one it sets. */
  predicate OffArrow(w: World, e: Event) {
    && Lands(w, e) && SetsStatus(w.pending[e.change].patch)
    && var r := w.d.requests[w.pending[e.change].id];
       r.status !in Sources(w.pending[e.change].patch, r.balanceDue)
  }

  predicate NoneOffArrow(w: World, es: seq<Event>) {
    es == [] || (NoneOffArrow(w, es[..|es| - 1]) && !OffArrow(Run(w, es[..|es| - 1]), es[|es| - 1]))
  }

  lemma RowArrow(r: R.Replacement, p: Patch)
    ensures R.Arrow(r.status, Row(r, p).status) <==> (SetsStatus(p) ==> r.status in Sources(p, r.balanceDue))
  {
  }

  lemma ArrowStep(w: World, e: Event)
    ensures AllArrows(w.d.requests, Step(w, e).d.requests) <==> !OffArrow(w, e)
  {
    hide Step, Row, R.Arrow, Sources;
    StepRows(w, e, 0);
    forall i | 0 <= i < |w.d.requests|
      ensures i < |Step(w, e).d.requests|
      ensures R.Arrow(w.d.requests[i].status, Step(w, e).d.requests[i].status)
         <==> !(OffArrow(w, e) && i == w.pending[e.change].id)
    {
      StepRows(w, e, i);
      StaysArrow(w.d.requests[i].status);
      if Lands(w, e) {
        RowArrow(w.d.requests[i], w.pending[e.change].patch);
      }
    }
    if OffArrow(w, e) {
      var i := w.pending[e.change].id;
      assert !R.Arrow(w.d.requests[i].status, Step(w, e).d.requests[i].status);
    }
  }

  lemma StaysArrow(s: R.RStatus)
    ensures R.Arrow(s, s)
  {
  }

  /**
   In every overlapping run statuses keep to the arrows exactly when every write finds a
   status an arrow leads from.
   */
  lemma {:induction false} ArrowsExactly(w: World, es: seq<Event>)
    ensures ArrowsThroughout(w, es) <==> NoneOffArrow(w, es)
  {
    if es != [] {
      ArrowsExactly(w, es[..|es| - 1]);
      hide Step, OffArrow, AllArrows;
      ArrowStep(Run(w, es[..|es| - 1]), es[|es| - 1]);
    }
  }

  // ---------- writes that find what their tests saw ----------

  /** The status and balance from which the source allows a write. */
  ghost predicate SeenOk(d: R.Desk, ch: Change) {
    match ch.patch
    case Adds(r) => R.ReplacementOk(r) && r.rzOrderId.None?
    case Opens(rz, _) => Seen(d, ch, {R.AWAITING_PAYMENT}) && rz != ""
    case Verifies(_, _) => Seen(d, ch, {R.AWAITING_PAYMENT})
    case Marks(_) => Seen(d, ch, {R.AWAITING_PAYMENT})
    case Packs(_) => Seen(d, ch, {R.APPROVED})
    case Ships(_) => Seen(d, ch, {R.PACKED})
    case Arrives => Seen(d, ch, {R.SHIPPED, R.DELIVERED})
    case _ => Seen(d, ch, {R.PENDING_ADMIN_REVIEW})
  }

  ghost predicate Seen(d: R.Desk, ch: Change, from: set<R.RStatus>) {
    && ch.id < |d.requests| && ch.seen in from
    && (Fulfils(ch.patch) && d.requests[ch.id].balanceDue > 0.0 ==> ch.balance == R.PAID)
  }

  ghost predicate AllOk(d: R.Desk) {
    forall i :: 0 <= i < |d.requests| ==> R.ReplacementOk(d.requests[i])
  }

  ghost predicate Calm(w: World) {
    WellFormed(w) && AllOk(w.d) && forall k :: 0 <= k < |w.pending| ==> SeenOk(w.d, w.pending[k])
  }

  /** A new request finds no open one; any other write finds the status and balance its test saw. */
  predicate OnTime(w: World, e: Event) {
    Lands(w, e) ==>
      var ch := w.pending[e.change];
      if ch.patch.Adds? then !R.Open(w.d, ch.patch.r.orderId)
      else w.d.requests[ch.id].status == ch.seen && w.d.requests[ch.id].balance == ch.balance
  }

  predicate OnTimeRun(w: World, es: seq<Event>) {
    es == [] || (OnTimeRun(w, es[..|es| - 1]) && OnTime(Run(w, es[..|es| - 1]), es[|es| - 1]))
  }

  /** The payment provider gives no empty id. */
  predicate Allowed(e: Event) {
    e.Tested? && e.call.BalanceOpened? ==> e.call.rz != ""
  }

  lemma OnTimeIsClean(w: World, e: Event)
    requires Calm(w) && OnTime(w, e)
    ensures !LandsUnpaid(w, e) && !Doubles(w, e) && !OffArrow(w, e)
  {
  }

  lemma TestSeen(d: R.Desk, e: R.Event)
    requires AllOk(d) && Test(d, e).Some? && (e.BalanceOpened? ==> e.rz != "")
    ensures SeenOk(d, Test(d, e).value) && PatchOk(Test(d, e).value.patch)
  {
    if !e.Created? {
      assert R.ReplacementOk(d.requests[e.id]);
    }
  }

  lemma RowOnTime(d: R.Desk, ch: Change)
    requires SeenOk(d, ch) && !ch.patch.Adds? && R.ReplacementOk(d.requests[ch.id])
    requires d.requests[ch.id].status == ch.seen && d.requests[ch.id].balance == ch.balance
    ensures R.ReplacementOk(Row(d.requests[ch.id], ch.patch))
  {
  }

  lemma LandOk(w: World, e: Event)
    requires Calm(w) && OnTime(w, e) && Lands(w, e)
    ensures AllOk(Step(w, e).d)
  {
    var ch := w.pending[e.change];
    assert SeenOk(w.d, ch);
    if !ch.patch.Adds? {
      RowOnTime(w.d, ch);
    }
    hide R.ReplacementOk, Row, Land, Step;
    forall i | 0 <= i < |Step(w, e).d.requests|
      ensures R.ReplacementOk(Step(w, e).d.requests[i])
    {
      StepRows(w, e, i);
    }
  }

  lemma SeenStays(w: World, e: Event, ch: Change)
    requires SeenOk(w.d, ch)
    ensures SeenOk(Step(w, e).d, ch)
  {
  }

  lemma CalmStep(w: World, e: Event)
    requires Calm(w) && OnTime(w, e) && Allowed(e)
    ensures Calm(Step(w, e))
  {
    StepWellFormed(w, e);
    if Lands(w, e) {
      LandOk(w, e);
    }
    if e.Tested? && Test(w.d, e.call).Some? {
      TestSeen(w.d, e.call);
    }
    hide Test, Land, R.ReplacementOk, SeenOk, WellFormed;
    var w' := Step(w, e);
    forall k | 0 <= k < |w'.pending|
      ensures SeenOk(w'.d, w'.pending[k])
    {
      if w'.pending[k] in w.pending {
        SeenStays(w, e, w'.pending[k]);
      }
    }
  }

  /**
   If every new request finds no open one and every other write the status and balance
   its test saw, then throughout: fulfilment is paid, every order has one open request,
   and statuses keep to the arrows.
   */
  lemma {:induction false} OnTimeRunsAreSafe(w: World, es: seq<Event>)
    requires Calm(w) && OnTimeRun(w, es) && forall k :: 0 <= k < |es| ==> Allowed(es[k])
    ensures Calm(Run(w, es)) && NoneUnpaid(w, es) && NoneDoubled(w, es) && NoneOffArrow(w, es)
  {
    if es != [] {
      var front := es[..|es| - 1];
      OnTimeRunsAreSafe(w, front);
      OnTimeIsClean(Run(w, front), es[|es| - 1]);
      CalmStep(Run(w, front), es[|es| - 1]);
      hide Step, Calm, LandsUnpaid, Doubles, OffArrow;
    }
  }

  // ---------- what overlapping can break ----------

  /** Two submissions for one order that both passed their checks both become requests. */
  lemma TwoAtOnce(d: R.Desk, e: R.Event)
    requires e.Created? && NewRow(d, e).Some?
    ensures var w := Run(World(d, []), [Tested(e)] + [Tested(e)] + [Landed(0)] + [Landed(0)]);
            var n := |d.requests|;
            |w.d.requests| == n + 2 && R.BothOpen(w.d.requests[n], w.d.requests[n + 1])
            && w.d.requests[n].orderId == e.orderId
  {
    var w := World(d, []);
    var ch := Test(d, e).value;
    assert ch.patch == Adds(NewRow(d, e).value);
    RunSnoc(w, [], Tested(e));
    RunSnoc(w, [Tested(e)], Tested(e));
    RunSnoc(w, [Tested(e)] + [Tested(e)], Landed(0));
    RunSnoc(w, [Tested(e)] + [Tested(e)] + [Landed(0)], Landed(0));
    assert [] + [Tested(e)] == [Tested(e)];
    hide NewRow, Test;
    var w2 := Step(Step(w, Tested(e)), Tested(e));
    assert w2.pending == [ch, ch];
  }

  /** A write already pending when a whole call is made stays where it was. */
  lemma WholeCallPast(w: World, e: R.Event)
    requires !e.Tick? && Test(w.d, e).Some? && !Refused(w.d, Test(w.d, e).value)
    ensures Step(Step(w, Tested(e)), Landed(|w.pending|)) == World(R.Step(w.d, e), w.pending)
  {
    WholeCall(w.d, e);
    var ch := Test(w.d, e).value;
    assert ch.patch.Adds? || ch.id < |w.d.requests|;
    hide Test, Land, R.Step, Refused;
    assert Without(w.pending + [ch], |w.pending|) == w.pending;
  }

  /** The calls of the story below, on a request under review with a balance of at least a rupee. */
  datatype Story = Story(
    id: nat, buyers: map<R.UserId, Shop.BuyerId>, u: R.UserId, rz: R.RzId, pay: string,
    seller: Shop.SellerId, video: string)
  {
    function Approve(): R.Event { R.Decided(id, true) }
    function Open(): R.Event { R.BalanceOpened(buyers, u, id, rz) }
    function Verify(): R.Event { R.BalanceVerified(buyers, u, id, rz, pay, true) }
    function Pack(): R.Event { R.Packed(id, Some(seller), Some(video)) }

    predicate Fits(d: R.Desk) {
      && id < |d.requests| && d.requests[id].status == R.PENDING_ADMIN_REVIEW && d.requests[id].rzOrderId.None?
      && d.requests[id].balance == R.NONE && d.requests[id].balanceDue > 0.0
      && Round(d.requests[id].balanceDue * 100.0) >= 100
      && u in buyers && d.requests[id].buyer == buyers[u] && d.requests[id].seller == seller
      && rz != "" && video != "" && !R.RzTaken(d, id, rz) && !R.PayTaken(d, id, pay)
    }
  }

  /** Approval, opening and verification one after the other. */
  lemma PaidUp(d: R.Desk, s: Story)
    requires s.Fits(d)
    ensures var d1 := R.Step(d, s.Approve());
            var d2 := R.Step(d1, s.Open());
            var d3 := R.Step(d2, s.Verify());
            && Test(d, s.Approve()) == Some(Change(s.id, R.PENDING_ADMIN_REVIEW, R.NONE, Approves))
            && (Test(d1, s.Open()).Some? && !Refused(d1, Test(d1, s.Open()).value))
            && (Test(d2, s.Verify()).Some? && !Refused(d2, Test(d2, s.Verify()).value))
            && s.id < |d3.requests| && d3.requests[s.id].status == R.APPROVED && d3.requests[s.id].balance == R.PAID
            && d3.requests[s.id].balanceDue == d.requests[s.id].balanceDue && d3.requests[s.id].seller == s.seller
  {
    hide Round;
  }

  /**
   Two approvals are both tested before the first is written. The buyer opens and pays the
   balance; the second approval lands and makes it due again; and a packing tested before
   that packs the unpaid replacement.
   */
  lemma LateApprovalUnpays(d: R.Desk, s: Story)
    requires s.Fits(d)
    ensures var es := [Tested(s.Approve())] + [Tested(s.Approve())] + [Landed(1)] + [Tested(s.Open())] + [Landed(1)]
                      + [Tested(s.Verify())] + [Landed(1)] + [Tested(s.Pack())] + [Landed(0)] + [Landed(0)];
            var r := Run(World(d, []), es).d.requests;
            s.id < |r| && r[s.id].status == R.PACKED && r[s.id].balance == R.PENDING && !PaidOk(r[s.id])
  {
    PaidUp(d, s);
    var late := Test(d, s.Approve()).value;
    var w0, w1 := World(d, []), World(d, [late]);
    var d1 := R.Step(d, s.Approve());
    var d2 := R.Step(d1, s.Open());
    var d3 := R.Step(d2, s.Verify());
    WholeCallPast(w1, s.Approve());
    WholeCallPast(World(d1, [late]), s.Open());
    WholeCallPast(World(d2, [late]), s.Verify());
    PackedUnpaid(d3, s, late);
    hide Step, R.Step, Test, Land, Refused, Story.Fits;
    var es3 := [Tested(s.Approve())] + [Tested(s.Approve())] + [Landed(1)];
    assert Run(w0, es3) == World(d1, [late]) by {
      FirstTested(w0, s.Approve());
      RunSnoc(w0, [], Tested(s.Approve()));
      assert [] + [Tested(s.Approve())] == [Tested(s.Approve())];
      RunSnoc(w0, [Tested(s.Approve())], Tested(s.Approve()));
      RunSnoc(w0, [Tested(s.Approve())] + [Tested(s.Approve())], Landed(1));
    }
    var es5 := es3 + [Tested(s.Open())] + [Landed(1)];
    RunSnoc(w0, es3, Tested(s.Open()));
    RunSnoc(w0, es3 + [Tested(s.Open())], Landed(1));
    var es7 := es5 + [Tested(s.Verify())] + [Landed(1)];
    RunSnoc(w0, es5, Tested(s.Verify()));
    RunSnoc(w0, es5 + [Tested(s.Verify())], Landed(1));
    RunSnoc(w0, es7, Tested(s.Pack()));
    RunSnoc(w0, es7 + [Tested(s.Pack())], Landed(0));
    RunSnoc(w0, es7 + [Tested(s.Pack())] + [Landed(0)], Landed(0));
  }

  lemma FirstTested(w: World, e: R.Event)
    requires Test(w.d, e).Some?
    ensures Step(w, Tested(e)) == w.(pending := w.pending + [Test(w.d, e).value])
  {
  }

  lemma PackedUnpaid(d: R.Desk, s: Story, late: Change)
    requires s.id < |d.requests| && d.requests[s.id].status == R.APPROVED && d.requests[s.id].balance == R.PAID
    requires d.requests[s.id].balanceDue > 0.0 && d.requests[s.id].seller == s.seller && s.video != ""
    requires late == Change(s.id, R.PENDING_ADMIN_REVIEW, R.NONE, Approves)
    ensures var w := Step(Step(Step(World(d, [late]), Tested(s.Pack())), Landed(0)), Landed(0));
            && s.id < |w.d.requests| && w.d.requests[s.id].status == R.PACKED
            && w.d.requests[s.id].balance == R.PENDING && !PaidOk(w.d.requests[s.id])
  {
    assert Test(d, s.Pack()) == Some(Change(s.id, R.APPROVED, R.PAID, Packs(Some(s.video))));
  }

  // ---------- two openings of one balance ----------

  /** While its session lives, a payment on a Razorpay id can be verified exactly while that id is the stored one. */
  lemma VerifiableExactly(d: R.Desk, buyers: map<R.UserId, Shop.BuyerId>, u: R.UserId, id: nat, rz: R.RzId, pay: string)
    requires id < |d.requests| && d.requests[id].balance != R.PAID && u in buyers && d.requests[id].buyer == buyers[u]
    requires var s := d.sessions.Get(rz, d.now); s.Some? && s.value.user == u && s.value.replacement == id
    ensures Test(d, R.BalanceVerified(buyers, u, id, rz, pay, true)).Some? <==> d.requests[id].rzOrderId == Some(rz)
  {
  }

  /** The balance of this request can be opened by its buyer. */
  predicate Opening(d: R.Desk, buyers: map<R.UserId, Shop.BuyerId>, u: R.UserId, id: nat) {
    && id < |d.requests| && u in buyers && d.requests[id].buyer == buyers[u]
    && d.requests[id].status == R.AWAITING_PAYMENT && d.requests[id].rzOrderId.None?
    && d.requests[id].balance != R.PAID && d.requests[id].balanceDue > 0.0
    && Round(d.requests[id].balanceDue * 100.0) >= 100
  }

  function OpenChange(d: R.Desk, u: R.UserId, id: nat, rz: R.RzId): Change
    requires id < |d.requests|
  {
    Change(id, d.requests[id].status, d.requests[id].balance,
           Opens(rz, R.BalanceSession(u, id, Round(d.requests[id].balanceDue * 100.0))))
  }

  lemma OpenTested(w: World, buyers: map<R.UserId, Shop.BuyerId>, u: R.UserId, id: nat, rz: R.RzId)
    requires Opening(w.d, buyers, u, id)
    ensures Step(w, Tested(R.BalanceOpened(buyers, u, id, rz)))
         == w.(pending := w.pending + [OpenChange(w.d, u, id, rz)])
  {
  }

  lemma BothOpened(d: R.Desk, u: R.UserId, id: nat, rz1: R.RzId, rz2: R.RzId)
    requires id < |d.requests| && rz1 != rz2 && !R.RzTaken(d, id, rz1) && !R.RzTaken(d, id, rz2)
    ensures var w := World(d, [OpenChange(d, u, id, rz1), OpenChange(d, u, id, rz2)]);
            var d' := Step(Step(w, Landed(0)), Landed(0)).d;
            && id < |d'.requests| && d'.requests[id].rzOrderId == Some(rz2) && d'.sessions.Get(rz1, d'.now).Some?
  {
    hide Round;
  }

  lemma OldIdRefused(d: R.Desk, buyers: map<R.UserId, Shop.BuyerId>, u: R.UserId, id: nat, rz: R.RzId, pay: string)
    requires id < |d.requests| && d.requests[id].rzOrderId != Some(rz)
    ensures Test(d, R.BalanceVerified(buyers, u, id, rz, pay, true)).None?
  {
  }

  /** Two openings that overlap: the second id replaces the first, whose session still lives. */
  lemma SecondIdReplaces(d: R.Desk, buyers: map<R.UserId, Shop.BuyerId>, u: R.UserId, id: nat, rz1: R.RzId, rz2: R.RzId)
    requires id < |d.requests| && Opening(d, buyers, u, id)
    requires rz1 != rz2 && !R.RzTaken(d, id, rz1) && !R.RzTaken(d, id, rz2)
    ensures var es := [Tested(R.BalanceOpened(buyers, u, id, rz1))] + [Tested(R.BalanceOpened(buyers, u, id, rz2))]
                      + [Landed(0)] + [Landed(0)];
            var d' := Run(World(d, []), es).d;
            && id < |d'.requests| && d'.requests[id].rzOrderId == Some(rz2) && d'.sessions.Get(rz1, d'.now).Some?
            && forall pay :: Test(d', R.BalanceVerified(buyers, u, id, rz1, pay, true)).None?
  {
    hide Step, Opening, Test, OpenChange;
    var w := World(d, []);
    var a, b := Tested(R.BalanceOpened(buyers, u, id, rz1)), Tested(R.BalanceOpened(buyers, u, id, rz2));
    var c1, c2 := OpenChange(d, u, id, rz1), OpenChange(d, u, id, rz2);
    OpenTested(w, buyers, u, id, rz1);
    OpenTested(World(d, [c1]), buyers, u, id, rz2);
    BothOpened(d, u, id, rz1, rz2);
    assert [] + [c1] == [c1] && [c1] + [c2] == [c1, c2];
    RunSnoc(w, [], a);
    RunSnoc(w, [a], b);
    RunSnoc(w, [a] + [b], Landed(0));
    RunSnoc(w, [a] + [b] + [Landed(0)], Landed(0));
    assert [] + [a] == [a];
    var d' := Run(w, [a] + [b] + [Landed(0)] + [Landed(0)]).d;
    forall pay
      ensures Test(d', R.BalanceVerified(buyers, u, id, rz1, pay, true)).None?
    {
      OldIdRefused(d', buyers, u, id, rz1, pay);
    }
  }

  /** No pending write carries the id, and the provider does not give it again. */
  predicate NotComing(w: World, rz: R.RzId) {
    forall k :: 0 <= k < |w.pending| ==> !(w.pending[k].patch.Opens? && w.pending[k].patch.rz == rz)
  }

  /** A replaced id never becomes the stored one again, so a payment made on it is never verified. */
  lemma {:induction false} ReplacedForGood(w: World, es: seq<Event>, id: nat, rz: R.RzId)
    requires NotComing(w, rz) && id < |w.d.requests| && w.d.requests[id].rzOrderId != Some(rz)
    requires forall k :: 0 <= k < |es| ==> !(es[k].Tested? && es[k].call.BalanceOpened? && es[k].call.rz == rz)
    ensures NotComing(Run(w, es), rz) && id < |Run(w, es).d.requests|
    ensures Run(w, es).d.requests[id].rzOrderId != Some(rz)
  {
    if es != [] {
      ReplacedForGood(w, es[..|es| - 1], id, rz);
      ReplacedStep(Run(w, es[..|es| - 1]), es[|es| - 1], id, rz);
    }
  }

  lemma ReplacedStep(w: World, e: Event, id: nat, rz: R.RzId)
    requires NotComing(w, rz) && id < |w.d.requests| && w.d.requests[id].rzOrderId != Some(rz)
    requires !(e.Tested? && e.call.BalanceOpened? && e.call.rz == rz)
    ensures NotComing(Step(w, e), rz) && id < |Step(w, e).d.requests|
    ensures Step(w, e).d.requests[id].rzOrderId != Some(rz)
  {
  }

  lemma RunSnoc(w: World, es: seq<Event>, e: Event)
    ensures Run(w, es + [e]) == Step(Run(w, es), e)
  {
  }
}
