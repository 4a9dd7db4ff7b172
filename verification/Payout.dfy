/** What a seller keeps of a customer price, before and after rounding for display. */
module Payout {
  import opened Money

  datatype Rates = Rates(gateway: real, serviceGst: real, commission: real, logistics: real)

  /** Rates are fractions; the logistics base is in paise. */
  const DEFAULT_RATES := Rates(0.02, 0.18, 0.05, 7500.0)

  datatype Breakdown = Breakdown(
    gateway: real, logistics: real, commission: real, net: real,
    shownGateway: int, shownLogistics: int, shownCommission: int, shownNet: int)

  function CommissionRate(waived: bool, r: Rates): real {
    if waived then 0.0 else r.commission
  }

  function Calculate(price: real, waived: bool, r: Rates): Breakdown {
    var gatewayBase := price * r.gateway;
    var gateway := gatewayBase + gatewayBase * r.serviceGst;
    var logistics := r.logistics + r.logistics * r.serviceGst;
    var commissionBase := (price - gateway - logistics) * CommissionRate(waived, r);
    var commission := commissionBase + commissionBase * r.serviceGst;
    var net := price - gateway - logistics - commission;
    Breakdown(gateway, logistics, commission, net,
              -Round(gateway), -Round(logistics), if commission <= 0.0 then 0 else -Round(commission), Round(net))
  }

  /** What the seller is shown, put back together. */
  function Shown(b: Breakdown): int {
    b.shownNet - b.shownGateway - b.shownLogistics - b.shownCommission
  }

  /**
   The four figures make up the price before rounding. Displayed, they come within two
   paise of it, unless the commission is negative. Then zero commission is shown while
   the net keeps the difference, and the displayed sum exceeds the price by that hidden
   amount, give or take 1.5 paise.
   */
  lemma DisplayedSum(price: int, waived: bool, r: Rates)
    ensures var b := Calculate(price as real, waived, r);
            && b.gateway + b.logistics + b.commission + b.net == price as real
            && (b.commission >= 0.0 ==> -2 <= Shown(b) - price <= 2)
            && (b.commission < 0.0 ==>
                  -1.5 <= (Shown(b) - price) as real + b.commission <= 1.5)
  {
  }

  /** With the default rates the commission is negative exactly below a price of about 90.64 rupees, unwaived. */
  lemma NegativeCommission(price: int, waived: bool)
    ensures Calculate(price as real, waived, DEFAULT_RATES).commission < 0.0 <==> !waived && price <= 9063
  {
  }

  /** A higher price always leaves the seller more. */
  lemma NetIncreases(p: real, q: real, waived: bool)
    requires p < q
    ensures Calculate(p, waived, DEFAULT_RATES).net < Calculate(q, waived, DEFAULT_RATES).net
  {
  }

  /**
   What is left of a price, for any rates: each fee carries its GST, and the commission is
   taken of what gateway and logistics leave.
   */
  lemma NetClosedForm(price: real, waived: bool, r: Rates)
    ensures var (b, gst) := (Calculate(price, waived, r), 1.0 + r.serviceGst);
            && b.gateway == price * (r.gateway * gst)
            && b.logistics == r.logistics * gst
            && b.net == (price * (1.0 - r.gateway * gst) - r.logistics * gst)
                        * (if waived then 1.0 else 1.0 - r.commission * gst)
  {
    var b := Calculate(price, waived, r);
    var (gst, rest) := (1.0 + r.serviceGst, price - b.gateway - b.logistics);
    Grossed(price * r.gateway, r.serviceGst);
    Grossed(r.logistics, r.serviceGst);
    Grossed(rest * CommissionRate(waived, r), r.serviceGst);
    Regrouped(price, r.gateway, gst);
    Regrouped(rest, CommissionRate(waived, r), gst);
    Left(price, r.gateway * gst);
    Left(rest, CommissionRate(waived, r) * gst);
  }

  lemma Grossed(x: real, rate: real)
    ensures x + x * rate == x * (1.0 + rate)
  {
  }

  lemma Regrouped(x: real, a: real, b: real)
    ensures x * a * b == x * (a * b)
  {
  }

  lemma Left(x: real, rate: real)
    ensures x - x * rate == x * (1.0 - rate)
  {
  }

  /** With the default rates: 2.36 percent of the price, 88.50 rupees, and 5.9 percent of the rest unless waived. */
  lemma DefaultFees(price: real, waived: bool)
    ensures var b := Calculate(price, waived, DEFAULT_RATES);
            && 10_000.0 * b.gateway == 236.0 * price && b.logistics == 8850.0
            && 1000.0 * b.commission == (if waived then 0.0 else 59.0 * (price - b.gateway - b.logistics))
            && b.shownLogistics == -8850 && -0.5 <= b.net - b.shownNet as real <= 0.5
            && -0.5 <= b.gateway + b.shownGateway as real <= 0.5
            && (b.commission > 0.0 ==> -0.5 <= b.commission + b.shownCommission as real <= 0.5)
            && (b.commission <= 0.0 ==> b.shownCommission == 0)
  {
  }
}
