// Prorated plan changes (src/billing/billing.service.ts, calculatePlanChangeProration). Amounts
// are whole cents, the ratio is an exact rational, and rounding is toFixed(2) of section 21.1.3.3
// of ECMA-262: to the nearest cent, ties away from zero.
module Proration {
  import opened Seqs
  import opened Text

  datatype Behavior = NoProration | CreateProrationInvoice | CreditNextInvoice

  // The subscription's side and the next plan's side of a plan change.
  datatype Change = Change(
    oldPrice: real, oldCurrency: string, newPrice: real, newCurrency: string, seatCount: int,
    periodStart: Option<int>, periodEnd: Option<int>, behavior: Behavior)

  datatype Proration = Proration(
    creditAmount: int, invoiceAmount: int, oldPeriodAmount: int, newPeriodAmount: int,
    remainingRatio: real, unsupportedCurrencyChange: bool)

  function NormalizeCurrency(currency: string): string {
    Upper(Trim(currency))
  }

  // Number(x.toFixed(2)) in cents, for an amount of c cents.
  function RoundCents(c: real): int {
    if c < 0.0 then -((-c + 0.5).Floor) else (c + 0.5).Floor
  }

  // roundMoney of an amount in currency units.
  function RoundMoney(value: real): int {
    RoundCents(value * 100.0)
  }

  // The source tests the two instants by truthiness, so the epoch counts as missing.
  predicate Truthy(t: Option<int>) {
    t.Some? && t.value != 0
  }

  function RemainingRatio(periodStart: Option<int>, periodEnd: Option<int>, now: int): real {
    if Truthy(periodStart) && Truthy(periodEnd) && periodEnd.value > periodStart.value && periodEnd.value > now then
      var ratio := (periodEnd.value - now) as real / (periodEnd.value - periodStart.value) as real;
      if ratio > 1.0 then 1.0 else if ratio < 0.0 then 0.0 else ratio
    else 0.0
  }

  // The price of one period for all seats.
  function PeriodAmount(price: real, seatCount: int): int {
    RoundMoney(price * seatCount as real)
  }

  // n * r, as a sum of n terms; ScaledIsProduct says so.
  function Scaled(n: int, r: real): real
    decreases n < 0, if n < 0 then -n else n
  {
    if n == 0 then 0.0 else if n < 0 then -Scaled(-n, r) else Scaled(n - 1, r) + r
  }

  function NetChange(difference: int, ratio: real): int {
    RoundCents(Scaled(difference, ratio))
  }

  // The credit and the invoice of a net change.
  function Credit(net: int): int {
    if net < 0 then -net else 0
  }

  function Invoice(behavior: Behavior, net: int): int {
    if behavior == CreateProrationInvoice && net > 0 then net else 0
  }

  function Settle(behavior: Behavior, oldAmount: int, newAmount: int, ratio: real): Proration {
    var net := NetChange(newAmount - oldAmount, ratio);
    Proration(Credit(net), Invoice(behavior, net), oldAmount, newAmount, ratio, false)
  }

  function Calculate(c: Change, now: int): Proration {
    var oldCurrency, nextCurrency := NormalizeCurrency(c.oldCurrency), NormalizeCurrency(c.newCurrency);
    var oldAmount, newAmount := PeriodAmount(c.oldPrice, c.seatCount), PeriodAmount(c.newPrice, c.seatCount);
    if c.behavior == NoProration || oldCurrency != nextCurrency then
      Proration(0, 0, oldAmount, newAmount, 0.0, oldCurrency != nextCurrency)
    else
      Settle(c.behavior, oldAmount, newAmount, RemainingRatio(c.periodStart, c.periodEnd, now))
  }

  function Abs(x: int): int {
    if x < 0 then -x else x
  }

  // ---------- Rounding ----------

  // The rounded amount is a nearest whole cent; on a tie it is the one further from zero.
  lemma RoundsToNearest(c: real)
    ensures -0.5 <= RoundCents(c) as real - c <= 0.5
    ensures RoundCents(c) as real - c == 0.5 ==> c >= 0.0
    ensures RoundCents(c) as real - c == -0.5 ==> c < 0.0
  {
  }

  lemma RoundIsOdd(c: real)
    ensures RoundCents(-c) == -RoundCents(c)
  {
  }

  lemma RoundIsMonotone(a: real, b: real)
    requires a <= b
    ensures RoundCents(a) <= RoundCents(b)
  {
    if a < 0.0 && b < 0.0 {
      FloorIsMonotone(-b + 0.5, -a + 0.5);
    } else if a >= 0.0 {
      FloorIsMonotone(a + 0.5, b + 0.5);
    } else {
      FloorIsMonotone(0.0, -a + 0.5);
      FloorIsMonotone(0.0, b + 0.5);
    }
  }

  lemma FloorIsMonotone(a: real, b: real)
    requires a <= b
    ensures a.Floor <= b.Floor
  {
  }

  lemma RoundOfWhole(n: int)
    ensures RoundCents(n as real) == n
  {
  }

  // ---------- The ratio ----------

  lemma RatioIsBounded(periodStart: Option<int>, periodEnd: Option<int>, now: int)
    ensures 0.0 <= RemainingRatio(periodStart, periodEnd, now) <= 1.0
  {
  }

  lemma DivideMonotone(a: real, b: real, d: real)
    requires a <= b && d > 0.0
    ensures a / d <= b / d
  {
  }

  // Time only uses a period up.
  lemma RatioFalls(periodStart: Option<int>, periodEnd: Option<int>, now: int, later: int)
    requires now <= later
    ensures RemainingRatio(periodStart, periodEnd, later) <= RemainingRatio(periodStart, periodEnd, now)
  {
    RatioIsBounded(periodStart, periodEnd, now);
    RatioIsBounded(periodStart, periodEnd, later);
    if Truthy(periodStart) && Truthy(periodEnd) && periodEnd.value > periodStart.value {
      DivideMonotone((periodEnd.value - later) as real, (periodEnd.value - now) as real,
                     (periodEnd.value - periodStart.value) as real);
    }
  }

  // ---------- The amounts ----------

  lemma {:induction false} ScaledIsProduct(n: int, r: real)
    ensures Scaled(n, r) == n as real * r
    decreases n < 0, if n < 0 then -n else n
  {
    if n < 0 {
      ScaledIsProduct(-n, r);
      assert (-n) as real * r == -(n as real * r);
    } else if n > 0 {
      ScaledIsProduct(n - 1, r);
      assert (n - 1) as real * r + r == n as real * r;
    }
  }

  lemma {:induction false} ScaledMonotone(n: nat, r: real, q: real)
    requires r <= q
    ensures Scaled(n, r) <= Scaled(n, q)
  {
    if n > 0 {
      ScaledMonotone(n - 1, r, q);
    }
  }

  lemma {:induction false} ScaledAtTheEnds(n: nat)
    ensures Scaled(n, 0.0) == 0.0 && Scaled(n, 1.0) == n as real
  {
    if n > 0 {
      ScaledAtTheEnds(n - 1);
    }
  }

  lemma NetChangeIsOdd(difference: int, ratio: real)
    ensures NetChange(-difference, ratio) == -NetChange(difference, ratio)
  {
    RoundIsOdd(Scaled(difference, ratio));
    RoundIsOdd(Scaled(-difference, ratio));
    if difference == 0 { RoundOfWhole(0); }
  }

  lemma NetChangeIsMonotone(difference: nat, r: real, q: real)
    requires r <= q
    ensures NetChange(difference, r) <= NetChange(difference, q)
  {
    ScaledMonotone(difference, r, q);
    RoundIsMonotone(Scaled(difference, r), Scaled(difference, q));
  }

  lemma NetChangeAtTheEnds(difference: nat)
    ensures NetChange(difference, 1.0) == difference && NetChange(difference, 0.0) == 0
  {
    ScaledAtTheEnds(difference);
    RoundOfWhole(difference);
    RoundOfWhole(0);
  }

  // The rounded net change lies between zero and the whole difference.
  lemma NetChangeIsBounded(difference: nat, ratio: real)
    requires 0.0 <= ratio <= 1.0
    ensures 0 <= NetChange(difference, ratio) <= difference
  {
    NetChangeIsMonotone(difference, 0.0, ratio);
    NetChangeIsMonotone(difference, ratio, 1.0);
    NetChangeAtTheEnds(difference);
  }

  // The ratio is in [0, 1]; a change credits or invoices, never both, and never more than the
  // difference of the two period amounts; a dearer plan is never credited, a cheaper one never
  // invoiced.
  lemma ProrationIsBounded(c: Change, now: int)
    ensures var p := Calculate(c, now);
            && 0.0 <= p.remainingRatio <= 1.0
            && 0 <= p.creditAmount <= Abs(p.newPeriodAmount - p.oldPeriodAmount)
            && 0 <= p.invoiceAmount <= Abs(p.newPeriodAmount - p.oldPeriodAmount)
            && (p.creditAmount > 0 ==> p.invoiceAmount == 0 && p.newPeriodAmount < p.oldPeriodAmount)
            && (p.invoiceAmount > 0 ==> p.creditAmount == 0 && p.newPeriodAmount > p.oldPeriodAmount)
  {
    var p := Calculate(c, now);
    RatioIsBounded(c.periodStart, c.periodEnd, now);
    var difference := p.newPeriodAmount - p.oldPeriodAmount;
    NetChangeIsOdd(difference, p.remainingRatio);
    NetChangeIsBounded(Abs(difference), p.remainingRatio);
  }

  // The same change the other way round.
  function Swap(c: Change): Change {
    c.(oldPrice := c.newPrice, oldCurrency := c.newCurrency, newPrice := c.oldPrice, newCurrency := c.oldCurrency)
  }

  // What moving to a plan invoices is what moving back at the same moment credits.
  lemma SwappingPlansSwapsAmounts(c: Change, now: int)
    requires c.behavior != CreditNextInvoice
    ensures var p, q := Calculate(c, now), Calculate(Swap(c), now);
            p.creditAmount == q.invoiceAmount && p.invoiceAmount == q.creditAmount
            && p.remainingRatio == q.remainingRatio
  {
    var difference := PeriodAmount(c.newPrice, c.seatCount) - PeriodAmount(c.oldPrice, c.seatCount);
    NetChangeIsOdd(difference, RemainingRatio(c.periodStart, c.periodEnd, now));
  }

  // Under credit_next_invoice nothing is ever invoiced, but a cheaper plan is credited the same.
  lemma CreditOnlyNeverInvoices(c: Change, now: int)
    requires c.behavior == CreditNextInvoice
    ensures Calculate(c, now).invoiceAmount == 0
    ensures Calculate(c, now).creditAmount == Calculate(c.(behavior := CreateProrationInvoice), now).creditAmount
  {
  }

  // A later change of plan never raises the credit or the invoice.
  lemma LaterChangeNeverCostsMore(c: Change, now: int, later: int)
    requires now <= later
    ensures Calculate(c, later).creditAmount <= Calculate(c, now).creditAmount
    ensures Calculate(c, later).invoiceAmount <= Calculate(c, now).invoiceAmount
  {
    var difference := PeriodAmount(c.newPrice, c.seatCount) - PeriodAmount(c.oldPrice, c.seatCount);
    var r, q := RemainingRatio(c.periodStart, c.periodEnd, later), RemainingRatio(c.periodStart, c.periodEnd, now);
    RatioFalls(c.periodStart, c.periodEnd, now, later);
    RatioIsBounded(c.periodStart, c.periodEnd, now);
    RatioIsBounded(c.periodStart, c.periodEnd, later);
    NetChangeIsOdd(difference, r);
    NetChangeIsOdd(difference, q);
    NetChangeIsMonotone(Abs(difference), r, q);
    NetChangeIsBounded(Abs(difference), r);
  }

  lemma QuotientAtLeastOne(a: real, b: real)
    requires a >= b > 0.0
    ensures a / b >= 1.0
  {
    DivideMonotone(b, a, b);
    assert b / b == 1.0;
  }

  lemma RatioAtTheEnds(start: int, end: int, now: int)
    requires start != 0 && end != 0 && start < end
    ensures now <= start ==> RemainingRatio(Some(start), Some(end), now) == 1.0
    ensures now >= end ==> RemainingRatio(Some(start), Some(end), now) == 0.0
  {
    if now <= start {
      QuotientAtLeastOne((end - now) as real, (end - start) as real);
    }
  }

  // Before any of the period is used the whole difference is due, and once it has ended nothing is.
  lemma WholePeriodAndSpentPeriod(c: Change, now: int)
    requires c.behavior == CreateProrationInvoice
    requires NormalizeCurrency(c.oldCurrency) == NormalizeCurrency(c.newCurrency)
    requires Truthy(c.periodStart) && Truthy(c.periodEnd) && c.periodStart.value < c.periodEnd.value
    ensures var p := Calculate(c, now);
            && (now <= c.periodStart.value ==>
                p.invoiceAmount - p.creditAmount == p.newPeriodAmount - p.oldPeriodAmount)
            && (now >= c.periodEnd.value ==> p.invoiceAmount == 0 && p.creditAmount == 0)
  {
    RatioAtTheEnds(c.periodStart.value, c.periodEnd.value, now);
    var difference := PeriodAmount(c.newPrice, c.seatCount) - PeriodAmount(c.oldPrice, c.seatCount);
    NetChangeIsOdd(difference, 1.0);
    NetChangeIsOdd(difference, 0.0);
    NetChangeAtTheEnds(Abs(difference));
  }

  // ---------- What is due ----------

  // The whole cent nearest to an exact amount, on a tie the one further from zero.
  predicate NearestCent(cents: int, exact: real) {
    if exact >= 0.0 then cents as real - 0.5 <= exact < cents as real + 0.5
    else cents as real - 0.5 < exact <= cents as real + 0.5
  }

  lemma RoundIsNearest(c: real)
    ensures NearestCent(RoundCents(c), c)
  {
  }

  // One period costs the price for every seat.
  lemma PeriodCostsEverySeat(price: real, seatCount: int)
    ensures NearestCent(PeriodAmount(price, seatCount), price * seatCount as real * 100.0)
  {
    RoundIsNearest(price * seatCount as real * 100.0);
  }

  lemma ShareOfWhole(part: real, whole: real)
    requires whole > 0.0
    ensures part / whole * whole == part
  {
  }

  // The ratio is the share of the period that is left; without a period nothing is.
  lemma RatioIsShareLeft(periodStart: Option<int>, periodEnd: Option<int>, now: int)
    ensures var ratio := RemainingRatio(periodStart, periodEnd, now);
            if periodStart.Some? && periodEnd.Some? && periodStart.value != 0 && periodEnd.value != 0
               && periodStart.value < periodEnd.value then
              && (now <= periodStart.value ==> ratio == 1.0) && (periodEnd.value <= now ==> ratio == 0.0)
              && (periodStart.value <= now <= periodEnd.value ==>
                    ratio * (periodEnd.value - periodStart.value) as real == (periodEnd.value - now) as real)
            else ratio == 0.0
  {
    if periodStart.Some? && periodEnd.Some? && periodStart.value != 0 && periodEnd.value != 0
       && periodStart.value < periodEnd.value {
      var start, end := periodStart.value, periodEnd.value;
      RatioAtTheEnds(start, end, now);
      ShareOfWhole((end - now) as real, (end - start) as real);
      if start <= now <= end {
        DivideMonotone((end - now) as real, (end - start) as real, (end - start) as real);
        assert (end - start) as real / (end - start) as real == 1.0;
        DivideMonotone(0.0, (end - now) as real, (end - start) as real);
      }
    }
  }

  // The rounded net change is the nearest cent of the share, and never of the other sign.
  lemma NetIsNearestShare(difference: int, ratio: real)
    requires 0.0 <= ratio <= 1.0 && difference >= 0
    ensures NetChange(difference, ratio) >= 0 && NearestCent(NetChange(difference, ratio), Scaled(difference, ratio))
    ensures NetChange(-difference, ratio) == -NetChange(difference, ratio)
  {
    NetChangeIsOdd(difference, ratio);
    NetChangeIsBounded(difference, ratio);
    RoundIsNearest(Scaled(difference, ratio));
  }

  // A change between plans of one currency credits or invoices the share left of what their
  // periods differ by, Scaled being the product (ScaledIsProduct).
  lemma ShareLeftIsDue(c: Change, now: int)
    requires c.behavior != NoProration && Upper(Trim(c.oldCurrency)) == Upper(Trim(c.newCurrency))
    ensures var p := Calculate(c, now);
            var difference := p.newPeriodAmount - p.oldPeriodAmount;
            && p.remainingRatio == RemainingRatio(c.periodStart, c.periodEnd, now) && !p.unsupportedCurrencyChange
            && (if difference < 0 then NearestCent(p.creditAmount, Scaled(-difference, p.remainingRatio))
                else p.creditAmount == 0)
            && (if difference > 0 && c.behavior == CreateProrationInvoice
                then NearestCent(p.invoiceAmount, Scaled(difference, p.remainingRatio))
                else p.invoiceAmount == 0)
  {
    var oldAmount, newAmount := PeriodAmount(c.oldPrice, c.seatCount), PeriodAmount(c.newPrice, c.seatCount);
    SettledShare(c.behavior, oldAmount, newAmount, RemainingRatio(c.periodStart, c.periodEnd, now));
    RatioIsBounded(c.periodStart, c.periodEnd, now);
  }

  lemma SettledShare(behavior: Behavior, oldAmount: int, newAmount: int, ratio: real)
    requires 0.0 <= ratio <= 1.0
    ensures var p, difference := Settle(behavior, oldAmount, newAmount, ratio), newAmount - oldAmount;
            && (if difference < 0 then NearestCent(p.creditAmount, Scaled(-difference, ratio))
                else p.creditAmount == 0)
            && (if difference > 0 && behavior == CreateProrationInvoice
                then NearestCent(p.invoiceAmount, Scaled(difference, ratio)) else p.invoiceAmount == 0)
  {
    var difference := newAmount - oldAmount;
    NetIsNearestShare(Abs(difference), ratio);
  }

  // Without proration, or between currencies, it does neither; the amounts are those of the plans
  // in any case.
  lemma NothingIsDue(c: Change, now: int)
    ensures var p := Calculate(c, now);
            && p.oldPeriodAmount == PeriodAmount(c.oldPrice, c.seatCount)
            && p.newPeriodAmount == PeriodAmount(c.newPrice, c.seatCount)
            && (p.unsupportedCurrencyChange <==> Upper(Trim(c.oldCurrency)) != Upper(Trim(c.newCurrency)))
            && (c.behavior == NoProration || p.unsupportedCurrencyChange ==>
                  p.creditAmount == 0 && p.invoiceAmount == 0 && p.remainingRatio == 0.0)
  {
  }
}
