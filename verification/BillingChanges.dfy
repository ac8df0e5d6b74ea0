// Plan changes (src/billing/billing.service.ts, changePlan): the period and the adjustment an
// immediate change leaves, and the one way in which it can part a tenant from its subscription.
module BillingChanges {
  import opened Seqs
  import opened Calendar
  import opened Billing
  import opened BillingCoupling
  import P = Proration

  lemma OwnAfterWrite(subscriptions: seq<Subscription>, s: Subscription, t: Subscription)
    requires Keyed(subscriptions) && s in subscriptions && t.id == s.id && t.tenantId == s.tenantId
    ensures Keyed(Written(subscriptions, t)) && t in Written(subscriptions, t)
    ensures FindFirst(Written(subscriptions, t), Owned(t.tenantId, t.id)) == Some(t)
  {
    OwnRowIsFree(subscriptions, s, t);
    WrittenKeepsKeyed(subscriptions, t);
    WrittenRows(subscriptions, t, t);
    var found := FindFirst(Written(subscriptions, t), Owned(t.tenantId, t.id));
    assert Owned(t.tenantId, t.id)(t);
    KeyedRows(Written(subscriptions, t), t, found.value);
  }

  // The amount an immediate change asks for lies between nothing and what the plans differ by.
  lemma DueIsBounded(s: Subscription, current: Plan, plan: Plan, behavior: P.Behavior, now: int)
    ensures 0 <= Due(s, current, plan, behavior, now)
    ensures Due(s, current, plan, behavior, now)
            <= P.Abs(P.PeriodAmount(plan.price, s.seatCount) - P.PeriodAmount(current.price, s.seatCount))
  {
    P.ProrationIsBounded(ChangeOf(s, current, plan, behavior), now);
  }

  // It is the share left of what the plans' periods cost more for all seats, in a currency both
  // have, when the change is to be invoiced; else nothing.
  lemma DueIsShareLeft(s: Subscription, current: Plan, plan: Plan, behavior: P.Behavior, now: int, before: int,
                       after: int)
    requires P.NearestCent(before, current.price * s.seatCount as real * 100.0)
    requires P.NearestCent(after, plan.price * s.seatCount as real * 100.0)
    ensures var due := Due(s, current, plan, behavior, now);
            if behavior == P.CreateProrationInvoice && after > before
               && P.NormalizeCurrency(current.currency) == P.NormalizeCurrency(plan.currency)
            then P.NearestCent(due, P.Scaled(after - before, P.RemainingRatio(s.periodStart, s.periodEnd, now)))
            else due == 0
  {
    PeriodCosts(before, current.price, s.seatCount);
    PeriodCosts(after, plan.price, s.seatCount);
    var c := ChangeOf(s, current, plan, behavior);
    P.NothingIsDue(c, now);
    if behavior != P.NoProration && P.NormalizeCurrency(current.currency) == P.NormalizeCurrency(plan.currency) {
      P.ShareLeftIsDue(c, now);
    }
  }

  lemma PeriodCosts(cents: int, price: real, seatCount: int)
    requires P.NearestCent(cents, price * seatCount as real * 100.0)
    ensures cents == P.PeriodAmount(price, seatCount)
  {
    P.PeriodCostsEverySeat(price, seatCount);
    OneNearestCent(cents, P.PeriodAmount(price, seatCount), price * seatCount as real * 100.0);
  }

  lemma OneNearestCent(a: int, b: int, exact: real)
    requires P.NearestCent(a, exact) && P.NearestCent(b, exact)
    ensures a == b
  {
  }

  // An immediate change that succeeds puts the subscription on the plan for a whole new period
  // of the exact length of the plan's interval, revives it when it was cancelled, and bills the
  // adjustment, when one is due, as one open invoice over that period.
  lemma ImmediateChangeStartsPeriod(db: Db, r: Request, id: string, planId: string, behavior: P.Behavior, after: Db,
                                    s: Subscription, current: Plan, plan: Plan, t: Subscription)
    requires Keyed(db.subscriptions) && ChangePlan(db, r, id, planId, Immediate, behavior) == Reply(after, Ok(()))
    requires OwnSubscription(db, r.tenant, id) == Some(s) && FindPlan(db, s.planId) == Some(current)
    requires FindPlan(db, planId) == Some(plan)
    requires t == OwnSubscription(after, r.tenant, id).GetOr(s)
    ensures t.planId == planId && t.seatCount == s.seatCount
    ensures t.status == if s.status == CANCELLED then ACTIVE else s.status
    ensures t.periodStart == Some(r.now) && t.periodEnd.Some? && t.periodEnd.value >= r.now + MS_PER_DAY
    ensures t.periodEnd.value == r.now + PeriodDays(LocalDay(r.now, db.config.zone), plan.interval) * MS_PER_DAY
    ensures var due := Due(s, current, plan, behavior, r.now);
            after.invoices == if due == 0 then db.invoices
              else db.invoices[Adjustment(id, r.now) :=
                     Invoice(r.tenant, id, due, P.NormalizeCurrency(plan.currency), Open, t.periodStart, t.periodEnd,
                             None)]
  {
    OwnAfterWrite(db.subscriptions, s, Moved(db.config, s, plan, r.now));
    DueIsBounded(s, current, plan, behavior, r.now);
    IntervalLength(r.now, db.config.zone, plan.interval);
    IntervalEndsLater(r.now, db.config.zone, plan.interval);
  }

  // A change at the very start of a period asks for the whole difference.
  lemma WholeDifferenceIsDue(s: Subscription, current: Plan, plan: Plan, now: int)
    requires s.periodStart == Some(now) && s.periodEnd.Some? && 0 < now < s.periodEnd.value
    requires P.NormalizeCurrency(current.currency) == P.NormalizeCurrency(plan.currency)
    requires P.PeriodAmount(current.price, s.seatCount) < P.PeriodAmount(plan.price, s.seatCount)
    ensures Due(s, current, plan, P.CreateProrationInvoice, now) > 0
  {
    var c := ChangeOf(s, current, plan, P.CreateProrationInvoice);
    P.WholePeriodAndSpentPeriod(c, now);
    P.ProrationIsBounded(c, now);
  }

  // The three requests of a millisecond that part a tenant from its subscription: up to a plan,
  // cancel, and up to a dearer one. The second adjustment has the number of the first, so the
  // subscription is active again while its tenant stays cancelled.
  lemma SameMomentBreaksCoupling(db: Db, r: Request, s: Subscription, current: Plan, middle: Plan, dear: Plan,
                                 up: Db, off: Db)
    requires Coupled(db) && r.mayManage && r.now > 0
    requires OwnSubscription(db, r.tenant, s.id) == Some(s) && s.status == ACTIVE
    requires FindPlan(db, s.planId) == Some(current) && FindPlan(db, middle.id) == Some(middle)
    requires FindPlan(db, dear.id) == Some(dear)
    requires Usable(Some(middle)) && Usable(Some(dear))
    requires P.NormalizeCurrency(middle.currency) == P.NormalizeCurrency(dear.currency)
    requires P.PeriodAmount(middle.price, s.seatCount) < P.PeriodAmount(dear.price, s.seatCount)
    requires Due(s, current, middle, P.CreateProrationInvoice, r.now) > 0 && Adjustment(s.id, r.now) !in db.invoices
    requires up == ChangePlan(db, r, s.id, middle.id, Immediate, P.CreateProrationInvoice).db
    requires off == CancelSubscription(up, r, s.id).db
    ensures !Coupled(ChangePlan(off, r, s.id, dear.id, Immediate, P.CreateProrationInvoice).db)
  {
    var names := db.tenants.Keys;
    var row := Moved(db.config, s, middle, r.now);
    CoupledIsSound(db);
    ChangeKeepsSoundIff(db, r, s.id, middle.id, Immediate, P.CreateProrationInvoice, names, true);
    FirstChange(db, r, s, current, middle, row, up);
    SwitchKeepsSound(up, r, s.id, names, true);
    ThenCancel(up, r, row, off);
    ThirdIsCutShort(off, r, row, middle, dear);
    CutShortBreaks(off, r, s.id, dear.id, names);
  }

  // An instance: a subscription to a plan of 10, changed at the start of its period to one of 20,
  // cancelled, and changed to one of 30.
  lemma SameMomentExample(now: int) returns (db: Db, r: Request)
    requires now > 0
    ensures Coupled(db)
    ensures var up := ChangePlan(db, r, "s", "middle", Immediate, P.CreateProrationInvoice).db;
            var off := CancelSubscription(up, r, "s").db;
            !Coupled(ChangePlan(off, r, "s", "dear", Immediate, P.CreateProrationInvoice).db)
  {
    var current := Plan("current", 10.0, "USD", "month", true, false, None, None);
    var middle, dear := current.(id := "middle", price := 20.0), current.(id := "dear", price := 30.0);
    var s := Blank("s", "t").(planId := "current", status := ACTIVE, periodStart := Some(now),
                              periodEnd := Some(now + 1));
    r := Request("t", true, "", now);
    db := Db(map["t" := TenantStatusOf(ACTIVE)], [s], map[], map[], [current, middle, dear], Config(0, false));
    PricesRise();
    OneOfThree(db, r, s, current, middle, dear);
  }

  lemma OneOfThree(db: Db, r: Request, s: Subscription, current: Plan, middle: Plan, dear: Plan)
    requires db.subscriptions == [s] && db.plans == [current, middle, dear] && db.invoices == map[]
    requires Mirrors(db.tenants, s)
    requires r.mayManage && r.now > 0 && r.tenant == s.tenantId && s.status == ACTIVE && s.planId == current.id
    requires current.id != middle.id && current.id != dear.id && middle.id != dear.id && Usable(Some(middle))
    requires Usable(Some(dear))
    requires P.NormalizeCurrency(current.currency) == P.NormalizeCurrency(middle.currency)
             == P.NormalizeCurrency(dear.currency)
    requires P.PeriodAmount(current.price, s.seatCount) < P.PeriodAmount(middle.price, s.seatCount)
             < P.PeriodAmount(dear.price, s.seatCount)
    requires s.periodStart == Some(r.now) && s.periodEnd == Some(r.now + 1)
    ensures Coupled(db)
    ensures var up := ChangePlan(db, r, s.id, middle.id, Immediate, P.CreateProrationInvoice).db;
            var off := CancelSubscription(up, r, s.id).db;
            !Coupled(ChangePlan(off, r, s.id, dear.id, Immediate, P.CreateProrationInvoice).db)
  {
    assert Owned(s.tenantId, s.id)(s);
    ThreePlans(db.plans, current, middle, dear);
    WholeDifferenceIsDue(s, current, middle, r.now);
    var up := ChangePlan(db, r, s.id, middle.id, Immediate, P.CreateProrationInvoice).db;
    SameMomentBreaksCoupling(db, r, s, current, middle, dear, up, CancelSubscription(up, r, s.id).db);
  }

  lemma PricesRise()
    ensures P.PeriodAmount(10.0, 1) < P.PeriodAmount(20.0, 1) < P.PeriodAmount(30.0, 1)
  {
  }

  lemma ThreePlans(plans: seq<Plan>, a: Plan, b: Plan, c: Plan)
    requires plans == [a, b, c] && a.id != b.id && a.id != c.id && b.id != c.id
    ensures FindFirst(plans, PlanWithId(a.id)) == Some(a) && FindFirst(plans, PlanWithId(b.id)) == Some(b)
    ensures FindFirst(plans, PlanWithId(c.id)) == Some(c)
  {
    assert PlanWithId(a.id)(plans[0]) && PlanWithId(b.id)(plans[1]) && PlanWithId(c.id)(plans[2]);
  }

  lemma CutShortBreaks(db: Db, r: Request, id: string, planId: string, names: set<string>)
    requires Sound(db, names, true) && CutShort(db, r, id, planId, Immediate, P.CreateProrationInvoice)
    ensures !Coupled(ChangePlan(db, r, id, planId, Immediate, P.CreateProrationInvoice).db)
  {
    ChangeKeepsSoundIff(db, r, id, planId, Immediate, P.CreateProrationInvoice, names, true);
    CoupledIsSound(db);
    CoupledIsTables(db);
    StepKeepsTables(db, Ask(r, Change(id, planId, Immediate, P.CreateProrationInvoice)));
    CoupledIsSound(ChangePlan(db, r, id, planId, Immediate, P.CreateProrationInvoice).db);
  }

  lemma ThirdIsCutShort(db: Db, r: Request, row: Subscription, middle: Plan, dear: Plan)
    requires r.mayManage && r.now > 0 && row.planId == middle.id
    requires row.periodStart == Some(r.now)
    requires row.periodEnd == Some(Billing.AddInterval(db.config, r.now, middle.interval))
    requires OwnSubscription(db, r.tenant, row.id)
             == Some(row.(status := CANCELLED, cancelAtPeriodEnd := false, canceledAt := Some(r.now)))
    requires FindPlan(db, middle.id) == Some(middle) && FindPlan(db, dear.id) == Some(dear) && Usable(Some(dear))
    requires P.NormalizeCurrency(middle.currency) == P.NormalizeCurrency(dear.currency)
    requires P.PeriodAmount(middle.price, row.seatCount) < P.PeriodAmount(dear.price, row.seatCount)
    requires Adjustment(row.id, r.now) in db.invoices
    ensures CutShort(db, r, row.id, dear.id, Immediate, P.CreateProrationInvoice)
  {
    IntervalEndsLater(r.now, db.config.zone, middle.interval);
    WholeDifferenceIsDue(row.(status := CANCELLED, cancelAtPeriodEnd := false, canceledAt := Some(r.now)), middle,
                         dear, r.now);
  }

  lemma FirstChange(db: Db, r: Request, s: Subscription, current: Plan, middle: Plan, row: Subscription, up: Db)
    requires Keyed(db.subscriptions) && r.mayManage && Usable(Some(middle))
    requires OwnSubscription(db, r.tenant, s.id) == Some(s) && FindPlan(db, s.planId) == Some(current)
    requires FindPlan(db, middle.id) == Some(middle)
    requires Due(s, current, middle, P.CreateProrationInvoice, r.now) > 0 && Adjustment(s.id, r.now) !in db.invoices
    requires row == Moved(db.config, s, middle, r.now)
    requires up == ChangePlan(db, r, s.id, middle.id, Immediate, P.CreateProrationInvoice).db
    ensures OwnSubscription(up, r.tenant, s.id) == Some(row) && Adjustment(s.id, r.now) in up.invoices
    ensures up.plans == db.plans && up.config == db.config
  {
    OwnAfterWrite(db.subscriptions, s, row);
  }

  lemma ThenCancel(db: Db, r: Request, s: Subscription, off: Db)
    requires Keyed(db.subscriptions) && r.mayManage && OwnSubscription(db, r.tenant, s.id) == Some(s)
    requires off == CancelSubscription(db, r, s.id).db
    ensures OwnSubscription(off, r.tenant, s.id)
            == Some(s.(status := CANCELLED, cancelAtPeriodEnd := false, canceledAt := Some(r.now)))
    ensures off.plans == db.plans && off.config == db.config && off.invoices == db.invoices
  {
    OwnAfterWrite(db.subscriptions, s, s.(status := CANCELLED, cancelAtPeriodEnd := false, canceledAt := Some(r.now)));
  }

  // ---------- New subscriptions ----------

  // A subscription created without an end runs for one whole interval of its plan, and is on
  // trial exactly when the plan or the request gives it a trial, unless a status was sent.
  lemma NewSubscriptionRunsOneInterval(db: Db, r: Request, dto: CreateDto, plan: Plan, after: Db, s: Subscription)
    requires Keyed(db.subscriptions) && CreateSubscription(db, r, dto) == Reply(after, Ok(()))
    requires FindPlan(db, dto.planId) == Some(plan)
    requires dto.periodEnd.None? && s == SubscriptionOf(after, dto.tenantId.GetOr(r.tenant)).GetOr(Blank("", ""))
    ensures SubscriptionOf(db, dto.tenantId.GetOr(r.tenant)).None? && after.subscriptions == db.subscriptions + [s]
    ensures s.planId == dto.planId && s.periodStart.Some? && s.periodEnd.Some?
    ensures s.periodStart.value == dto.periodStart.GetOr(r.now)
    ensures var start := s.periodStart.value;
            s.periodEnd.value == start + PeriodDays(LocalDay(start, db.config.zone), plan.interval) * MS_PER_DAY
                >= start + MS_PER_DAY
    ensures dto.status.None? ==> (s.status == TRIALING <==> s.trialEndsAt.Some?) && s.status in {TRIALING, ACTIVE}
  {
    var tenant := dto.tenantId.GetOr(r.tenant);
    var row := NewSubscription(db.config, dto, plan, tenant, r.newId, r.now);
    var start := dto.periodStart.GetOr(r.now);
    IntervalLength(start, db.config.zone, plan.interval);
    IntervalEndsLater(start, db.config.zone, plan.interval);
    SettledRow(db.subscriptions, row);
    forall x | x in db.subscriptions
      ensures x.tenantId != tenant
    {
      assert WithId(x.id)(x);
    }
  }

  // ---------- Cancel and resume ----------

  lemma WriteOver(subscriptions: seq<Subscription>, s: Subscription, t: Subscription, u: Subscription)
    requires Keyed(subscriptions) && s in subscriptions && t.id == s.id && u.id == s.id
    ensures Written(Written(subscriptions, t), u) == Written(subscriptions, u)
  {
    assert WithId(s.id)(s);
    var once := Written(subscriptions, t);
    var i :| 0 <= i < |subscriptions| && subscriptions[i] == s;
    assert once[i] == t && WithId(u.id)(t);
  }

  // Resuming a cancelled subscription gives back the books as they were before the cancellation
  // exactly when the subscription was active and not about to end.
  lemma ResumeUndoesCancelIff(db: Db, cancel: Request, resume: Request, s: Subscription)
    requires Coupled(db) && cancel.mayManage && resume.mayManage && cancel.tenant == resume.tenant
    requires OwnSubscription(db, cancel.tenant, s.id) == Some(s)
    ensures ResumeSubscription(CancelSubscription(db, cancel, s.id).db, resume, s.id).db == db
       <==> s.status == ACTIVE && !s.cancelAtPeriodEnd && s.canceledAt.None?
  {
    var off := CancelSubscription(db, cancel, s.id).db;
    var cancelled := s.(status := CANCELLED, cancelAtPeriodEnd := false, canceledAt := Some(cancel.now));
    var resumed := s.(status := ACTIVE, cancelAtPeriodEnd := false, canceledAt := None);
    ThenCancel(db, cancel, s, off);
    WriteOver(db.subscriptions, s, cancelled, resumed);
    var back := ResumeSubscription(off, resume, s.id).db;
    assert back.subscriptions == Written(db.subscriptions, resumed);
    assert Mirrors(db.tenants, s);
    if resumed == s {
      RewritingIsIdle(db.subscriptions, s);
      assert back.tenants == db.tenants;
    } else {
      WrittenRows(db.subscriptions, resumed, resumed);
      if resumed in db.subscriptions {
        KeyedRows(db.subscriptions, s, resumed);
      }
    }
  }
}
