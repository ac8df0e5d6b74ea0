// Billing requests stay in their tenant (src/billing/billing.service.ts): whatever a signed-in
// user asks for, no other tenant's subscription or status changes.
module BillingIsolation {
  import opened Seqs
  import opened Billing
  import opened BillingCoupling
  import P = Proration
  import T = Tenants

  ghost predicate SameTenant(before: map<string, T.TenantStatus>, after: map<string, T.TenantStatus>, t: string) {
    (t in after <==> t in before) && (t in before ==> after[t] == before[t])
  }

  // Nothing has changed for any tenant but one.
  ghost predicate StaysIn(db: Db, after: Db, tenant: string) {
    && (forall x: Subscription :: x.tenantId != tenant ==> (x in after.subscriptions <==> x in db.subscriptions))
    && (forall t: string :: t != tenant ==> SameTenant(db.tenants, after.tenants, t))
  }

  lemma OthersStay(db: Db, tenant: string, newId: string, base: Subscription, row: Subscription, x: Subscription)
    requires Keyed(db.subscriptions) && UpsertBase(db, tenant, newId) == Ok(base) && row.id == base.id
    requires row.tenantId == base.tenantId
    requires x.tenantId != tenant
    ensures x in Written(db.subscriptions, row) <==> x in db.subscriptions
  {
    BaseIsFree(db, tenant, newId, base, row);
    WrittenRows(db.subscriptions, row, x);
    if x in db.subscriptions {
      if SubscriptionOf(db, tenant).Some? {
        KeyedRows(db.subscriptions, base, x);
      } else {
        assert WithId(x.id)(x);
      }
    }
  }

  lemma UpsertStays(db: Db, tenant: string, newId: string, base: Subscription, row: Subscription)
    requires Keyed(db.subscriptions) && UpsertBase(db, tenant, newId) == Ok(base) && row.id == base.id
    requires row.tenantId == base.tenantId
    ensures StaysIn(db, Settle(db, row), tenant)
  {
    BaseIsFree(db, tenant, newId, base, row);
    forall x: Subscription | x.tenantId != tenant
      ensures x in Written(db.subscriptions, row) <==> x in db.subscriptions
    {
      OthersStay(db, tenant, newId, base, row, x);
    }
  }

  // A changed row of the tenant, with or without its status.
  lemma RewriteStays(db: Db, s: Subscription, t: Subscription)
    requires Keyed(db.subscriptions) && s in db.subscriptions && t.id == s.id && t.tenantId == s.tenantId
    ensures StaysIn(db, Settle(db, t), s.tenantId) && StaysIn(db, Save(db, t), s.tenantId)
  {
    forall x: Subscription | x.tenantId != s.tenantId
      ensures x in Written(db.subscriptions, t) <==> x in db.subscriptions
    {
      WrittenRows(db.subscriptions, t, x);
      if x in db.subscriptions {
        KeyedRows(db.subscriptions, s, x);
      }
    }
  }

  lemma CreateStays(db: Db, r: Request, dto: CreateDto)
    requires Keyed(db.subscriptions) && "" !in db.tenants
    ensures StaysIn(db, CreateSubscription(db, r, dto).db, r.tenant)
  {
    var tenant, plan := dto.tenantId.GetOr(r.tenant), FindPlan(db, dto.planId);
    if plan.Some? && tenant == r.tenant {
      var s := NewSubscription(db.config, dto, plan.value, tenant, r.newId, r.now);
      if !IdTaken(db.subscriptions, s.id) {
        forall x: Subscription | x.tenantId != tenant
          ensures x in Written(db.subscriptions, s) <==> x in db.subscriptions
        {
          WrittenRows(db.subscriptions, s, x);
          if x in db.subscriptions {
            assert WithId(x.id)(x);
          }
        }
      }
    }
  }

  lemma UpdateStays(db: Db, r: Request, id: string, dto: UpdateDto)
    requires Keyed(db.subscriptions)
    ensures StaysIn(db, UpdateSubscription(db, r, id, dto).db, r.tenant)
  {
    var found := OwnSubscription(db, r.tenant, id);
    if found.Some? {
      RewriteStays(db, found.value, Patched(found.value, dto, r.now));
    }
  }

  lemma MoveStays(db: Db, s: Subscription, plan: Plan, due: int, now: int)
    requires Keyed(db.subscriptions) && s in db.subscriptions
    ensures StaysIn(db, MovePlan(db, s, plan, due, now).db, s.tenantId)
  {
    RewriteStays(db, s, Moved(db.config, s, plan, now));
  }

  lemma ChangeStays(db: Db, r: Request, id: string, planId: string, timing: ChangeTiming, behavior: P.Behavior)
    requires Keyed(db.subscriptions)
    ensures StaysIn(db, ChangePlan(db, r, id, planId, timing, behavior).db, r.tenant)
  {
    var found, plan := OwnSubscription(db, r.tenant, id), FindPlan(db, planId);
    if ChangePlan(db, r, id, planId, timing, behavior).db != db {
      var current := FindPlan(db, found.value.planId);
      MoveStays(db, found.value, plan.value, Due(found.value, current.value, plan.value, behavior, r.now), r.now);
    }
  }

  lemma CancelStays(db: Db, r: Request, id: string)
    requires Keyed(db.subscriptions)
    ensures StaysIn(db, CancelSubscription(db, r, id).db, r.tenant)
  {
    var found := OwnSubscription(db, r.tenant, id);
    if found.Some? {
      RewriteStays(db, found.value,
                   found.value.(status := CANCELLED, cancelAtPeriodEnd := false, canceledAt := Some(r.now)));
    }
  }

  lemma ResumeStays(db: Db, r: Request, id: string)
    requires Keyed(db.subscriptions)
    ensures StaysIn(db, ResumeSubscription(db, r, id).db, r.tenant)
  {
    var found := OwnSubscription(db, r.tenant, id);
    if found.Some? {
      RewriteStays(db, found.value, found.value.(status := ACTIVE, cancelAtPeriodEnd := false, canceledAt := None));
    }
  }

  lemma TrialStays(db: Db, r: Request, id: string)
    requires Keyed(db.subscriptions)
    ensures StaysIn(db, StartTrial(db, r, id).db, r.tenant)
  {
    var found := OwnSubscription(db, r.tenant, id);
    if found.Some? {
      var plan := FindPlan(db, found.value.planId);
      if plan.Some? {
        var ends := r.now + Days(plan.value.trialDays.GetOr(14));
        RewriteStays(db, found.value, found.value.(status := TRIALING, trialEndsAt := Some(ends), canceledAt := None));
      }
    }
  }

  lemma TenantTrialStays(db: Db, r: Request, planId: string, seatCount: Option<int>)
    requires Keyed(db.subscriptions)
    ensures StaysIn(db, StartTenantTrial(db, r, planId, seatCount).db, r.tenant)
  {
    var plan, base := FindPlan(db, planId), UpsertBase(db, r.tenant, r.newId);
    if Usable(plan) && base.Ok? {
      UpsertStays(db, r.tenant, r.newId, base.value, OnTrial(base.value, plan.value, seatCount, r.now));
    }
  }

  lemma SessionStays(db: Db, r: Request, sessionId: string, session: StripeSession)
    requires Keyed(db.subscriptions)
    ensures StaysIn(db, ApplySession(db, r, sessionId, session).db, r.tenant)
  {
    var plan, base := SessionPlan(db, session), UpsertBase(db, r.tenant, r.newId);
    if plan.Some? && base.Ok? {
      UpsertStays(db, r.tenant, r.newId, base.value, SessionRow(db.config, base.value, plan.value, session, r.now));
    }
  }

  lemma ChargeStays(db: Db, o: PaystackObject, tenant: string, newId: string, now: int)
    requires Keyed(db.subscriptions)
    ensures StaysIn(db, Left(db, ApplyCharge(db, o, Some(tenant), newId, now)), tenant)
  {
    var base := UpsertBase(db, tenant, newId);
    if Chargeable(db, o) && base.Ok? {
      UpsertStays(db, tenant, newId, base.value, ChargedRow(db.config, base.value, PaystackPlan(db, o).value, o, now));
    }
  }

  lemma ReturnsStay(db: Db, r: Request, id: Option<string>, session: Option<StripeSession>,
                    charge: Option<PaystackObject>)
    requires Keyed(db.subscriptions)
    ensures StaysIn(db, ConfirmStripe(db, r, id, session).db, r.tenant)
    ensures StaysIn(db, ConfirmPaystack(db, r, id, charge).db, r.tenant)
  {
    if Given(id) && session.Some? {
      SessionStays(db, r, id.value, session.value);
    }
    if Given(id) && charge.Some? {
      ReturnedChargeStays(db, r, id.value, charge.value);
    }
  }

  lemma ReturnedChargeStays(db: Db, r: Request, reference: string, charge: PaystackObject)
    requires Keyed(db.subscriptions)
    ensures StaysIn(db, ApplyReturnedCharge(db, r, reference, charge).db, r.tenant)
  {
    ChargeStays(db, charge, r.tenant, r.newId, r.now);
  }

  // Whatever a user asks for, refused or not, every other tenant keeps its subscription and its
  // status.
  lemma RequestStaysInTenant(db: Db, r: Request, op: Op)
    requires Tables(db) && "" !in db.tenants
    ensures StaysIn(db, Answer(db, r, op).db, r.tenant)
  {
    match op
    case Create(dto) => CreateStays(db, r, dto);
    case Update(id, dto) => UpdateStays(db, r, id, dto);
    case Change(id, planId, timing, behavior) => ChangeStays(db, r, id, planId, timing, behavior);
    case Cancel(id) => CancelStays(db, r, id);
    case Resume(id) => ResumeStays(db, r, id);
    case Trial(id) => TrialStays(db, r, id);
    case TenantTrial(planId, seatCount) => TenantTrialStays(db, r, planId, seatCount);
    case ReturnFromStripe(sessionId, session) => ReturnsStay(db, r, sessionId, session, None);
    case ReturnFromPaystack(reference, charge) => ReturnsStay(db, r, reference, None, charge);
  }
}
