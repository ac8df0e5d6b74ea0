// BillingService (src/billing/billing.service.ts): the tables as fields, written one statement
// at a time, proved to have the effect Billing states.
module BillingService {
  import opened Seqs
  import opened B = Billing
  import C = Calendar
  import P = Proration
  import T = Tenants

  // An effect under another event table.
  function Under(e: Effect, events: map<EventKey, Event>): Effect {
    if e.Done? then Done(e.db.(events := events)) else e
  }

  lemma LookupsIgnoreEvents(db: Db, events: map<EventKey, Event>, tenant: string, newId: string)
    ensures UpsertBase(db.(events := events), tenant, newId) == UpsertBase(db, tenant, newId)
  {
  }

  lemma PlansIgnoreEvents(db: Db, events: map<EventKey, Event>, o: PaystackObject)
    ensures PaystackPlan(db.(events := events), o) == PaystackPlan(db, o)
    ensures Chargeable(db.(events := events), o) == Chargeable(db, o)
  {
  }

  lemma StripePlanIgnoresEvents(db: Db, events: map<EventKey, Event>, o: StripeObject, existing: Option<Subscription>)
    ensures StripePlan(db.(events := events), o, existing) == StripePlan(db, o, existing)
  {
  }

  lemma StripeWriteIgnoresEvents(db: Db, events: map<EventKey, Event>, kind: Kind, o: StripeObject,
                                 tenant: Option<string>, newId: string, now: int)
    ensures StripeWrite(db.(events := events), kind, o, tenant, newId, now)
            == StripeWrite(db, kind, o, tenant, newId, now)
  {
    if Given(o.id) {
      var existing := FindFirst(db.subscriptions, ByProviderId(Stripe, o.id.value));
      var resolved := tenant.OrElse(if existing.Some? then Some(existing.value.tenantId) else None);
      StripePlanIgnoresEvents(db, events, o, existing);
      if resolved.Some? {
        LookupsIgnoreEvents(db, events, resolved.value, newId);
      }
    }
  }

  lemma SettleWriteIgnoresEvents(db: Db, events: map<EventKey, Event>, write: Option<Result<Subscription, Error>>)
    ensures SettleWrite(db.(events := events), write) == Under(SettleWrite(db, write), events)
  {
  }

  lemma StripeSubscriptionIgnoresEvents(db: Db, events: map<EventKey, Event>, kind: Kind, o: StripeObject,
                                        tenant: Option<string>, newId: string, now: int)
    ensures B.ApplyStripeSubscription(db.(events := events), kind, o, tenant, newId, now)
         == Under(B.ApplyStripeSubscription(db, kind, o, tenant, newId, now), events)
  {
    var write := StripeWrite(db, kind, o, tenant, newId, now);
    StripeWriteIgnoresEvents(db, events, kind, o, tenant, newId, now);
    SettleWriteIgnoresEvents(db, events, write);
  }

  lemma StripeInvoiceIgnoresEvents(db: Db, events: map<EventKey, Event>, kind: Kind, o: StripeObject,
                                   tenant: Option<string>, now: int)
    ensures B.ApplyStripeInvoice(db.(events := events), kind, o, tenant, now)
         == Under(B.ApplyStripeInvoice(db, kind, o, tenant, now), events)
  {
  }

  // Applying a provider's object neither reads nor writes the event table.
  lemma StripeIgnoresEvents(db: Db, events: map<EventKey, Event>, kind: Kind, o: StripeObject,
                            tenant: Option<string>, newId: string, now: int)
    ensures var (after, status) := B.ApplyStripe(db, kind, o, tenant, newId, now);
            B.ApplyStripe(db.(events := events), kind, o, tenant, newId, now) == (after.(events := events), status)
  {
    StripeSubscriptionIgnoresEvents(db, events, kind, o, tenant, newId, now);
    StripeInvoiceIgnoresEvents(db, events, kind, o, tenant, now);
  }

  lemma BookingIgnoresEvents(db: Db, events: map<EventKey, Event>, base: Subscription, plan: Plan, number: string,
                             o: PaystackObject, now: int)
    ensures Charge(db.(events := events), base, plan, number, o, now)
            == Charge(db, base, plan, number, o, now).(events := events)
  {
  }

  lemma ChargeIgnoresEvents(db: Db, events: map<EventKey, Event>, o: PaystackObject, tenant: Option<string>,
                            newId: string, now: int)
    ensures B.ApplyCharge(db.(events := events), o, tenant, newId, now)
            == Under(B.ApplyCharge(db, o, tenant, newId, now), events)
  {
    var resolved := tenant.OrElse(Str(o.metaTenantId));
    PlansIgnoreEvents(db, events, o);
    if resolved.Some? && Chargeable(db, o) {
      var base := UpsertBase(db, resolved.value, newId);
      LookupsIgnoreEvents(db, events, resolved.value, newId);
      if base.Ok? {
        var plan, number := PaystackPlan(db, o).value, ChargeNumber(o).value;
        BookingIgnoresEvents(db, events, base.value, plan, number, o, now);
        assert B.ApplyCharge(db, o, tenant, newId, now) == Done(Charge(db, base.value, plan, number, o, now));
      }
    }
  }

  lemma PaystackSubscriptionIgnoresEvents(db: Db, events: map<EventKey, Event>, kind: Kind, o: PaystackObject,
                                          tenant: Option<string>, now: int)
    ensures B.ApplyPaystackSubscription(db.(events := events), kind, o, tenant, now)
         == Under(B.ApplyPaystackSubscription(db, kind, o, tenant, now), events)
  {
  }

  lemma PaystackIgnoresEvents(db: Db, events: map<EventKey, Event>, kind: Kind, o: PaystackObject,
                              tenant: Option<string>, newId: string, now: int)
    ensures var (after, status) := B.ApplyPaystack(db, kind, o, tenant, newId, now);
            B.ApplyPaystack(db.(events := events), kind, o, tenant, newId, now) == (after.(events := events), status)
  {
    ChargeIgnoresEvents(db, events, o, tenant, newId, now);
    PaystackSubscriptionIgnoresEvents(db, events, kind, o, tenant, now);
  }

  // Claiming the row first and completing it afterwards leaves what recording the outcome does.
  lemma ClaimedThenRecorded(events: map<EventKey, Event>, applied: (Db, EventStatus), key: EventKey,
                            tenant: Option<string>, kind: Kind)
    requires applied.0.events == events
    ensures var claimed := events[key := Event(tenant, kind, RECEIVED)];
            applied.0.(events := claimed[key := Event(tenant, kind, applied.1)]) == Recorded(applied, key, tenant, kind)
  {
    assert events[key := Event(tenant, kind, RECEIVED)][key := Event(tenant, kind, applied.1)]
           == events[key := Event(tenant, kind, applied.1)];
  }

  class Service {
    var tenants: map<string, T.TenantStatus>
    var subscriptions: seq<Subscription>
    var invoices: map<InvoiceKey, Invoice>
    var events: map<EventKey, Event>
    var plans: seq<Plan>
    const config: Config

    constructor (config: Config)
      ensures State() == Db(map[], [], map[], map[], [], config)
    {
      this.config := config;
      tenants, subscriptions, invoices, events, plans := map[], [], map[], map[], [];
    }

    function State(): Db
      reads this
    {
      Db(tenants, subscriptions, invoices, events, plans, config)
    }

    method UpdateTenantStatusFromBilling(tenant: string, status: Status)
      modifies this`tenants
      ensures tenants == old(tenants)[tenant := TenantStatusOf(status)]
    {
      var next := T.SUSPENDED;
      if status == ACTIVE {
        next := T.ACTIVE;
      } else if status == TRIALING {
        next := T.TRIAL;
      } else if status == CANCELLED || status == EXPIRED {
        next := T.CANCELLED;
      }
      tenants := tenants[tenant := next];
    }

    method AddPlanInterval(start: int, interval: string) returns (end: int)
      ensures end == B.AddInterval(config, start, interval)
    {
      var date := new C.Date(start, config.zone);
      var later := C.AddInterval(date, interval);
      end := later.time;
    }

    // subscription.update or subscription.create.
    method WriteRow(s: Subscription)
      modifies this`subscriptions
      ensures subscriptions == Written(old(subscriptions), s)
    {
      if FindFirst(subscriptions, WithId(s.id)).Some? {
        subscriptions := Map(subscriptions, Replaced(s));
      } else {
        subscriptions := subscriptions + [s];
      }
    }

    // A row written, and the tenant's status after it.
    method Settle(s: Subscription)
      modifies this`subscriptions, this`tenants
      ensures State() == B.Settle(old(State()), s)
    {
      WriteRow(s);
      UpdateTenantStatusFromBilling(s.tenantId, s.status);
    }

    method NewRow(r: Request, dto: CreateDto, plan: Plan, tenant: string) returns (s: Subscription)
      ensures s == NewSubscription(config, dto, plan, tenant, r.newId, r.now)
    {
      var start := dto.periodStart.GetOr(r.now);
      var end := AddPlanInterval(start, plan.interval);
      if dto.periodEnd.Some? {
        end := dto.periodEnd.value;
      }
      var status := dto.status.GetOr(if dto.trialEndsAt.Some? || HasTrial(plan) then TRIALING else ACTIVE);
      var trialEndsAt := dto.trialEndsAt;
      if trialEndsAt.None? && HasTrial(plan) {
        trialEndsAt := Some(start + Days(plan.trialDays.value));
      }
      s := Subscription(
        r.newId, tenant, dto.planId, status, dto.provider.GetOr(Manual), dto.customerId, dto.providerId,
        dto.seatCount.GetOr(1), dto.cancelAtPeriodEnd.GetOr(false), trialEndsAt, Some(start), Some(end), None);
    }

    method CreateSubscription(r: Request, dto: CreateDto) returns (result: Result<(), Error>)
      modifies this`subscriptions, this`tenants
      ensures Reply(State(), result) == B.CreateSubscription(old(State()), r, dto)
    {
      if !r.mayManage {
        return Err(Forbidden);
      }
      var tenant := dto.tenantId.GetOr(r.tenant);
      if tenant != "" && tenant != r.tenant {
        return Err(Forbidden);
      }
      var plan := FindPlan(State(), dto.planId);
      if plan.None? {
        return Err(NotFound);
      }
      if !plan.value.isActive || plan.value.archived {
        return Err(PlanInactive);
      }
      if tenant !in tenants {
        return Err(UnknownTenant);
      }
      var s := NewRow(r, dto, plan.value, tenant);
      if IdTaken(subscriptions, s.id) || TenantTaken(subscriptions, s) {
        return Err(Conflict);
      }
      Settle(s);
      return Ok(());
    }

    method UpdateSubscription(r: Request, id: string, dto: UpdateDto) returns (result: Result<(), Error>)
      modifies this`subscriptions, this`tenants
      ensures Reply(State(), result) == B.UpdateSubscription(old(State()), r, id, dto)
    {
      if !r.mayManage {
        return Err(Forbidden);
      }
      var found := OwnSubscription(State(), r.tenant, id);
      if found.None? {
        return Err(NotFound);
      }
      if Given(dto.planId) {
        var plan := FindPlan(State(), dto.planId.value);
        if plan.None? {
          return Err(NotFound);
        }
        if !plan.value.isActive || plan.value.archived {
          return Err(PlanInactive);
        }
      } else if dto.planId.Some? && FindPlan(State(), dto.planId.value).None? {
        return Err(UnknownPlan);
      }
      var s := Patched(found.value, dto, r.now);
      WriteRow(s);
      if dto.status.Some? {
        UpdateTenantStatusFromBilling(s.tenantId, s.status);
      }
      return Ok(());
    }

    method ChangePlan(r: Request, id: string, planId: string, timing: ChangeTiming,
                      behavior: P.Behavior) returns (result: Result<(), Error>)
      modifies this`subscriptions, this`tenants, this`invoices
      ensures Reply(State(), result) == B.ChangePlan(old(State()), r, id, planId, timing, behavior)
    {
      if !r.mayManage {
        return Err(Forbidden);
      }
      var found := OwnSubscription(State(), r.tenant, id);
      if found.None? {
        return Err(NotFound);
      }
      var plan := FindPlan(State(), planId);
      if plan.None? {
        return Err(NotFound);
      }
      if !plan.value.isActive || plan.value.archived {
        return Err(PlanInactive);
      }
      if timing == PeriodEnd {
        return Ok(());
      }
      var current := FindPlan(State(), found.value.planId);
      if current.None? {
        return Err(NotFound);
      }
      var due := Due(found.value, current.value, plan.value, behavior, r.now);
      result := MovePlan(found.value, plan.value, due, r.now);
    }

    method MovePlan(s: Subscription, plan: Plan, due: int, now: int) returns (result: Result<(), Error>)
      modifies this`subscriptions, this`tenants, this`invoices
      ensures Reply(State(), result) == B.MovePlan(old(State()), s, plan, due, now)
    {
      var end := AddPlanInterval(now, plan.interval);
      var status := if s.status == CANCELLED then ACTIVE else s.status;
      var row := s.(planId := plan.id, status := status, cancelAtPeriodEnd := false, canceledAt := None,
                    periodStart := Some(now), periodEnd := Some(end));
      assert row == Moved(config, s, plan, now);
      WriteRow(row);
      if due > 0 {
        var key := Adjustment(s.id, now);
        if key in invoices {
          return Err(Conflict);
        }
        invoices := invoices[key := AdjustmentInvoice(row, plan, due, now)];
      }
      UpdateTenantStatusFromBilling(row.tenantId, row.status);
      return Ok(());
    }

    method CancelSubscription(r: Request, id: string) returns (result: Result<(), Error>)
      modifies this`subscriptions, this`tenants
      ensures Reply(State(), result) == B.CancelSubscription(old(State()), r, id)
    {
      if !r.mayManage {
        return Err(Forbidden);
      }
      var found := OwnSubscription(State(), r.tenant, id);
      if found.None? {
        return Err(NotFound);
      }
      Settle(found.value.(status := CANCELLED, cancelAtPeriodEnd := false, canceledAt := Some(r.now)));
      return Ok(());
    }

    method ResumeSubscription(r: Request, id: string) returns (result: Result<(), Error>)
      modifies this`subscriptions, this`tenants
      ensures Reply(State(), result) == B.ResumeSubscription(old(State()), r, id)
    {
      if !r.mayManage {
        return Err(Forbidden);
      }
      var found := OwnSubscription(State(), r.tenant, id);
      if found.None? {
        return Err(NotFound);
      }
      Settle(found.value.(status := ACTIVE, cancelAtPeriodEnd := false, canceledAt := None));
      return Ok(());
    }

    method StartTrial(r: Request, id: string) returns (result: Result<(), Error>)
      modifies this`subscriptions, this`tenants
      ensures Reply(State(), result) == B.StartTrial(old(State()), r, id)
    {
      if !r.mayManage {
        return Err(Forbidden);
      }
      var found := OwnSubscription(State(), r.tenant, id);
      if found.None? {
        return Err(NotFound);
      }
      var plan := FindPlan(State(), found.value.planId);
      if plan.None? {
        return Err(NotFound);
      }
      var ends := r.now + Days(plan.value.trialDays.GetOr(14));
      Settle(found.value.(status := TRIALING, trialEndsAt := Some(ends), canceledAt := None));
      return Ok(());
    }

    method StartTenantTrial(r: Request, planId: string, seatCount: Option<int>) returns (result: Result<(), Error>)
      modifies this`subscriptions, this`tenants
      ensures Reply(State(), result) == B.StartTenantTrial(old(State()), r, planId, seatCount)
    {
      if !r.mayManage {
        return Err(Forbidden);
      }
      var plan := FindPlan(State(), planId);
      if plan.None? {
        return Err(NotFound);
      }
      if !plan.value.isActive || plan.value.archived {
        return Err(PlanInactive);
      }
      var base := UpsertBase(State(), r.tenant, r.newId);
      if base.Err? {
        return Err(base.error);
      }
      Settle(OnTrial(base.value, plan.value, seatCount, r.now));
      return Ok(());
    }

    // ---------- Stripe ----------

    // Whether the write went through; a unique violation is thrown.
    method ApplyStripeSubscriptionEvent(kind: Kind, o: StripeObject, tenant: Option<string>, newId: string,
                                        now: int) returns (threw: bool)
      modifies this`subscriptions, this`tenants
      ensures var e := B.ApplyStripeSubscription(old(State()), kind, o, tenant, newId, now);
              State() == Left(old(State()), e) && threw == e.Threw?
    {
      var write := StripeWrite(State(), kind, o, tenant, newId, now);
      if write.None? {
        return false;
      }
      if write.value.Err? || TenantTaken(subscriptions, write.value.value) {
        return true;
      }
      Settle(write.value.value);
      return false;
    }

    method ApplyStripeInvoiceEvent(kind: Kind, o: StripeObject, tenant: Option<string>,
                                   now: int) returns (processed: bool)
      modifies this`invoices
      ensures var e := B.ApplyStripeInvoice(old(State()), kind, o, tenant, now);
              State() == Left(old(State()), e) && processed == e.Done?
    {
      if !Given(o.id) {
        return false;
      }
      var s := FindFirst(subscriptions, InvoiceOwner(o, tenant, config.emptyFilterMatches));
      if s.None? {
        return false;
      }
      var key := Numbered(Stripe, o.id.value);
      invoices := invoices[key := StripeInvoice(InvoiceAt(State(), key), s.value, kind, o, now)];
      return true;
    }

    method ApplyStripeEvent(kind: Kind, o: StripeObject, tenant: Option<string>, newId: string,
                            now: int) returns (status: EventStatus)
      modifies this`subscriptions, this`tenants, this`invoices
      ensures (State(), status) == B.ApplyStripe(old(State()), kind, o, tenant, newId, now)
    {
      if kind.SubscriptionDeleted? || kind.SubscriptionChanged? {
        var threw := ApplyStripeSubscriptionEvent(kind, o, tenant, newId, now);
        return if threw then FAILED else if tenant.Some? then PROCESSED else IGNORED;
      }
      if kind.InvoicePaid? || kind.InvoiceFailed? || kind.InvoiceVoided? || kind.InvoiceChanged? {
        var processed := ApplyStripeInvoiceEvent(kind, o, tenant, now);
        return if processed then PROCESSED else IGNORED;
      }
      return IGNORED;
    }

    // The event row is created as RECEIVED, the event applied, and the row updated.
    method RecordStripeEvent(key: EventKey, kind: Kind, o: StripeObject, tenant: Option<string>, newId: string,
                             now: int)
      modifies this`subscriptions, this`tenants, this`invoices, this`events
      ensures State() == Recorded(B.ApplyStripe(old(State()), kind, o, tenant, newId, now), key, tenant, kind)
    {
      ghost var before := State();
      ghost var applied := B.ApplyStripe(before, kind, o, tenant, newId, now);
      StripeIgnoresEvents(before, before.events, kind, o, tenant, newId, now);
      ClaimedThenRecorded(before.events, applied, key, tenant, kind);
      events := events[key := Event(tenant, kind, RECEIVED)];
      StripeIgnoresEvents(before, events, kind, o, tenant, newId, now);
      var status := ApplyStripeEvent(kind, o, tenant, newId, now);
      events := events[key := Event(tenant, kind, status)];
    }

    method ProcessStripeWebhook(d: StripeDelivery) returns (result: Result<(), Error>)
      modifies this`subscriptions, this`tenants, this`invoices, this`events
      ensures Reply(State(), result) == B.ProcessStripe(old(State()), d)
    {
      if !d.signed {
        return Err(BadSignature);
      }
      if d.kind.None? {
        return Err(TypeRequired);
      }
      var key, tenant := StripeKey(d), ResolveStripeTenant(State(), d.payload);
      if key in events {
        return Ok(());
      }
      if tenant.Some? && tenant.value !in tenants {
        return Err(UnknownTenant);
      }
      RecordStripeEvent(key, d.kind.value, d.payload, tenant, d.newId, d.now);
      return Ok(());
    }

    // ---------- Paystack ----------

    method ApplyPaystackChargeSuccess(o: PaystackObject, tenant: Option<string>, newId: string,
                                      now: int) returns (processed: bool, threw: bool)
      modifies this`subscriptions, this`tenants, this`invoices
      ensures var e := B.ApplyCharge(old(State()), o, tenant, newId, now);
              State() == Left(old(State()), e) && processed == e.Done? && threw == e.Threw?
    {
      var resolved := tenant.OrElse(Str(o.metaTenantId));
      if resolved.None? {
        return false, false;
      }
      var plan := PaystackPlan(State(), o);
      if plan.None? || !PaymentMatches(o, plan.value) {
        return false, false;
      }
      var number := ChargeNumber(o);
      if number.None? {
        return false, false;
      }
      var base := UpsertBase(State(), resolved.value, newId);
      if base.Err? {
        return false, true;
      }
      var row := ChargedRow(config, base.value, plan.value, o, now);
      WriteRow(row);
      invoices := invoices[Numbered(Paystack, number.value) := ChargeInvoice(row, o, now)];
      UpdateTenantStatusFromBilling(row.tenantId, row.status);
      return true, false;
    }

    method ApplyPaystackSubscriptionEvent(kind: Kind, o: PaystackObject, tenant: Option<string>,
                                          now: int) returns (processed: bool)
      modifies this`subscriptions, this`tenants
      ensures var e := B.ApplyPaystackSubscription(old(State()), kind, o, tenant, now);
              State() == Left(old(State()), e) && processed == e.Done?
    {
      var id := Str(o.subscriptionCode).OrElse(Str(o.id));
      if id.None? {
        return false;
      }
      var found := FindFirst(subscriptions, PaystackOwner(id.value, tenant, config.emptyFilterMatches));
      if found.None? {
        return false;
      }
      if kind.SubscriptionStopped? {
        Settle(found.value.(status := CANCELLED, canceledAt := Some(now)));
      } else {
        Settle(found.value.(status := ACTIVE, canceledAt := None));
      }
      return true;
    }

    method ApplyPaystackEvent(kind: Kind, o: PaystackObject, tenant: Option<string>, newId: string,
                              now: int) returns (status: EventStatus)
      modifies this`subscriptions, this`tenants, this`invoices
      ensures (State(), status) == B.ApplyPaystack(old(State()), kind, o, tenant, newId, now)
    {
      if kind.ChargeSuccess? {
        var processed, threw := ApplyPaystackChargeSuccess(o, tenant, newId, now);
        return if threw then FAILED else if processed then PROCESSED else IGNORED;
      }
      if kind.SubscriptionStopped? || kind.SubscriptionNoted? {
        var processed := ApplyPaystackSubscriptionEvent(kind, o, tenant, now);
        return if processed then PROCESSED else IGNORED;
      }
      return IGNORED;
    }

    // The event row is created as RECEIVED, the event applied, and the row updated.
    method RecordPaystackEvent(key: EventKey, kind: Kind, o: PaystackObject, tenant: Option<string>, newId: string,
                               now: int)
      modifies this`subscriptions, this`tenants, this`invoices, this`events
      ensures State() == Recorded(B.ApplyPaystack(old(State()), kind, o, tenant, newId, now), key, tenant, kind)
    {
      ghost var before := State();
      ghost var applied := B.ApplyPaystack(before, kind, o, tenant, newId, now);
      PaystackIgnoresEvents(before, before.events, kind, o, tenant, newId, now);
      ClaimedThenRecorded(before.events, applied, key, tenant, kind);
      events := events[key := Event(tenant, kind, RECEIVED)];
      PaystackIgnoresEvents(before, events, kind, o, tenant, newId, now);
      var status := ApplyPaystackEvent(kind, o, tenant, newId, now);
      events := events[key := Event(tenant, kind, status)];
    }

    method ProcessPaystackWebhook(d: PaystackDelivery) returns (result: Result<(), Error>)
      modifies this`subscriptions, this`tenants, this`invoices, this`events
      ensures Reply(State(), result) == B.ProcessPaystack(old(State()), d)
    {
      if !d.signed {
        return Err(BadSignature);
      }
      if d.kind.None? {
        return Err(TypeRequired);
      }
      var key, tenant := PaystackKey(d), ResolvePaystackTenant(State(), d.payload);
      if key in events {
        return Ok(());
      }
      if tenant.Some? && tenant.value !in tenants {
        return Err(UnknownTenant);
      }
      RecordPaystackEvent(key, d.kind.value, d.payload, tenant, d.newId, d.now);
      return Ok(());
    }

    // ---------- Returning from checkout ----------

    method RecordCheckoutBillingEvent(key: EventKey, tenant: string, kind: Kind, status: EventStatus)
      modifies this`events
      ensures State() == Noted(old(State()), key, tenant, kind, status)
    {
      events := events[key := Event(Some(tenant), kind, status)];
    }

    method ConfirmStripeCheckoutSession(r: Request, sessionId: Option<string>,
                                        session: Option<StripeSession>) returns (result: Result<(), Error>)
      modifies this`subscriptions, this`tenants, this`invoices, this`events
      ensures Reply(State(), result) == B.ConfirmStripe(old(State()), r, sessionId, session)
    {
      var check := CheckReturn(State(), r, sessionId, session, if session.Some? then session.value.tenantId else None);
      if check.Err? {
        return check;
      }
      result := ApplySession(r, sessionId.value, session.value);
    }

    method ApplySession(r: Request, sessionId: string, session: StripeSession) returns (result: Result<(), Error>)
      modifies this`subscriptions, this`tenants, this`invoices, this`events
      ensures Reply(State(), result) == B.ApplySession(old(State()), r, sessionId, session)
    {
      var key := EventKey(Stripe, "checkout:" + sessionId);
      if !session.complete {
        RecordCheckoutBillingEvent(key, r.tenant, CheckoutPending, RECEIVED);
        return Ok(());
      }
      var plan := SessionPlan(State(), session);
      if plan.None? {
        return Err(PlanUnresolved);
      }
      var base := UpsertBase(State(), r.tenant, r.newId);
      if base.Err? {
        return Err(base.error);
      }
      var row := SessionRow(config, base.value, plan.value, session, r.now);
      WriteRow(row);
      var number := Numbered(Stripe, Str(session.invoiceId).GetOr("checkout:" + sessionId));
      invoices := invoices[number := SessionInvoice(row, session, r.now)];
      UpdateTenantStatusFromBilling(row.tenantId, row.status);
      RecordCheckoutBillingEvent(key, r.tenant, CheckoutConfirmed, PROCESSED);
      return Ok(());
    }

    method ConfirmPaystackCheckoutSession(r: Request, reference: Option<string>,
                                          charge: Option<PaystackObject>) returns (result: Result<(), Error>)
      modifies this`subscriptions, this`tenants, this`invoices, this`events
      ensures Reply(State(), result) == B.ConfirmPaystack(old(State()), r, reference, charge)
    {
      var check := CheckReturn(State(), r, reference, charge, if charge.Some? then charge.value.metaTenantId else None);
      if check.Err? {
        return check;
      }
      result := ApplyReturnedCharge(r, reference.value, charge.value);
    }

    method ApplyReturnedCharge(r: Request, reference: string,
                               charge: PaystackObject) returns (result: Result<(), Error>)
      modifies this`subscriptions, this`tenants, this`invoices, this`events
      ensures Reply(State(), result) == B.ApplyReturnedCharge(old(State()), r, reference, charge)
    {
      var key := EventKey(Paystack, "verify:" + reference);
      if !charge.succeeded {
        RecordCheckoutBillingEvent(key, r.tenant, ChargePending, RECEIVED);
        return Ok(());
      }
      var processed, threw := ApplyPaystackChargeSuccess(charge, Some(r.tenant), r.newId, r.now);
      if threw {
        return Err(DuplicateId);
      }
      if !processed {
        return Err(NotApplied);
      }
      RecordCheckoutBillingEvent(key, r.tenant, ChargeVerified, PROCESSED);
      return Ok(());
    }
  }
}
