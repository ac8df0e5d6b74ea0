// The coupling of subscriptions and tenants: over every run of billing steps a tenant has at most
// one subscription, and the tenant's status mirrors it.
module BillingCoupling {
  import opened Seqs
  import opened Billing
  import P = Proration
  import T = Tenants

  // Rows have their own ids and their own tenants.
  predicate Keyed(subscriptions: seq<Subscription>) {
    forall i, j :: 0 <= i < j < |subscriptions| ==>
      subscriptions[i].id != subscriptions[j].id && subscriptions[i].tenantId != subscriptions[j].tenantId
  }

  // What a subscription's status means for its tenant.
  predicate Means(status: Status, tenant: T.TenantStatus) {
    && (tenant == T.ACTIVE <==> status == ACTIVE) && (tenant == T.TRIAL <==> status == TRIALING)
    && (tenant == T.SUSPENDED <==> status == PAST_DUE)
    && (tenant == T.CANCELLED <==> status == CANCELLED || status == EXPIRED)
  }

  predicate Mirrors(tenants: map<string, T.TenantStatus>, s: Subscription) {
    s.tenantId in tenants && Means(s.status, tenants[s.tenantId])
  }

  // What the unique and foreign keys alone give: every tenant of a row exists.
  predicate Tables(db: Db) {
    Keyed(db.subscriptions) && forall s :: s in db.subscriptions ==> s.tenantId in db.tenants
  }

  predicate Coupled(db: Db) {
    Keyed(db.subscriptions) && forall s :: s in db.subscriptions ==> Mirrors(db.tenants, s)
  }

  // Both at once, over a fixed set of tenants: with strict the coupling, without it the tables.
  predicate Sound(db: Db, names: set<string>, strict: bool) {
    && db.tenants.Keys == names
    && Keyed(db.subscriptions)
    && forall s :: s in db.subscriptions ==> Fits(db, s, strict)
  }

  predicate Fits(db: Db, s: Subscription, strict: bool) {
    s.tenantId in db.tenants && (strict ==> Mirrors(db.tenants, s))
  }

  // Invoices, events and plans play no part.
  lemma SameTables(db: Db, other: Db, names: set<string>, strict: bool)
    requires Sound(db, names, strict) && other.subscriptions == db.subscriptions && other.tenants == db.tenants
    ensures Sound(other, names, strict)
  {
  }

  // ---------- One row written ----------

  lemma KeyedRows(subscriptions: seq<Subscription>, s: Subscription, t: Subscription)
    requires Keyed(subscriptions) && s in subscriptions && t in subscriptions
    ensures s == t || (s.id != t.id && s.tenantId != t.tenantId)
  {
  }

  lemma WrittenRows(subscriptions: seq<Subscription>, s: Subscription, x: Subscription)
    ensures x in Written(subscriptions, s) <==> x == s || (x in subscriptions && x.id != s.id)
  {
    if IdTaken(subscriptions, s.id) {
      var rows := Written(subscriptions, s);
      var at := IndexOf(subscriptions, WithId(s.id));
      assert rows[at] == s;
      if x in subscriptions && x.id != s.id {
        var i :| 0 <= i < |subscriptions| && subscriptions[i] == x;
        assert rows[i] == x;
      }
    }
  }

  lemma WrittenKeepsKeyed(subscriptions: seq<Subscription>, s: Subscription)
    requires Keyed(subscriptions) && !TenantTaken(subscriptions, s)
    ensures Keyed(Written(subscriptions, s))
  {
  }

  lemma SettleKeepsSound(db: Db, s: Subscription, names: set<string>, strict: bool)
    requires Sound(db, names, strict) && !TenantTaken(db.subscriptions, s) && s.tenantId in names
    ensures Sound(Settle(db, s), names, strict)
  {
    WrittenKeepsKeyed(db.subscriptions, s);
    forall x | x in Settle(db, s).subscriptions
      ensures Fits(Settle(db, s), x, strict)
    {
      WrittenRows(db.subscriptions, s, x);
    }
  }

  // A row written under its own keys is never refused.
  lemma OwnRowIsFree(subscriptions: seq<Subscription>, s: Subscription, t: Subscription)
    requires Keyed(subscriptions) && s in subscriptions && t.id == s.id && t.tenantId == s.tenantId
    ensures !TenantTaken(subscriptions, t)
  {
    forall x | x in subscriptions && x.tenantId == t.tenantId
      ensures x.id == t.id
    {
      KeyedRows(subscriptions, s, x);
    }
  }

  // Settling a changed row of the table.
  lemma ResettleKeepsSound(db: Db, s: Subscription, t: Subscription, names: set<string>, strict: bool)
    requires Sound(db, names, strict) && s in db.subscriptions && t.id == s.id && t.tenantId == s.tenantId
    ensures Sound(Settle(db, t), names, strict)
  {
    OwnRowIsFree(db.subscriptions, s, t);
    SettleKeepsSound(db, t, names, strict);
  }

  // A row put without touching its tenant keeps the coupling exactly when its status still means
  // what it meant.
  lemma SaveKeepsSoundIff(db: Db, s: Subscription, t: Subscription, names: set<string>, strict: bool)
    requires Sound(db, names, strict) && s in db.subscriptions && t.id == s.id && t.tenantId == s.tenantId
    ensures Sound(Save(db, t), names, strict) <==> (strict ==> TenantStatusOf(t.status) == TenantStatusOf(s.status))
  {
    OwnRowIsFree(db.subscriptions, s, t);
    WrittenKeepsKeyed(db.subscriptions, t);
    WrittenRows(db.subscriptions, t, t);
    assert Fits(db, s, strict);
    assert Sound(Save(db, t), names, strict) ==> Fits(Save(db, t), t, strict);
    forall x | x in Save(db, t).subscriptions && x != t
      ensures Fits(Save(db, t), x, strict)
    {
      WrittenRows(db.subscriptions, t, x);
    }
  }

  // Writing a row that is there changes nothing.
  lemma RewritingIsIdle(subscriptions: seq<Subscription>, s: Subscription)
    requires Keyed(subscriptions) && s in subscriptions
    ensures Written(subscriptions, s) == subscriptions
  {
    assert WithId(s.id)(s);
    forall i | 0 <= i < |subscriptions|
      ensures Replaced(s)(subscriptions[i]) == subscriptions[i]
    {
      KeyedRows(subscriptions, s, subscriptions[i]);
    }
  }

  // The row an upsert starts from is the tenant's own, or a new one no other row stands against.
  lemma BaseIsFree(db: Db, tenant: string, newId: string, base: Subscription, t: Subscription)
    requires Keyed(db.subscriptions) && UpsertBase(db, tenant, newId) == Ok(base) && t.id == base.id
    requires t.tenantId == base.tenantId
    ensures base.tenantId == tenant && !TenantTaken(db.subscriptions, t)
  {
    if SubscriptionOf(db, tenant).Some? {
      OwnRowIsFree(db.subscriptions, base, t);
    } else {
      forall x | x in db.subscriptions
        ensures x.tenantId != tenant
      {
        assert !OfTenant(tenant)(x);
      }
    }
  }

  // The row settled for a tenant is its row from then on.
  lemma SettledRow(subscriptions: seq<Subscription>, s: Subscription)
    requires Keyed(subscriptions) && !TenantTaken(subscriptions, s)
    ensures Keyed(Written(subscriptions, s)) && s in Written(subscriptions, s)
    ensures FindFirst(Written(subscriptions, s), OfTenant(s.tenantId)) == Some(s)
  {
    WrittenKeepsKeyed(subscriptions, s);
    WrittenRows(subscriptions, s, s);
    var found := FindFirst(Written(subscriptions, s), OfTenant(s.tenantId));
    assert OfTenant(s.tenantId)(s);
    KeyedRows(Written(subscriptions, s), s, found.value);
  }

  lemma UpsertKeepsSound(db: Db, tenant: string, newId: string, base: Subscription, t: Subscription,
                         names: set<string>, strict: bool)
    requires Sound(db, names, strict) && UpsertBase(db, tenant, newId) == Ok(base)
    requires t.id == base.id && t.tenantId == base.tenantId
    ensures base.tenantId == tenant && Sound(Settle(db, t), names, strict)
  {
    BaseIsFree(db, tenant, newId, base, t);
    if SubscriptionOf(db, tenant).Some? {
      assert Fits(db, base, strict);
    }
    SettleKeepsSound(db, t, names, strict);
  }

  // ---------- Each step ----------

  // The one plan change that is cut short before it reaches the tenant: the subscription was
  // cancelled, an adjustment is due, and its number is taken.
  predicate CutShort(db: Db, r: Request, id: string, planId: string, timing: ChangeTiming, behavior: P.Behavior) {
    var found, plan := OwnSubscription(db, r.tenant, id), FindPlan(db, planId);
    && r.mayManage && found.Some? && found.value.status == CANCELLED && Usable(plan) && timing == Immediate
    && FindPlan(db, found.value.planId).Some?
    && Due(found.value, FindPlan(db, found.value.planId).value, plan.value, behavior, r.now) > 0
    && Adjustment(found.value.id, r.now) in db.invoices
  }

  predicate Collides(db: Db, step: Step) {
    step.Ask? && step.op.Change?
    && CutShort(db, step.request, step.op.id, step.op.planId, step.op.timing, step.op.behavior)
  }

  lemma MovePlanKeepsSoundIff(db: Db, s: Subscription, plan: Plan, due: int, now: int, names: set<string>, strict: bool)
    requires Sound(db, names, strict) && s in db.subscriptions
    ensures Sound(MovePlan(db, s, plan, due, now).db, names, strict)
       <==> !(strict && due > 0 && Adjustment(s.id, now) in db.invoices && s.status == CANCELLED)
  {
    var row := Moved(db.config, s, plan, now);
    var billed := db.(invoices := db.invoices[Adjustment(s.id, now) := AdjustmentInvoice(row, plan, due, now)]);
    ResettleKeepsSound(db, s, row, names, strict);
    ResettleKeepsSound(billed, s, row, names, strict);
    SaveKeepsSoundIff(db, s, row, names, strict);
  }

  lemma ChangeKeepsSoundIff(db: Db, r: Request, id: string, planId: string, timing: ChangeTiming,
                            behavior: P.Behavior, names: set<string>, strict: bool)
    requires Sound(db, names, strict)
    ensures Sound(ChangePlan(db, r, id, planId, timing, behavior).db, names, strict)
       <==> !(strict && CutShort(db, r, id, planId, timing, behavior))
  {
    var found, plan := OwnSubscription(db, r.tenant, id), FindPlan(db, planId);
    if r.mayManage && found.Some? && Usable(plan) && timing == Immediate {
      var current := FindPlan(db, found.value.planId);
      if current.Some? {
        MovePlanKeepsSoundIff(db, found.value, plan.value,
                              Due(found.value, current.value, plan.value, behavior, r.now), r.now, names, strict);
      }
    }
  }

  lemma CreateKeepsSound(db: Db, r: Request, dto: CreateDto, names: set<string>, strict: bool)
    requires Sound(db, names, strict)
    ensures Sound(CreateSubscription(db, r, dto).db, names, strict)
  {
    var tenant, plan := dto.tenantId.GetOr(r.tenant), FindPlan(db, dto.planId);
    if plan.Some? {
      var s := NewSubscription(db.config, dto, plan.value, tenant, r.newId, r.now);
      if !TenantTaken(db.subscriptions, s) && tenant in names {
        SettleKeepsSound(db, s, names, strict);
      }
    }
  }

  lemma UpdateKeepsSound(db: Db, r: Request, id: string, dto: UpdateDto, names: set<string>, strict: bool)
    requires Sound(db, names, strict)
    ensures Sound(UpdateSubscription(db, r, id, dto).db, names, strict)
  {
    var found := OwnSubscription(db, r.tenant, id);
    if found.Some? {
      ResettleKeepsSound(db, found.value, Patched(found.value, dto, r.now), names, strict);
      SaveKeepsSoundIff(db, found.value, Patched(found.value, dto, r.now), names, strict);
    }
  }

  lemma SwitchKeepsSound(db: Db, r: Request, id: string, names: set<string>, strict: bool)
    requires Sound(db, names, strict)
    ensures Sound(CancelSubscription(db, r, id).db, names, strict)
    ensures Sound(ResumeSubscription(db, r, id).db, names, strict)
    ensures Sound(StartTrial(db, r, id).db, names, strict)
  {
    var found := OwnSubscription(db, r.tenant, id);
    if found.Some? {
      var s := found.value;
      forall t: Subscription | t.id == s.id && t.tenantId == s.tenantId
        ensures Sound(Settle(db, t), names, strict)
      {
        ResettleKeepsSound(db, s, t, names, strict);
      }
    }
  }

  lemma TenantTrialKeepsSound(db: Db, r: Request, planId: string, seatCount: Option<int>, names: set<string>,
                              strict: bool)
    requires Sound(db, names, strict)
    ensures Sound(StartTenantTrial(db, r, planId, seatCount).db, names, strict)
  {
    var plan, base := FindPlan(db, planId), UpsertBase(db, r.tenant, r.newId);
    if r.mayManage && Usable(plan) && base.Ok? {
      UpsertKeepsSound(db, r.tenant, r.newId, base.value, OnTrial(base.value, plan.value, seatCount, r.now), names,
                       strict);
    }
  }

  lemma StripeWritesKnownTenant(db: Db, kind: Kind, o: StripeObject, tenant: Option<string>, newId: string, now: int,
                                names: set<string>, strict: bool, row: Subscription)
    requires Sound(db, names, strict) && (tenant.Some? ==> tenant.value in names)
    requires StripeWrite(db, kind, o, tenant, newId, now) == Some(Ok(row))
    ensures row.tenantId in names
  {
    var existing := FindFirst(db.subscriptions, ByProviderId(Stripe, o.id.value));
    assert existing.Some? ==> Fits(db, existing.value, strict);
  }

  // A Stripe object may move the row it names to another tenant, but not onto a tenant that has
  // a row.
  lemma StripeSubscriptionKeepsSound(db: Db, kind: Kind, o: StripeObject, tenant: Option<string>, newId: string,
                                     now: int, names: set<string>, strict: bool)
    requires Sound(db, names, strict) && (tenant.Some? ==> tenant.value in names)
    ensures Sound(Left(db, ApplyStripeSubscription(db, kind, o, tenant, newId, now)), names, strict)
  {
    match StripeWrite(db, kind, o, tenant, newId, now)
    case None =>
    case Some(Err(_)) =>
    case Some(Ok(row)) =>
      StripeWritesKnownTenant(db, kind, o, tenant, newId, now, names, strict, row);
      if !TenantTaken(db.subscriptions, row) {
        SettleKeepsSound(db, row, names, strict);
      }
  }

  lemma BookingKeepsSound(db: Db, base: Subscription, plan: Plan, number: string, o: PaystackObject, tenant: string,
                          newId: string, now: int, names: set<string>, strict: bool)
    requires Sound(db, names, strict) && UpsertBase(db, tenant, newId) == Ok(base)
    ensures Sound(Charge(db, base, plan, number, o, now), names, strict)
  {
    var row := ChargedRow(db.config, base, plan, o, now);
    UpsertKeepsSound(db.(invoices := db.invoices[Numbered(Paystack, number) := ChargeInvoice(row, o, now)]), tenant,
                     newId, base, row, names, strict);
  }

  lemma ChargeKeepsSound(db: Db, o: PaystackObject, tenant: Option<string>, newId: string, now: int,
                         names: set<string>, strict: bool)
    requires Sound(db, names, strict)
    ensures Sound(Left(db, ApplyCharge(db, o, tenant, newId, now)), names, strict)
  {
    var resolved := tenant.OrElse(Str(o.metaTenantId));
    if resolved.Some? && Chargeable(db, o) {
      var base := UpsertBase(db, resolved.value, newId);
      if base.Ok? {
        BookingKeepsSound(db, base.value, PaystackPlan(db, o).value, ChargeNumber(o).value, o, resolved.value, newId,
                          now, names, strict);
      }
    }
  }

  lemma PaystackSubscriptionKeepsSound(db: Db, kind: Kind, o: PaystackObject, tenant: Option<string>, now: int,
                                       names: set<string>, strict: bool)
    requires Sound(db, names, strict)
    ensures Sound(Left(db, ApplyPaystackSubscription(db, kind, o, tenant, now)), names, strict)
  {
    var id := Str(o.subscriptionCode).OrElse(Str(o.id));
    if id.Some? {
      var found := FindFirst(db.subscriptions, PaystackOwner(id.value, tenant, db.config.emptyFilterMatches));
      if found.Some? {
        ResettleKeepsSound(db, found.value, found.value.(status := CANCELLED, canceledAt := Some(now)), names, strict);
        ResettleKeepsSound(db, found.value, found.value.(status := ACTIVE, canceledAt := None), names, strict);
      }
    }
  }

  lemma ApplyStripeKeepsSound(db: Db, kind: Kind, o: StripeObject, tenant: Option<string>, newId: string, now: int,
                              names: set<string>, strict: bool)
    requires Sound(db, names, strict) && (tenant.Some? ==> tenant.value in names)
    ensures Sound(ApplyStripe(db, kind, o, tenant, newId, now).0, names, strict)
  {
    StripeSubscriptionKeepsSound(db, kind, o, tenant, newId, now, names, strict);
  }

  lemma StripeKeepsSound(db: Db, d: StripeDelivery, names: set<string>, strict: bool)
    requires Sound(db, names, strict)
    ensures Sound(ProcessStripe(db, d).db, names, strict)
  {
    if ProcessStripe(db, d).db != db {
      var tenant := ResolveStripeTenant(db, d.payload);
      var applied := ApplyStripe(db, d.kind.value, d.payload, tenant, d.newId, d.now);
      ApplyStripeKeepsSound(db, d.kind.value, d.payload, tenant, d.newId, d.now, names, strict);
      SameTables(applied.0, Recorded(applied, StripeKey(d), tenant, d.kind.value), names, strict);
    }
  }

  lemma ApplyPaystackKeepsSound(db: Db, kind: Kind, o: PaystackObject, tenant: Option<string>, newId: string,
                                now: int, names: set<string>, strict: bool)
    requires Sound(db, names, strict)
    ensures Sound(ApplyPaystack(db, kind, o, tenant, newId, now).0, names, strict)
  {
    if kind.ChargeSuccess? {
      ChargeKeepsSound(db, o, tenant, newId, now, names, strict);
    } else {
      PaystackSubscriptionKeepsSound(db, kind, o, tenant, now, names, strict);
    }
  }

  lemma PaystackKeepsSound(db: Db, d: PaystackDelivery, names: set<string>, strict: bool)
    requires Sound(db, names, strict)
    ensures Sound(ProcessPaystack(db, d).db, names, strict)
  {
    if ProcessPaystack(db, d).db != db {
      var tenant := ResolvePaystackTenant(db, d.payload);
      var applied := ApplyPaystack(db, d.kind.value, d.payload, tenant, d.newId, d.now);
      ApplyPaystackKeepsSound(db, d.kind.value, d.payload, tenant, d.newId, d.now, names, strict);
      SameTables(applied.0, Recorded(applied, PaystackKey(d), tenant, d.kind.value), names, strict);
    }
  }

  lemma SessionKeepsSound(db: Db, r: Request, sessionId: string, session: StripeSession, names: set<string>,
                          strict: bool)
    requires Sound(db, names, strict)
    ensures Sound(ApplySession(db, r, sessionId, session).db, names, strict)
  {
    var plan, base := SessionPlan(db, session), UpsertBase(db, r.tenant, r.newId);
    if plan.Some? && base.Ok? {
      var row := SessionRow(db.config, base.value, plan.value, session, r.now);
      var number := Numbered(Stripe, Str(session.invoiceId).GetOr("checkout:" + sessionId));
      UpsertKeepsSound(db.(invoices := db.invoices[number := SessionInvoice(row, session, r.now)]), r.tenant,
                       r.newId, base.value, row, names, strict);
    }
  }

  lemma ReturnedChargeKeepsSound(db: Db, r: Request, reference: string, charge: PaystackObject, names: set<string>,
                                 strict: bool)
    requires Sound(db, names, strict)
    ensures Sound(ApplyReturnedCharge(db, r, reference, charge).db, names, strict)
  {
    ChargeKeepsSound(db, charge, Some(r.tenant), r.newId, r.now, names, strict);
  }

  lemma ReturnsKeepSound(db: Db, r: Request, id: Option<string>, session: Option<StripeSession>,
                         charge: Option<PaystackObject>, names: set<string>, strict: bool)
    requires Sound(db, names, strict)
    ensures Sound(ConfirmStripe(db, r, id, session).db, names, strict)
    ensures Sound(ConfirmPaystack(db, r, id, charge).db, names, strict)
  {
    if Given(id) && session.Some? {
      SessionKeepsSound(db, r, id.value, session.value, names, strict);
    }
    if Given(id) && charge.Some? {
      ReturnedChargeKeepsSound(db, r, id.value, charge.value, names, strict);
    }
  }

  lemma AnswerKeepsSoundIff(db: Db, r: Request, op: Op, names: set<string>, strict: bool)
    requires Sound(db, names, strict)
    ensures Sound(Answer(db, r, op).db, names, strict) <==> !(strict && Collides(db, Ask(r, op)))
  {
    match op
    case Create(dto) => CreateKeepsSound(db, r, dto, names, strict);
    case Update(id, dto) => UpdateKeepsSound(db, r, id, dto, names, strict);
    case Change(id, planId, timing, behavior) => ChangeKeepsSoundIff(db, r, id, planId, timing, behavior, names,
                                                                     strict);
    case Cancel(id) => SwitchKeepsSound(db, r, id, names, strict);
    case Resume(id) => SwitchKeepsSound(db, r, id, names, strict);
    case Trial(id) => SwitchKeepsSound(db, r, id, names, strict);
    case TenantTrial(planId, seatCount) => TenantTrialKeepsSound(db, r, planId, seatCount, names, strict);
    case ReturnFromStripe(sessionId, session) => ReturnsKeepSound(db, r, sessionId, session, None, names, strict);
    case ReturnFromPaystack(reference, charge) => ReturnsKeepSound(db, r, reference, None, charge, names, strict);
  }

  lemma StepKeepsSoundIff(db: Db, step: Step, names: set<string>, strict: bool)
    requires Sound(db, names, strict)
    ensures Sound(After(db, step), names, strict) <==> !(strict && Collides(db, step))
  {
    match step
    case StripeHook(d) => StripeKeepsSound(db, d, names, strict);
    case PaystackHook(d) => PaystackKeepsSound(db, d, names, strict);
    case EditPlans(plans) =>
    case Ask(r, op) => AnswerKeepsSoundIff(db, r, op, names, strict);
  }

  // The keys hold over every step, and no step adds or drops a tenant.
  lemma StepKeepsTables(db: Db, step: Step)
    requires Tables(db)
    ensures Tables(After(db, step)) && After(db, step).tenants.Keys == db.tenants.Keys
  {
    assert Sound(db, db.tenants.Keys, false) by {
      forall s | s in db.subscriptions
        ensures Fits(db, s, false)
      {
      }
    }
    StepKeepsSoundIff(db, step, db.tenants.Keys, false);
    forall s | s in After(db, step).subscriptions
      ensures s.tenantId in After(db, step).tenants
    {
      assert Fits(After(db, step), s, false);
    }
  }

  lemma CoupledIsSound(db: Db)
    ensures Coupled(db) <==> Sound(db, db.tenants.Keys, true)
  {
    if Sound(db, db.tenants.Keys, true) {
      forall s | s in db.subscriptions
        ensures Mirrors(db.tenants, s)
      {
        assert Fits(db, s, true);
      }
    }
    if Coupled(db) {
      forall s | s in db.subscriptions
        ensures Fits(db, s, true)
      {
        assert Mirrors(db.tenants, s);
      }
    }
  }

  // Every step keeps the coupling, but for the plan change that is cut short.
  lemma StepKeepsCoupledIff(db: Db, step: Step)
    requires Coupled(db)
    ensures Coupled(After(db, step)) <==> !Collides(db, step)
  {
    var names := db.tenants.Keys;
    CoupledIsSound(db);
    CoupledIsSound(After(db, step));
    CoupledIsTables(db);
    StepKeepsSoundIff(db, step, names, true);
    StepKeepsTables(db, step);
  }

  lemma CoupledIsTables(db: Db)
    requires Coupled(db)
    ensures Tables(db)
  {
    forall s | s in db.subscriptions
      ensures s.tenantId in db.tenants
    {
      assert Mirrors(db.tenants, s);
    }
  }

  // ---------- Runs ----------

  function ChangeKey(step: Step): Option<InvoiceKey> {
    if step.Ask? && step.op.Change? then Some(Adjustment(step.op.id, step.request.now)) else None
  }

  // No plan change comes in the same millisecond as an earlier one of the same subscription.
  predicate NoTwoAtOnce(steps: seq<Step>, used: set<InvoiceKey>)
    decreases |steps|
  {
    if steps == [] then true
    else
      var key := ChangeKey(steps[0]);
      (key.Some? ==> key.value !in used) && NoTwoAtOnce(steps[1..], if key.Some? then used + {key.value} else used)
  }

  // No event row is lost, and no adjustment is added.
  predicate KeepsRecords(db: Db, after: Db) {
    db.events.Keys <= after.events.Keys &&
    forall key: InvoiceKey :: key.Adjustment? && key in after.invoices ==> key in db.invoices
  }

  lemma StripeSubscriptionKeepsPapers(db: Db, kind: Kind, o: StripeObject, tenant: Option<string>, newId: string,
                                      now: int)
    ensures Left(db, ApplyStripeSubscription(db, kind, o, tenant, newId, now)).invoices == db.invoices
    ensures Left(db, ApplyStripeSubscription(db, kind, o, tenant, newId, now)).events == db.events
  {
  }

  lemma ApplyStripeKeepsRecords(db: Db, kind: Kind, o: StripeObject, tenant: Option<string>, newId: string, now: int)
    ensures KeepsRecords(db, ApplyStripe(db, kind, o, tenant, newId, now).0)
  {
    StripeSubscriptionKeepsPapers(db, kind, o, tenant, newId, now);
  }

  lemma StripeKeepsRecords(db: Db, d: StripeDelivery)
    ensures KeepsRecords(db, ProcessStripe(db, d).db)
  {
    if d.kind.Some? {
      ApplyStripeKeepsRecords(db, d.kind.value, d.payload, ResolveStripeTenant(db, d.payload), d.newId, d.now);
    }
  }

  lemma ChargeKeepsRecords(db: Db, o: PaystackObject, tenant: Option<string>, newId: string, now: int)
    ensures KeepsRecords(db, Left(db, ApplyCharge(db, o, tenant, newId, now)))
  {
  }

  lemma PaystackSubscriptionKeepsPapers(db: Db, kind: Kind, o: PaystackObject, tenant: Option<string>, now: int)
    ensures Left(db, ApplyPaystackSubscription(db, kind, o, tenant, now)).invoices == db.invoices
    ensures Left(db, ApplyPaystackSubscription(db, kind, o, tenant, now)).events == db.events
  {
  }

  lemma ApplyPaystackKeepsRecords(db: Db, kind: Kind, o: PaystackObject, tenant: Option<string>, newId: string,
                                  now: int)
    ensures KeepsRecords(db, ApplyPaystack(db, kind, o, tenant, newId, now).0)
  {
    if kind.ChargeSuccess? {
      ChargeKeepsRecords(db, o, tenant, newId, now);
    } else {
      PaystackSubscriptionKeepsPapers(db, kind, o, tenant, now);
    }
  }

  lemma PaystackKeepsRecords(db: Db, d: PaystackDelivery)
    ensures KeepsRecords(db, ProcessPaystack(db, d).db)
  {
    if d.kind.Some? {
      ApplyPaystackKeepsRecords(db, d.kind.value, d.payload, ResolvePaystackTenant(db, d.payload), d.newId, d.now);
    }
  }

  lemma SessionKeepsRecords(db: Db, r: Request, sessionId: string, session: StripeSession)
    ensures KeepsRecords(db, ApplySession(db, r, sessionId, session).db)
  {
  }

  lemma ReturnedChargeKeepsRecords(db: Db, r: Request, reference: string, charge: PaystackObject)
    ensures KeepsRecords(db, ApplyReturnedCharge(db, r, reference, charge).db)
  {
    ChargeKeepsRecords(db, charge, Some(r.tenant), r.newId, r.now);
  }

  lemma ReturnsKeepRecords(db: Db, r: Request, id: Option<string>, session: Option<StripeSession>,
                           charge: Option<PaystackObject>)
    ensures KeepsRecords(db, ConfirmStripe(db, r, id, session).db)
    ensures KeepsRecords(db, ConfirmPaystack(db, r, id, charge).db)
  {
    if Given(id) && session.Some? {
      SessionKeepsRecords(db, r, id.value, session.value);
    }
    if Given(id) && charge.Some? {
      ReturnedChargeKeepsRecords(db, r, id.value, charge.value);
    }
  }

  lemma CreateKeepsPapers(db: Db, r: Request, dto: CreateDto)
    ensures var after := CreateSubscription(db, r, dto).db; after.invoices == db.invoices && after.events == db.events
  {
  }

  lemma UpdateKeepsPapers(db: Db, r: Request, id: string, dto: UpdateDto)
    ensures var after := UpdateSubscription(db, r, id, dto).db;
            after.invoices == db.invoices && after.events == db.events
  {
  }

  lemma SwitchesKeepPapers(db: Db, r: Request, id: string)
    ensures var after := CancelSubscription(db, r, id).db; after.invoices == db.invoices && after.events == db.events
    ensures var after := ResumeSubscription(db, r, id).db; after.invoices == db.invoices && after.events == db.events
  {
  }

  lemma TrialKeepsPapers(db: Db, r: Request, id: string)
    ensures var after := StartTrial(db, r, id).db; after.invoices == db.invoices && after.events == db.events
  {
  }

  lemma TenantTrialKeepsPapers(db: Db, r: Request, planId: string, seatCount: Option<int>)
    ensures var after := StartTenantTrial(db, r, planId, seatCount).db;
            after.invoices == db.invoices && after.events == db.events
  {
  }

  lemma MoveAddsItsKey(db: Db, s: Subscription, plan: Plan, due: int, now: int)
    ensures var after := MovePlan(db, s, plan, due, now).db;
            after.events == db.events && after.invoices.Keys <= db.invoices.Keys + {Adjustment(s.id, now)}
  {
  }

  lemma ChangeAddsItsKey(db: Db, r: Request, id: string, planId: string, timing: ChangeTiming, behavior: P.Behavior)
    ensures var after := ChangePlan(db, r, id, planId, timing, behavior).db;
            after.events == db.events && after.invoices.Keys <= db.invoices.Keys + {Adjustment(id, r.now)}
  {
    var found, plan := OwnSubscription(db, r.tenant, id), FindPlan(db, planId);
    if found.Some? && plan.Some? {
      var current := FindPlan(db, found.value.planId);
      if current.Some? {
        MoveAddsItsKey(db, found.value, plan.value, Due(found.value, current.value, plan.value, behavior, r.now),
                       r.now);
      }
    }
  }

  lemma OtherOpsKeepRecords(db: Db, r: Request, op: Op)
    requires !op.Change?
    ensures KeepsRecords(db, Answer(db, r, op).db)
  {
    match op
    case ReturnFromStripe(id, session) => ReturnsKeepRecords(db, r, id, session, None);
    case ReturnFromPaystack(id, charge) => ReturnsKeepRecords(db, r, id, None, charge);
    case Create(dto) => CreateKeepsPapers(db, r, dto);
    case Update(id, dto) => UpdateKeepsPapers(db, r, id, dto);
    case Cancel(id) => SwitchesKeepPapers(db, r, id);
    case Resume(id) => SwitchesKeepPapers(db, r, id);
    case Trial(id) => TrialKeepsPapers(db, r, id);
    case TenantTrial(planId, seatCount) => TenantTrialKeepsPapers(db, r, planId, seatCount);
  }

  lemma StepKeepsRecords(db: Db, step: Step)
    requires ChangeKey(step).None?
    ensures KeepsRecords(db, After(db, step))
  {
    match step
    case EditPlans(_) =>
    case StripeHook(d) => StripeKeepsRecords(db, d);
    case PaystackHook(d) => PaystackKeepsRecords(db, d);
    case Ask(r, op) => OtherOpsKeepRecords(db, r, op);
  }

  // No step loses an event row.
  lemma StepKeepsEvents(db: Db, step: Step)
    ensures db.events.Keys <= After(db, step).events.Keys
  {
    if ChangeKey(step).None? {
      StepKeepsRecords(db, step);
    } else {
      ChangeAddsItsKey(db, step.request, step.op.id, step.op.planId, step.op.timing, step.op.behavior);
    }
  }

  // Adjustments are numbered by plan changes alone.
  lemma AdjustmentsComeFromChanges(db: Db, step: Step, key: InvoiceKey)
    requires key.Adjustment? && key in After(db, step).invoices
    ensures key in db.invoices || Some(key) == ChangeKey(step)
  {
    if ChangeKey(step).None? {
      StepKeepsRecords(db, step);
    } else {
      ChangeAddsItsKey(db, step.request, step.op.id, step.op.planId, step.op.timing, step.op.behavior);
    }
  }

  lemma CollisionIsReuse(db: Db, step: Step)
    requires Collides(db, step)
    ensures ChangeKey(step).Some? && ChangeKey(step).value in db.invoices
  {
  }

  lemma {:induction false} RunFrom(db: Db, steps: seq<Step>, used: set<InvoiceKey>)
    requires Coupled(db) && NoTwoAtOnce(steps, used)
    requires forall key :: key in db.invoices && key.Adjustment? ==> key in used
    ensures Coupled(Run(db, steps))
    decreases |steps|
  {
    if steps != [] {
      var step := steps[0];
      if Collides(db, step) {
        CollisionIsReuse(db, step);
      }
      StepKeepsCoupledIff(db, step);
      forall key | key in After(db, step).invoices && key.Adjustment?
        ensures key in used || Some(key) == ChangeKey(step)
      {
        AdjustmentsComeFromChanges(db, step, key);
      }
      RunFrom(After(db, step), steps[1..], if ChangeKey(step).Some? then used + {ChangeKey(step).value} else used);
    }
  }

  // Over every run in which no subscription changes plan twice in a millisecond, each tenant has
  // at most one subscription, and its status is the one billing gives that subscription.
  lemma RunKeepsCoupled(db: Db, steps: seq<Step>)
    requires Coupled(db) && NoTwoAtOnce(steps, db.invoices.Keys)
    ensures Coupled(Run(db, steps))
  {
    RunFrom(db, steps, db.invoices.Keys);
  }
}
