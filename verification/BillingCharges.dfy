// Paystack charges (src/billing/billing.service.ts): whom a charge is applied to, that it reaches
// the books of each payee once, by webhook, by return or both, and only when the payment is the
// expected one.
module BillingCharges {
  import opened Seqs
  import opened Calendar
  import opened Billing
  import opened BillingCoupling
  import opened BillingIsolation
  import opened BillingAmounts
  import P = Proration
  import T = Tenants
  import Text

  // The tables a charge writes.
  predicate SameBooks(a: Db, b: Db) {
    a.subscriptions == b.subscriptions && a.tenants == b.tenants && a.invoices == b.invoices && a.plans == b.plans
    && a.config == b.config
  }

  // The charge says when it was paid or made.
  predicate Dated(o: PaystackObject) {
    o.paidAt.Some? || o.createdAt.Some?
  }

  // ---------- Applying a charge twice ----------

  // Charging the row a charge has made makes the same row, exactly when the charge is dated or
  // the clock stands still.
  lemma RowTwice(config: Config, base: Subscription, plan: Plan, o: PaystackObject, now: int, later: int)
    ensures var row := ChargedRow(config, base, plan, o, now);
            ChargedRow(config, row, plan, o, later) == row <==> Dated(o) || now == later
  {
  }

  // The state after a charge: the row, its tenant, its invoice.
  lemma ChargeLeaves(db: Db, o: PaystackObject, tenant: string, newId: string, now: int, after: Db, row: Subscription)
    requires Keyed(db.subscriptions) && ApplyCharge(db, o, Some(tenant), newId, now) == Done(after)
    requires UpsertBase(db, tenant, newId).Ok?
    requires row == ChargedRow(db.config, UpsertBase(db, tenant, newId).value, PaystackPlan(db, o).value, o, now)
    ensures after.subscriptions == Written(db.subscriptions, row) && Keyed(after.subscriptions)
    ensures row in after.subscriptions && SubscriptionOf(after, tenant) == Some(row)
    ensures after.tenants == db.tenants[tenant := T.ACTIVE]
    ensures after.invoices == db.invoices[Numbered(Paystack, ChargeNumber(o).value) := ChargeInvoice(row, o, now)]
    ensures after.events == db.events && after.plans == db.plans && after.config == db.config
  {
    BaseIsFree(db, tenant, newId, UpsertBase(db, tenant, newId).value, row);
    SettledRow(db.subscriptions, row);
  }

  lemma Recharged(db: Db, o: PaystackObject, tenant: string, newId: string, now: int, row: Subscription)
    requires SubscriptionOf(db, tenant) == Some(row) && Chargeable(db, o)
    ensures ApplyCharge(db, o, Some(tenant), newId, now)
            == Done(Charge(db, row, PaystackPlan(db, o).value, ChargeNumber(o).value, o, now))
  {
  }

  // The books already hold what the charge writes.
  predicate Booked(db: Db, row: Subscription, o: PaystackObject, now: int) {
    && ChargeNumber(o).Some?
    && Keyed(db.subscriptions) && row in db.subscriptions
    && row.tenantId in db.tenants && db.tenants[row.tenantId] == TenantStatusOf(row.status)
    && Numbered(Paystack, ChargeNumber(o).value) in db.invoices
    && db.invoices[Numbered(Paystack, ChargeNumber(o).value)] == ChargeInvoice(row, o, now)
  }

  lemma BookedIsIdle(db: Db, row: Subscription, plan: Plan, o: PaystackObject, now: int, later: int)
    requires Booked(db, row, o, now) && ChargedRow(db.config, row, plan, o, later) == row
    requires PaidAt(o, now) == PaidAt(o, later)
    ensures Charge(db, row, plan, ChargeNumber(o).value, o, later) == db
  {
    RewritingIsIdle(db.subscriptions, row);
    var key := Numbered(Paystack, ChargeNumber(o).value);
    assert db.invoices[key := ChargeInvoice(row, o, later)] == db.invoices;
    assert db.tenants[row.tenantId := TenantStatusOf(row.status)] == db.tenants;
  }

  lemma OtherRowIsNotIdle(db: Db, row: Subscription, plan: Plan, o: PaystackObject, later: int)
    requires ChargeNumber(o).Some? && Keyed(db.subscriptions) && row in db.subscriptions
    requires ChargedRow(db.config, row, plan, o, later) != row
    ensures Charge(db, row, plan, ChargeNumber(o).value, o, later) != db
  {
    var again := ChargedRow(db.config, row, plan, o, later);
    WrittenRows(db.subscriptions, again, again);
    if again in db.subscriptions {
      KeyedRows(db.subscriptions, row, again);
    }
  }

  // Applying a charge a second time leaves everything as it is exactly when the charge is dated
  // or the clock stands still: an undated charge restarts the period.
  lemma ReapplyingIsIdleIff(db: Db, o: PaystackObject, tenant: string, newId: string, now: int, after: Db,
                            otherId: string, later: int)
    requires Keyed(db.subscriptions) && ApplyCharge(db, o, Some(tenant), newId, now) == Done(after)
    ensures ApplyCharge(after, o, Some(tenant), otherId, later) == Done(after) <==> Dated(o) || now == later
  {
    var plan, base := PaystackPlan(db, o).value, UpsertBase(db, tenant, newId).value;
    var row := ChargedRow(db.config, base, plan, o, now);
    ChargeLeaves(db, o, tenant, newId, now, after, row);
    Recharged(after, o, tenant, otherId, later, row);
    RowTwice(db.config, base, plan, o, now, later);
    if Dated(o) || now == later {
      BookedIsIdle(after, row, plan, o, now, later);
    } else {
      OtherRowIsNotIdle(after, row, plan, o, later);
    }
  }

  lemma AppliedIsIdleIff(db: Db, o: PaystackObject, tenant: string, newId: string, now: int, after: Db)
    requires Keyed(db.subscriptions) && ApplyCharge(db, o, Some(tenant), newId, now) == Done(after)
    ensures after == db <==> InForce(db, o, tenant, now)
  {
    var plan, base, number := PaystackPlan(db, o).value, UpsertBase(db, tenant, newId).value, ChargeNumber(o).value;
    var row := ChargedRow(db.config, base, plan, o, now);
    ChargeLeaves(db, o, tenant, newId, now, after, row);
    if SubscriptionOf(db, tenant).Some? {
      OnTermsIsFixed(db.config, base, plan, o, now);
      if row == base {
        ForcedIsIdle(db, base, plan, number, o, now);
      } else {
        OtherRowIsNotIdle(db, base, plan, o, now);
      }
    }
  }

  // The codes a charge brings for the customer and for the subscription.
  function CustomerOf(o: PaystackObject): Option<string> {
    Str(o.customerCode).OrElse(Str(o.customerId))
  }

  function CodeOf(o: PaystackObject): Option<string> {
    Str(o.subscriptionCode).OrElse(Str(o.authorizationCode)).OrElse(Str(o.reference))
  }

  // What a code of the charge says of the row's: the same, or nothing.
  predicate Agrees(code: Option<string>, held: Option<string>) {
    code.Some? ==> held == code
  }

  // One interval from the day of payment.
  function PaidUntil(config: Config, plan: Plan, o: PaystackObject, now: int): int {
    Billing.AddInterval(config, PaidAt(o, now), plan.interval)
  }

  // The row is on the plan and the seats of the charge, for the period from its date, active,
  // under the provider's codes and without a trial or a cancellation.
  predicate OnTerms(config: Config, s: Subscription, plan: Plan, o: PaystackObject, now: int) {
    && s.planId == plan.id && s.seatCount == o.metaSeatCount.GetOr(1) && s.status == ACTIVE && s.provider == Paystack
    && s.periodStart == Some(PaidAt(o, now))
    && s.periodEnd == Some(PaidUntil(config, plan, o, now))
    && !s.cancelAtPeriodEnd && s.canceledAt.None? && s.trialEndsAt.None?
    && Agrees(CustomerOf(o), s.customerId) && Agrees(CodeOf(o), s.providerId)
  }

  // The fields of a charged row.
  predicate Fields(row: Subscription, base: Subscription, plan: Plan, o: PaystackObject, paidAt: int, until: int) {
    && row.id == base.id && row.tenantId == base.tenantId && row.planId == plan.id && row.status == ACTIVE
    && row.provider == Paystack && row.seatCount == o.metaSeatCount.GetOr(1)
    && row.customerId == CustomerOf(o).OrElse(base.customerId) && row.providerId == CodeOf(o).OrElse(base.providerId)
    && !row.cancelAtPeriodEnd && row.trialEndsAt.None? && row.canceledAt.None?
    && row.periodStart == Some(paidAt) && row.periodEnd == Some(until)
  }

  lemma RowHasFields(config: Config, base: Subscription, plan: Plan, o: PaystackObject, now: int)
    ensures Fields(ChargedRow(config, base, plan, o, now), base, plan, o, PaidAt(o, now),
                   PaidUntil(config, plan, o, now))
  {
  }

  lemma FieldsFixRow(row: Subscription, base: Subscription, plan: Plan, o: PaystackObject, paidAt: int, until: int)
    requires Fields(row, base, plan, o, paidAt, until)
    ensures row == base <==> Fields(base, base, plan, o, paidAt, until)
  {
  }

  // The terms are what charging the row again would leave as it is.
  lemma OnTermsIsFixed(config: Config, s: Subscription, plan: Plan, o: PaystackObject, now: int)
    ensures OnTerms(config, s, plan, o, now) <==> ChargedRow(config, s, plan, o, now) == s
  {
    var row, paidAt, until := ChargedRow(config, s, plan, o, now), PaidAt(o, now), PaidUntil(config, plan, o, now);
    RowHasFields(config, s, plan, o, now);
    FieldsFixRow(row, s, plan, o, paidAt, until);
    TermsAreFields(config, s, plan, o, now);
  }

  lemma TermsAreFields(config: Config, s: Subscription, plan: Plan, o: PaystackObject, now: int)
    ensures OnTerms(config, s, plan, o, now)
       <==> Fields(s, s, plan, o, PaidAt(o, now), PaidUntil(config, plan, o, now))
  {
    AgreesIff(CustomerOf(o), s.customerId);
    AgreesIff(CodeOf(o), s.providerId);
  }

  lemma AgreesIff(code: Option<string>, held: Option<string>)
    ensures Agrees(code, held) <==> code.OrElse(held) == held
  {
  }

  // The tenant's subscription is on the charge's terms, the tenant is active and the invoice is in
  // place.
  predicate InForce(db: Db, o: PaystackObject, tenant: string, now: int) {
    var found, plan, number := SubscriptionOf(db, tenant), PaystackPlan(db, o), ChargeNumber(o);
    && found.Some? && plan.Some? && number.Some?
    && OnTerms(db.config, found.value, plan.value, o, now)
    && tenant in db.tenants && db.tenants[tenant] == T.ACTIVE
    && InvoiceAt(db, Numbered(Paystack, number.value)) == Some(ChargeInvoice(found.value, o, now))
  }

  lemma ForcedIsIdle(db: Db, row: Subscription, plan: Plan, number: string, o: PaystackObject, now: int)
    requires Keyed(db.subscriptions) && row in db.subscriptions && ChargedRow(db.config, row, plan, o, now) == row
    ensures Charge(db, row, plan, number, o, now) == db <==>
              row.tenantId in db.tenants && db.tenants[row.tenantId] == T.ACTIVE
              && InvoiceAt(db, Numbered(Paystack, number)) == Some(ChargeInvoice(row, o, now))
  {
    RewritingIsIdle(db.subscriptions, row);
    var after, key := Charge(db, row, plan, number, o, now), Numbered(Paystack, number);
    assert after.subscriptions == db.subscriptions;
    assert after.tenants[row.tenantId] == T.ACTIVE && after.invoices[key] == ChargeInvoice(row, o, now);
    if row.tenantId in db.tenants && db.tenants[row.tenantId] == T.ACTIVE
        && InvoiceAt(db, key) == Some(ChargeInvoice(row, o, now)) {
      assert db.tenants[row.tenantId := T.ACTIVE] == db.tenants;
      assert db.invoices[key := ChargeInvoice(row, o, now)] == db.invoices;
    }
  }

  // An instance of the undated charge: applied at two times it leaves two periods.
  lemma UndatedChargeExample(now: int, later: int) returns (db: Db, o: PaystackObject, after: Db)
    requires now != later
    ensures Keyed(db.subscriptions) && ApplyCharge(db, o, Some("t"), "s", now) == Done(after)
    ensures ApplyCharge(after, o, Some("t"), "s", later) != Done(after)
  {
    var plan := Plan("p", 1.0, "NGN", "month", true, false, None, None);
    db := Db(map["t" := T.TRIAL], [], map[], map[], [plan], Config(0, false));
    o := PaystackObject(None, Some("r"), true, Some(100), Some("NGN"), None, None, None, None, None, None, None,
                        Some("t"), Some("p"), Some(1), Some(100), Some("NGN"));
    assert PlanWithId("p")(plan) && PaystackPlan(db, o) == Some(plan);
    assert Chargeable(db, o);
    after := ApplyCharge(db, o, Some("t"), "s", now).db;
    ReapplyingIsIdleIff(db, o, "t", "s", now, after, "s", later);
  }

  // ---------- Webhook and return ----------

  // A step that brings a charge, by whomever and for whomever: the webhook of its success, or a
  // return from checkout.
  predicate Brings(step: Step, o: PaystackObject) {
    match step
    case PaystackHook(d) => d.kind == Some(ChargeSuccess) && d.payload == o
    case Ask(_, op) => op.ReturnFromPaystack? && op.charge == Some(o)
    case _ => false
  }

  ghost predicate AllBring(steps: seq<Step>, o: PaystackObject) {
    forall i :: 0 <= i < |steps| ==> Brings(steps[i], o)
  }

  function IdOf(step: Step): string {
    match step
    case PaystackHook(d) => d.newId
    case Ask(r, _) => r.newId
    case _ => ""
  }

  function TimeOf(step: Step): int {
    match step
    case PaystackHook(d) => d.now
    case Ask(r, _) => r.now
    case _ => 0
  }

  function Applied(db: Db, step: Step, o: PaystackObject, tenant: string): Effect {
    ApplyCharge(db, o, Some(tenant), IdOf(step), TimeOf(step))
  }

  // The tenant a step is for: the one a new, signed webhook finds, or the one whose manager comes
  // back from checkout with a successful charge that names no other tenant.
  function Claimant(db: Db, step: Step, o: PaystackObject): Option<string> {
    match step
    case PaystackHook(d) => if d.signed && PaystackKey(d) !in db.events then ResolvePaystackTenant(db, o) else None
    case Ask(r, op) =>
      if op.ReturnFromPaystack? && r.mayManage && Given(op.reference) && o.succeeded
         && !Foreign(o.metaTenantId, r.tenant)
      then Some(r.tenant) else None
    case _ => None
  }

  // The tenant a step applies the charge to: the one it is for, if that exists and has a row or
  // can be given one, and the charge is due a place.
  function Payee(db: Db, step: Step, o: PaystackObject): Option<string> {
    var tenant := Claimant(db, step, o);
    if tenant.Some? && tenant.value in db.tenants && Chargeable(db, o) && UpsertBase(db, tenant.value, IdOf(step)).Ok?
    then tenant else None
  }

  lemma PayeeIsCharged(db: Db, step: Step, o: PaystackObject)
    ensures Payee(db, step, o).Some? ==> Applied(db, step, o, Payee(db, step, o).value).Done?
  {
  }

  lemma HookBrings(db: Db, d: PaystackDelivery, o: PaystackObject)
    requires Brings(PaystackHook(d), o)
    ensures var payee := Payee(db, PaystackHook(d), o);
            SameBooks(ProcessPaystack(db, d).db,
                      if payee.Some? then Left(db, ApplyCharge(db, o, payee, d.newId, d.now)) else db)
  {
  }

  lemma ReturnedChargeBooks(db: Db, r: Request, reference: string, o: PaystackObject)
    requires o.succeeded
    ensures SameBooks(ApplyReturnedCharge(db, r, reference, o).db,
                      Left(db, ApplyCharge(db, o, Some(r.tenant), r.newId, r.now)))
  {
  }

  lemma UnpaidReturnBooks(db: Db, r: Request, reference: string, o: PaystackObject)
    requires !o.succeeded
    ensures SameBooks(ApplyReturnedCharge(db, r, reference, o).db, db)
  {
  }

  lemma ReturnBrings(db: Db, r: Request, op: Op, o: PaystackObject)
    requires Brings(Ask(r, op), o)
    ensures var payee := Payee(db, Ask(r, op), o);
            SameBooks(ConfirmPaystack(db, r, op.reference, op.charge).db,
                      if payee.Some? then Left(db, ApplyCharge(db, o, payee, r.newId, r.now)) else db)
  {
    if Given(op.reference) {
      if o.succeeded {
        ReturnedChargeBooks(db, r, op.reference.value, o);
      } else {
        UnpaidReturnBooks(db, r, op.reference.value, o);
      }
    }
  }

  // Both paths do to the books what applying the charge to the payee does, or nothing when there
  // is none.
  lemma BringsTheCharge(db: Db, step: Step, o: PaystackObject)
    requires Brings(step, o)
    ensures Payee(db, step, o).None? ==> SameBooks(After(db, step), db)
    ensures Payee(db, step, o).Some? ==>
              Applied(db, step, o, Payee(db, step, o).value).Done?
              && SameBooks(After(db, step), Applied(db, step, o, Payee(db, step, o).value).db)
  {
    PayeeIsCharged(db, step, o);
    if step.Ask? {
      ReturnBrings(db, step.request, step.op, o);
    } else {
      HookBrings(db, step.paystack, o);
    }
  }

  lemma TailBrings(steps: seq<Step>, o: PaystackObject)
    requires AllBring(steps, o) && steps != []
    ensures Brings(steps[0], o) && AllBring(steps[1..], o)
  {
  }

  // Every tenant the charge is applied to along a run.
  function Payees(db: Db, steps: seq<Step>, o: PaystackObject): set<string>
    decreases |steps|
  {
    if steps == [] then {}
    else
      var payee := Payee(db, steps[0], o);
      (if payee.Some? then {payee.value} else {}) + Payees(After(db, steps[0]), steps[1..], o)
  }

  // ---------- Once for each payee ----------

  lemma SameBooksSameRow(a: Db, b: Db, tenant: string)
    requires SameBooks(a, b)
    ensures SubscriptionOf(a, tenant) == SubscriptionOf(b, tenant)
  {
  }

  // Of a tenant a step does not touch, the row stays.
  lemma StayingRow(db: Db, after: Db, tenant: string, other: string)
    requires Keyed(db.subscriptions) && Keyed(after.subscriptions) && StaysIn(db, after, tenant) && other != tenant
    ensures SubscriptionOf(after, other) == SubscriptionOf(db, other)
  {
    var before, found := SubscriptionOf(db, other), SubscriptionOf(after, other);
    assert found.Some? ==> found.value in db.subscriptions;
    if before.Some? {
      assert before.value in after.subscriptions && OfTenant(other)(before.value);
      KeyedRows(after.subscriptions, before.value, found.value);
    }
  }

  // The row a dated charge makes of what the tenant had.
  function Terms(db: Db, o: PaystackObject, tenant: string, id: string): Subscription
    requires PaystackPlan(db, o).Some?
  {
    ChargedRow(db.config, SubscriptionOf(db, tenant).GetOr(Blank(id, tenant)), PaystackPlan(db, o).value, o, 0)
  }

  // The tenant's row is what the charge makes of it, and the tenant is active.
  predicate Has(db: Db, end: Db, o: PaystackObject, tenant: string) {
    var found := SubscriptionOf(end, tenant);
    && PaystackPlan(db, o).Some? && found.Some? && found.value == Terms(db, o, tenant, found.value.id)
    && tenant in end.tenants && end.tenants[tenant] == T.ACTIVE
  }

  // The tenant's row and status are as they were.
  predicate Untouched(db: Db, end: Db, tenant: string) {
    && SubscriptionOf(end, tenant) == SubscriptionOf(db, tenant)
    && (tenant in end.tenants <==> tenant in db.tenants)
    && (tenant in db.tenants ==> end.tenants[tenant] == db.tenants[tenant])
  }

  lemma PayeeHas(db: Db, step: Step, o: PaystackObject, tenant: string)
    requires Keyed(db.subscriptions) && Dated(o) && Brings(step, o) && Payee(db, step, o) == Some(tenant)
    ensures Has(db, After(db, step), o, tenant) && Keyed(After(db, step).subscriptions)
  {
    var after, base := Applied(db, step, o, tenant).db, UpsertBase(db, tenant, IdOf(step)).value;
    var row := ChargedRow(db.config, base, PaystackPlan(db, o).value, o, TimeOf(step));
    BringsTheCharge(db, step, o);
    ChargeLeaves(db, o, tenant, IdOf(step), TimeOf(step), after, row);
    SameBooksSameRow(After(db, step), after, tenant);
  }

  lemma OthersUntouched(db: Db, step: Step, o: PaystackObject, other: string)
    requires Keyed(db.subscriptions) && Brings(step, o) && Payee(db, step, o) != Some(other)
    ensures Untouched(db, After(db, step), other) && Keyed(After(db, step).subscriptions)
  {
    BringsTheCharge(db, step, o);
    var payee := Payee(db, step, o);
    if payee.Some? {
      var tenant, after := payee.value, Applied(db, step, o, payee.value).db;
      var base := UpsertBase(db, tenant, IdOf(step)).value;
      ChargeLeaves(db, o, tenant, IdOf(step), TimeOf(step), after,
                   ChargedRow(db.config, base, PaystackPlan(db, o).value, o, TimeOf(step)));
      ChargeStays(db, o, tenant, IdOf(step), TimeOf(step));
      StayingRow(db, after, tenant, other);
      SameBooksSameRow(After(db, step), after, other);
    } else {
      SameBooksSameRow(After(db, step), db, other);
    }
  }

  lemma BringingKeepsPlans(db: Db, step: Step, o: PaystackObject)
    requires Brings(step, o)
    ensures After(db, step).plans == db.plans && After(db, step).config == db.config
  {
    BringsTheCharge(db, step, o);
  }

  // What a charge has made of a row once, it makes of it again.
  lemma HasOnce(db: Db, next: Db, end: Db, o: PaystackObject, tenant: string)
    requires Has(db, next, o, tenant) && next.plans == db.plans && next.config == db.config
    requires Dated(o) && (Has(next, end, o, tenant) || Untouched(next, end, tenant))
    ensures Has(db, end, o, tenant)
  {
  }

  lemma HasLater(db: Db, next: Db, end: Db, o: PaystackObject, tenant: string)
    requires Untouched(db, next, tenant) && next.plans == db.plans && next.config == db.config
    ensures Has(next, end, o, tenant) ==> Has(db, end, o, tenant)
    ensures Untouched(next, end, tenant) ==> Untouched(db, end, tenant)
  {
  }

  // A dated charge, brought along any run by anyone, gives every payee what it buys, once however
  // often it is applied, and touches no other tenant's subscription or status.
  lemma {:induction false} EachPayeeBuysOnce(db: Db, steps: seq<Step>, o: PaystackObject, tenant: string)
    requires Keyed(db.subscriptions) && Dated(o) && AllBring(steps, o)
    ensures if tenant in Payees(db, steps, o) then Has(db, Run(db, steps), o, tenant)
            else Untouched(db, Run(db, steps), tenant)
    decreases |steps|
  {
    if steps != [] {
      var next, end := After(db, steps[0]), Run(db, steps);
      BringingKeepsPlans(db, steps[0], o);
      if Payee(db, steps[0], o) == Some(tenant) {
        PayeeHas(db, steps[0], o, tenant);
        EachPayeeBuysOnce(next, steps[1..], o, tenant);
        HasOnce(db, next, end, o, tenant);
      } else {
        OthersUntouched(db, steps[0], o, tenant);
        EachPayeeBuysOnce(next, steps[1..], o, tenant);
        HasLater(db, next, end, o, tenant);
      }
    }
  }

  // ---------- One invoice for all payees ----------

  // The tenant the charge is applied to last.
  function LastPayee(db: Db, steps: seq<Step>, o: PaystackObject): Option<string>
    decreases |steps|
  {
    if steps == [] then None
    else
      var later := LastPayee(After(db, steps[0]), steps[1..], o);
      if later.Some? then later else Payee(db, steps[0], o)
  }

  lemma StepBooks(db: Db, step: Step, o: PaystackObject, key: InvoiceKey)
    requires Keyed(db.subscriptions) && Brings(step, o)
    ensures Keyed(After(db, step).subscriptions)
    ensures var payee, booked := Payee(db, step, o), InvoiceAt(After(db, step), key);
            if payee.Some? && key == Numbered(Paystack, ChargeNumber(o).value)
            then booked.Some? && booked.value.tenantId == payee.value
            else booked == InvoiceAt(db, key)
  {
    var payee := Payee(db, step, o);
    BringsTheCharge(db, step, o);
    if payee.Some? {
      var after, base := Applied(db, step, o, payee.value).db, UpsertBase(db, payee.value, IdOf(step)).value;
      var row := ChargedRow(db.config, base, PaystackPlan(db, o).value, o, TimeOf(step));
      ChargeLeaves(db, o, payee.value, IdOf(step), TimeOf(step), after, row);
      BaseIsFree(db, payee.value, IdOf(step), base, row);
    }
  }

  // However many payees, a charge has one invoice: it ends with the tenant charged last, and no
  // other invoice is touched.
  lemma {:induction false} InvoiceGoesToLastPayee(db: Db, steps: seq<Step>, o: PaystackObject, key: InvoiceKey)
    requires Keyed(db.subscriptions) && AllBring(steps, o)
    ensures var last, booked := LastPayee(db, steps, o), InvoiceAt(Run(db, steps), key);
            if last.Some? && ChargeNumber(o).Some? && key == Numbered(Paystack, ChargeNumber(o).value)
            then booked.Some? && booked.value.tenantId == last.value
            else booked == InvoiceAt(db, key)
    ensures LastPayee(db, steps, o).Some? ==> ChargeNumber(o).Some?
    decreases |steps|
  {
    if steps != [] {
      StepBooks(db, steps[0], o, key);
      InvoiceGoesToLastPayee(After(db, steps[0]), steps[1..], o, key);
    }
  }

  // ---------- How many payees ----------

  // A charge that names its tenant has no other payee, over any run, whoever brings it.
  lemma {:induction false} NamedChargeHasOnePayee(db: Db, steps: seq<Step>, o: PaystackObject)
    requires Given(o.metaTenantId) && AllBring(steps, o)
    ensures Payees(db, steps, o) <= {o.metaTenantId.value}
    decreases |steps|
  {
    if steps != [] {
      NamedChargeHasOnePayee(After(db, steps[0]), steps[1..], o);
    }
  }

  // So nobody else's subscription or status changes.
  lemma {:induction false} NamedChargeStaysInTenant(db: Db, steps: seq<Step>, o: PaystackObject)
    requires Keyed(db.subscriptions) && Given(o.metaTenantId) && AllBring(steps, o)
    ensures StaysIn(db, Run(db, steps), o.metaTenantId.value)
    decreases |steps|
  {
    if steps != [] {
      var tenant, next := o.metaTenantId.value, After(db, steps[0]);
      BringsTheCharge(db, steps[0], o);
      NamedStepStays(db, steps[0], o);
      NamedChargeStaysInTenant(next, steps[1..], o);
      StaysTwice(db, next, Run(db, steps), tenant);
    }
  }

  lemma NamedStepStays(db: Db, step: Step, o: PaystackObject)
    requires Keyed(db.subscriptions) && Given(o.metaTenantId) && Brings(step, o)
    ensures StaysIn(db, After(db, step), o.metaTenantId.value) && Keyed(After(db, step).subscriptions)
  {
    BringsTheCharge(db, step, o);
    OthersUntouched(db, step, o, o.metaTenantId.value + " ");
    if Payee(db, step, o).Some? {
      ChargeStays(db, o, o.metaTenantId.value, IdOf(step), TimeOf(step));
    }
  }

  lemma StaysTwice(db: Db, next: Db, end: Db, tenant: string)
    requires StaysIn(db, next, tenant) && StaysIn(next, end, tenant)
    ensures StaysIn(db, end, tenant)
  {
    forall t: string | t != tenant
      ensures SameTenant(db.tenants, end.tenants, t)
    {
      assert SameTenant(db.tenants, next.tenants, t) && SameTenant(next.tenants, end.tenants, t);
    }
  }

  // What one return needs but for the metadata of the charge.
  predicate CouldReturn(db: Db, r: Request, reference: string, o: PaystackObject) {
    && r.mayManage && reference != "" && r.tenant in db.tenants && o.succeeded && Chargeable(db, o)
    && UpsertBase(db, r.tenant, r.newId).Ok?
  }

  function Return(r: Request, reference: string, o: PaystackObject): Step {
    Ask(r, ReturnFromPaystack(Some(reference), Some(o)))
  }

  // After a charge has been applied to one tenant, by webhook or return, the return of another one
  // takes effect too exactly when it could have been made before, the charge names no tenant, and
  // the two would not create rows of one id.
  lemma SecondTenantIsChargedIff(db: Db, one: Step, o: PaystackObject, tenant: string, second: Request,
                                 reference: string)
    requires Keyed(db.subscriptions) && Brings(one, o) && Payee(db, one, o) == Some(tenant) && second.tenant != tenant
    ensures Payee(After(db, one), Return(second, reference, o), o) == Some(second.tenant) <==>
              && CouldReturn(db, second, reference, o) && !Given(o.metaTenantId)
              && (IdOf(one) == second.newId ==>
                    SubscriptionOf(db, tenant).Some? || SubscriptionOf(db, second.tenant).Some?)
  {
    var next := After(db, one);
    ReturnPaysIff(next, second, reference, o);
    PayeeIsNotForeign(db, one, o, tenant);
    FreeAfterCharge(db, one, o, tenant, second.tenant, second.newId);
    BringingKeepsPlans(db, one, o);
    KeepsTenants(db, one, o);
    SamePlansSameCharge(db, next, o);
  }

  lemma ReturnPaysIff(db: Db, r: Request, reference: string, o: PaystackObject)
    ensures Payee(db, Return(r, reference, o), o) == Some(r.tenant)
       <==> CouldReturn(db, r, reference, o) && !Foreign(o.metaTenantId, r.tenant)
  {
  }

  lemma PayeeIsNotForeign(db: Db, step: Step, o: PaystackObject, tenant: string)
    requires Payee(db, step, o) == Some(tenant)
    ensures !Foreign(o.metaTenantId, tenant)
  {
  }

  lemma SamePlansSameCharge(db: Db, other: Db, o: PaystackObject)
    requires db.plans == other.plans
    ensures Chargeable(db, o) <==> Chargeable(other, o)
  {
  }

  lemma KeepsTenants(db: Db, step: Step, o: PaystackObject)
    requires Brings(step, o)
    ensures After(db, step).tenants.Keys == db.tenants.Keys
  {
    BringsTheCharge(db, step, o);
  }

  // Which ids are taken after a charge.
  lemma TakenAfterCharge(db: Db, step: Step, o: PaystackObject, tenant: string, id: string)
    requires Keyed(db.subscriptions) && Brings(step, o) && Payee(db, step, o) == Some(tenant)
    ensures IdTaken(After(db, step).subscriptions, id) <==>
              IdTaken(db.subscriptions, id) || (SubscriptionOf(db, tenant).None? && IdOf(step) == id)
  {
    var after, base := Applied(db, step, o, tenant).db, UpsertBase(db, tenant, IdOf(step)).value;
    var row := ChargedRow(db.config, base, PaystackPlan(db, o).value, o, TimeOf(step));
    BringsTheCharge(db, step, o);
    ChargeLeaves(db, o, tenant, IdOf(step), TimeOf(step), after, row);
    TakenAfterWrite(db.subscriptions, row, id);
    assert SubscriptionOf(db, tenant).Some? ==> WithId(row.id)(base);
  }

  // Whether another tenant can be given a row after a charge.
  lemma FreeAfterCharge(db: Db, step: Step, o: PaystackObject, tenant: string, other: string, newId: string)
    requires Keyed(db.subscriptions) && Brings(step, o) && Payee(db, step, o) == Some(tenant) && other != tenant
    ensures UpsertBase(After(db, step), other, newId).Ok? <==>
              UpsertBase(db, other, newId).Ok?
              && (IdOf(step) == newId ==> SubscriptionOf(db, tenant).Some? || SubscriptionOf(db, other).Some?)
  {
    TakenAfterCharge(db, step, o, tenant, newId);
    OthersUntouched(db, step, o, other);
  }

  lemma TakenAfterWrite(subscriptions: seq<Subscription>, row: Subscription, id: string)
    ensures IdTaken(Written(subscriptions, row), id) <==> IdTaken(subscriptions, id) || row.id == id
  {
    WrittenRows(subscriptions, row, row);
    if IdTaken(subscriptions, id) && row.id != id {
      var x := FindFirst(subscriptions, WithId(id)).value;
      WrittenRows(subscriptions, row, x);
      assert WithId(id)(x);
    }
    if IdTaken(Written(subscriptions, row), id) && row.id != id {
      var x := FindFirst(Written(subscriptions, row), WithId(id)).value;
      WrittenRows(subscriptions, row, x);
      assert WithId(id)(x);
    }
    assert row.id == id ==> WithId(id)(row);
  }

  lemma PayeesOfTwo(db: Db, one: Step, two: Step, o: PaystackObject, a: string, b: string)
    requires Payee(db, one, o) == Some(a) && Payee(After(db, one), two, o) == Some(b)
    ensures Payees(db, [one, two], o) == {a, b}
  {
    assert [one, two][1..] == [two] && [two][1..] == [];
    assert Payees(After(db, one), [two], o) == {b};
  }

  // Then both have what the charge buys.
  lemma BothAreCharged(db: Db, one: Step, two: Step, o: PaystackObject, a: string, b: string)
    requires Keyed(db.subscriptions) && Dated(o) && Brings(one, o) && Brings(two, o)
    requires Payee(db, one, o) == Some(a) && Payee(After(db, one), two, o) == Some(b)
    ensures Payees(db, [one, two], o) == {a, b}
    ensures Has(db, Run(db, [one, two]), o, a) && Has(db, Run(db, [one, two]), o, b)
  {
    PayeesOfTwo(db, one, two, o, a, b);
    EachPayeeBuysOnce(db, [one, two], o, a);
    EachPayeeBuysOnce(db, [one, two], o, b);
  }

  // An instance: one payment that names no tenant, brought back by two of them, gives both an
  // active subscription.
  lemma OnePaymentTwoSubscriptions(now: int) returns (db: Db, o: PaystackObject, one: Step, two: Step)
    ensures Coupled(db) && Dated(o) && Brings(one, o) && Brings(two, o)
    ensures db.subscriptions == [] && Payees(db, [one, two], o) == {"a", "b"}
    ensures Has(db, Run(db, [one, two]), o, "a") && Has(db, Run(db, [one, two]), o, "b")
  {
    db := Db(map["a" := T.TRIAL, "b" := T.TRIAL], [], map[], map[], [Monthly()], Config(0, false));
    o := PaidCharge("r", 0);
    var first, second := Request("a", true, "s", now), Request("b", true, "t", now);
    one, two := Return(first, "r", o), Return(second, "r", o);
    MonthlyIsReturnable(db, first, "r", 0);
    MonthlyIsReturnable(db, second, "r", 0);
    SecondTenantIsChargedIff(db, one, o, "a", second, "r");
    BothAreCharged(db, one, two, o, "a", "b");
  }

  lemma MonthlyIsReturnable(db: Db, r: Request, reference: string, paidAt: int)
    requires db.plans == [Monthly()] && reference != "" && r.mayManage && r.tenant in db.tenants
    requires SubscriptionOf(db, r.tenant).Some? || !IdTaken(db.subscriptions, r.newId)
    ensures var o := PaidCharge(reference, paidAt);
            CouldReturn(db, r, reference, o) && !Given(o.metaTenantId) && Dated(o) && PaidAt(o, 0) == paidAt
  {
    MonthlyIsCharged(db, reference, paidAt);
  }

  // A plan of one naira a month, and a charge that pays for it and names no tenant.
  function Monthly(): Plan {
    Plan("p", 1.0, "NGN", "month", true, false, None, None)
  }

  function PaidCharge(reference: string, paidAt: int): PaystackObject {
    PaystackObject(None, Some(reference), true, Some(100), Some("NGN"), Some(paidAt), None, None, None, None, None,
                   None, None, Some("p"), Some(1), Some(100), Some("NGN"))
  }

  lemma MonthlyIsCharged(db: Db, reference: string, paidAt: int)
    requires db.plans == [Monthly()] && reference != ""
    ensures Chargeable(db, PaidCharge(reference, paidAt))
    ensures PaystackPlan(db, PaidCharge(reference, paidAt)) == Some(Monthly())
    ensures ChargeNumber(PaidCharge(reference, paidAt)) == Some(reference)
  {
    assert PlanWithId("p")(Monthly());
  }

  // ---------- The webhook goes on finding the tenant ----------

  // The webhook finds this tenant by metadata or provider ids, or finds nobody.
  predicate ChargeOf(db: Db, o: PaystackObject, tenant: string) {
    !Foreign(o.metaTenantId, tenant)
    && (ResolvePaystackTenant(db, o).Some? ==> ResolvePaystackTenant(db, o) == Some(tenant))
  }

  lemma FirstAfterWrite(subscriptions: seq<Subscription>, row: Subscription, p: Subscription -> bool)
    requires Keyed(subscriptions) && p(row)
    requires var found := FindFirst(subscriptions, p); found.Some? ==> found.value.id == row.id
    ensures FindFirst(Written(subscriptions, row), p) == Some(row)
  {
    var after := Written(subscriptions, row);
    var i := IndexOf(subscriptions, p);
    WrittenRows(subscriptions, row, row);
    if i < |subscriptions| {
      assert WithId(row.id)(subscriptions[i]);
      assert after[i] == row;
    }
  }

  // The first row a filter selects is the tenant's charged row, when it was the tenant's row
  // before or there was none.
  lemma FoundAfterCharge(db: Db, tenant: string, newId: string, base: Subscription, row: Subscription,
                         p: Subscription -> bool)
    requires Keyed(db.subscriptions) && UpsertBase(db, tenant, newId) == Ok(base) && row.id == base.id && p(row)
    requires TenantBy(db, p).Some? ==> TenantBy(db, p) == Some(tenant)
    ensures FindFirst(Written(db.subscriptions, row), p) == Some(row)
  {
    var found := FindFirst(db.subscriptions, p);
    if found.Some? {
      assert OfTenant(tenant)(found.value);
      KeyedRows(db.subscriptions, found.value, base);
    }
    FirstAfterWrite(db.subscriptions, row, p);
  }

  // A charge goes on being found for the tenant it has been applied to, or for nobody.
  lemma ResolvedAfterCharge(db: Db, o: PaystackObject, tenant: string, newId: string, now: int, after: Db)
    requires Keyed(db.subscriptions) && ChargeOf(db, o, tenant)
    requires ApplyCharge(db, o, Some(tenant), newId, now) == Done(after)
    ensures ChargeOf(after, o, tenant)
  {
    var base := UpsertBase(db, tenant, newId).value;
    var row := ChargedRow(db.config, base, PaystackPlan(db, o).value, o, now);
    ChargeLeaves(db, o, tenant, newId, now, after, row);
    BaseIsFree(db, tenant, newId, base, row);
    var id, customer := CodeOf(o), CustomerOf(o);
    if !Given(o.metaTenantId) && id.Some? {
      FoundAfterCharge(db, tenant, newId, base, row, ByProviderId(Paystack, id.value));
    } else if !Given(o.metaTenantId) && customer.Some? {
      FoundAfterCharge(db, tenant, newId, base, row, ByCustomer(Paystack, customer.value));
    }
  }

  // A charge that names no tenant has one payee when the webhook finds this tenant, or nobody, and
  // no other tenant returns it.
  lemma {:induction false} OneReturnerOnePayee(db: Db, steps: seq<Step>, o: PaystackObject, tenant: string)
    requires Keyed(db.subscriptions) && ChargeOf(db, o, tenant) && AllBring(steps, o)
    requires forall i :: 0 <= i < |steps| && steps[i].Ask? ==> steps[i].request.tenant == tenant
    ensures Payees(db, steps, o) <= {tenant}
    decreases |steps|
  {
    if steps != [] {
      var step, next := steps[0], After(db, steps[0]);
      BringsTheCharge(db, step, o);
      OthersUntouched(db, step, o, tenant + " ");
      if Payee(db, step, o).Some? {
        var after := Applied(db, step, o, tenant).db;
        ResolvedAfterCharge(db, o, tenant, IdOf(step), TimeOf(step), after);
        SameBooksSameTenant(after, next, o, tenant);
      } else {
        SameBooksSameTenant(db, next, o, tenant);
      }
      OneReturnerOnePayee(next, steps[1..], o, tenant);
    }
  }

  lemma SameBooksSameTenant(db: Db, other: Db, o: PaystackObject, tenant: string)
    requires SameBooks(db, other) && ChargeOf(db, o, tenant)
    ensures ResolvePaystackTenant(other, o) == ResolvePaystackTenant(db, o) && ChargeOf(other, o, tenant)
  {
  }

  // ---------- Once, for all the books ----------

  lemma SameCharge(db: Db, other: Db, base: Subscription, plan: Plan, number: string, o: PaystackObject, now: int)
    requires SameBooks(db, other)
    ensures SameBooks(Charge(db, base, plan, number, o, now), Charge(other, base, plan, number, o, now))
  {
  }

  // Applying a charge depends on the books alone.
  lemma SameBooksSameEffect(db: Db, other: Db, o: PaystackObject, tenant: string, id: string, now: int)
    requires SameBooks(db, other)
    ensures var e, f := ApplyCharge(db, o, Some(tenant), id, now), ApplyCharge(other, o, Some(tenant), id, now);
            (e.Done? <==> f.Done?) && SameBooks(Left(db, e), Left(other, f))
  {
    var base := UpsertBase(db, tenant, id);
    assert UpsertBase(other, tenant, id) == base && PaystackPlan(other, o) == PaystackPlan(db, o);
    if Chargeable(db, o) && base.Ok? {
      SameCharge(db, other, base.value, PaystackPlan(db, o).value, ChargeNumber(o).value, o, now);
    }
  }

  // The charge is in the books: applying it again, at any time, changes nothing.
  ghost predicate Absorbed(db: Db, o: PaystackObject, tenant: string) {
    forall id, now :: ApplyCharge(db, o, Some(tenant), id, now) == Done(db)
  }

  lemma AbsorbedStep(db: Db, start: Db, step: Step, o: PaystackObject, tenant: string)
    requires Brings(step, o) && Payee(db, step, o) in {None, Some(tenant)}
    requires Absorbed(start, o, tenant) && SameBooks(start, db)
    ensures SameBooks(After(db, step), db)
  {
    BringsTheCharge(db, step, o);
    assert ApplyCharge(start, o, Some(tenant), IdOf(step), TimeOf(step)) == Done(start);
    SameBooksSameEffect(start, db, o, tenant, IdOf(step), TimeOf(step));
  }

  lemma {:induction false} AbsorbedRun(db: Db, start: Db, steps: seq<Step>, o: PaystackObject, tenant: string)
    requires Absorbed(start, o, tenant) && SameBooks(start, db)
    requires AllBring(steps, o) && Payees(db, steps, o) <= {tenant}
    ensures SameBooks(Run(db, steps), start)
    decreases |steps|
  {
    if steps != [] {
      OnePayee(db, steps, o, tenant);
      AbsorbedStep(db, start, steps[0], o, tenant);
      AbsorbedRun(After(db, steps[0]), start, steps[1..], o, tenant);
    }
  }

  lemma OnePayee(db: Db, steps: seq<Step>, o: PaystackObject, tenant: string)
    requires steps != [] && Payees(db, steps, o) <= {tenant}
    ensures Payee(db, steps[0], o) in {None, Some(tenant)} && Payees(After(db, steps[0]), steps[1..], o) <= {tenant}
  {
    var payee := Payee(db, steps[0], o);
    assert payee.Some? ==> payee.value in Payees(db, steps, o);
  }

  lemma AppliedIsAbsorbed(db: Db, o: PaystackObject, tenant: string, newId: string, now: int, after: Db)
    requires Keyed(db.subscriptions) && Dated(o) && ApplyCharge(db, o, Some(tenant), newId, now) == Done(after)
    ensures Absorbed(after, o, tenant)
  {
    forall id, later
      ensures ApplyCharge(after, o, Some(tenant), id, later) == Done(after)
    {
      ReapplyingIsIdleIff(db, o, tenant, newId, now, after, id, later);
    }
  }

  // The first step of a run that has a payee, or its length.
  function FirstEffect(db: Db, steps: seq<Step>, o: PaystackObject): (i: nat)
    ensures i <= |steps|
    decreases |steps|
  {
    if steps == [] || Payee(db, steps[0], o).Some? then 0
    else 1 + FirstEffect(After(db, steps[0]), steps[1..], o)
  }

  // A dated charge with one payee is applied at most once: brought by any mix of webhooks and
  // returns, by anyone, in any order and however often, it leaves the books as applying it at the
  // first step that has a payee, and as they were when none has.
  lemma {:induction false} ChargeAppliesOnce(db: Db, steps: seq<Step>, o: PaystackObject, tenant: string, i: nat)
    requires Keyed(db.subscriptions) && Dated(o) && i == FirstEffect(db, steps, o)
    requires AllBring(steps, o) && Payees(db, steps, o) <= {tenant}
    ensures SameBooks(Run(db, steps), if i < |steps| then Left(db, Applied(db, steps[i], o, tenant)) else db)
    ensures i < |steps| ==> Applied(db, steps[i], o, tenant).Done?
    decreases |steps|
  {
    if steps != [] {
      var next := After(db, steps[0]);
      BringsTheCharge(db, steps[0], o);
      OnePayee(db, steps, o, tenant);
      if Payee(db, steps[0], o).Some? {
        FirstTakesEffect(db, steps, o, tenant);
      } else {
        ChargeAppliesOnce(next, steps[1..], o, tenant, i - 1);
        if i < |steps| {
          SameBooksSameEffect(db, next, o, tenant, IdOf(steps[i]), TimeOf(steps[i]));
        }
      }
    }
  }

  lemma FirstTakesEffect(db: Db, steps: seq<Step>, o: PaystackObject, tenant: string)
    requires Keyed(db.subscriptions) && Dated(o) && AllBring(steps, o) && Payees(db, steps, o) <= {tenant}
    requires steps != [] && Payee(db, steps[0], o) == Some(tenant)
    ensures SameBooks(Run(db, steps), Applied(db, steps[0], o, tenant).db)
  {
    var after := Applied(db, steps[0], o, tenant).db;
    TailBrings(steps, o);
    BringsTheCharge(db, steps[0], o);
    AppliedIsAbsorbed(db, o, tenant, IdOf(steps[0]), TimeOf(steps[0]), after);
    OnePayee(db, steps, o, tenant);
    AbsorbedRun(After(db, steps[0]), after, steps[1..], o, tenant);
  }

  // ---------- Replays ----------

  // Returns are not deduplicated. At any point of any run, bringing a charge again changes nothing
  // exactly when it has no payee or is in force for it; after a later charge it puts the old
  // period back.
  lemma ReplayIsIdleIff(db: Db, step: Step, o: PaystackObject)
    requires Keyed(db.subscriptions) && Brings(step, o)
    ensures var payee := Payee(db, step, o);
            SameBooks(After(db, step), db) <==> payee.Some? ==> InForce(db, o, payee.value, TimeOf(step))
  {
    var payee := Payee(db, step, o);
    BringsTheCharge(db, step, o);
    if payee.Some? {
      var after := Applied(db, step, o, payee.value).db;
      AppliedIsIdleIff(db, o, payee.value, IdOf(step), TimeOf(step), after);
      AppliedKeepsEvents(db, o, payee.value, IdOf(step), TimeOf(step), after);
    }
  }

  lemma AppliedKeepsEvents(db: Db, o: PaystackObject, tenant: string, newId: string, now: int, after: Db)
    requires ApplyCharge(db, o, Some(tenant), newId, now) == Done(after)
    ensures SameBooks(after, db) <==> after == db
  {
  }

  // A replay on a cancelled subscription makes it and its tenant active again.
  lemma ReplayRevivesCancelled(db: Db, step: Step, o: PaystackObject, tenant: string, s: Subscription)
    requires Keyed(db.subscriptions) && Brings(step, o) && Payee(db, step, o) == Some(tenant)
    requires SubscriptionOf(db, tenant) == Some(s) && s.status == CANCELLED
    ensures var end := After(db, step);
            && SubscriptionOf(end, tenant).Some? && SubscriptionOf(end, tenant).value.id == s.id
            && SubscriptionOf(end, tenant).value.status == ACTIVE && tenant in end.tenants
            && end.tenants[tenant] == T.ACTIVE
  {
    var after := Applied(db, step, o, tenant).db;
    var row := ChargedRow(db.config, s, PaystackPlan(db, o).value, o, TimeOf(step));
    BringsTheCharge(db, step, o);
    ChargeLeaves(db, o, tenant, IdOf(step), TimeOf(step), after, row);
  }

  lemma PayeeStarts(db: Db, step: Step, o: PaystackObject, tenant: string)
    requires Keyed(db.subscriptions) && Dated(o) && Brings(step, o) && Payee(db, step, o) == Some(tenant)
    ensures var after := After(db, step);
            && Keyed(after.subscriptions) && SubscriptionOf(after, tenant).Some? && tenant in after.tenants
            && SubscriptionOf(after, tenant).value.periodStart == Some(PaidAt(o, 0))
            && after.plans == db.plans
  {
    PayeeHas(db, step, o, tenant);
    BringingKeepsPlans(db, step, o);
  }

  lemma ReturnHasPayee(db: Db, r: Request, reference: string, paidAt: int)
    requires db.plans == [Monthly()] && reference != "" && r.mayManage && r.tenant in db.tenants
    requires SubscriptionOf(db, r.tenant).Some? || !IdTaken(db.subscriptions, r.newId)
    ensures var o := PaidCharge(reference, paidAt);
            Brings(Return(r, reference, o), o) && Dated(o) && PaidAt(o, 0) == paidAt
            && Payee(db, Return(r, reference, o), o) == Some(r.tenant)
  {
    MonthlyIsReturnable(db, r, reference, paidAt);
  }

  // An instance of an old charge in force again: one of day 0 is returned, then one of day 31, and
  // then the first one once more. The period, which ran from day 31, runs from day 0.
  lemma OldChargeExample() returns (db: Db, early: Step, late: Step)
    ensures Coupled(db) && Brings(early, PaidCharge("r", 0)) && Brings(late, PaidCharge("q", Days(31)))
    ensures var before := After(After(db, early), late);
            && SubscriptionOf(before, "a").Some? && SubscriptionOf(After(before, early), "a").Some?
            && SubscriptionOf(before, "a").value.periodStart == Some(Days(31))
            && SubscriptionOf(After(before, early), "a").value.periodStart == Some(0)
  {
    db := Db(map["a" := T.TRIAL], [], map[], map[], [Monthly()], Config(0, false));
    var r := Request("a", true, "s", 0);
    early, late := Return(r, "r", PaidCharge("r", 0)), Return(r, "q", PaidCharge("q", Days(31)));
    ReturnHasPayee(db, r, "r", 0);
    PayeeStarts(db, early, PaidCharge("r", 0), "a");
    ReturnHasPayee(After(db, early), r, "q", Days(31));
    PayeeStarts(After(db, early), late, PaidCharge("q", Days(31)), "a");
    ReturnHasPayee(After(After(db, early), late), r, "r", 0);
    PayeeStarts(After(After(db, early), late), early, PaidCharge("r", 0), "a");
  }

  // ---------- What a charge buys ----------

  // What a payment has bought: an active subscription to the plan for one period from the day of
  // payment, of the exact length of the plan's interval, and one paid invoice of that period.
  predicate Bought(db: Db, end: Db, s: Subscription, plan: Plan, seats: int, number: string, amount: int,
                   currency: string, paidAt: int) {
    && SubscriptionOf(end, s.tenantId) == Some(s)
    && s.planId == plan.id && s.status == ACTIVE && s.seatCount == seats
    && s.periodStart == Some(paidAt)
    && s.periodEnd == Some(paidAt + PeriodDays(LocalDay(paidAt, db.config.zone), plan.interval) * MS_PER_DAY)
    && end.tenants == db.tenants[s.tenantId := T.ACTIVE]
    && end.invoices == db.invoices[Numbered(Paystack, number) :=
         Invoice(s.tenantId, s.id, amount, currency, Paid, s.periodStart, s.periodEnd, Some(paidAt))]
  }

  lemma PaidPeriod(config: Config, base: Subscription, plan: Plan, o: PaystackObject, now: int)
    ensures var paidAt := PaidAt(o, now);
            ChargedRow(config, base, plan, o, now).periodEnd
                == Some(paidAt + PeriodDays(LocalDay(paidAt, config.zone), plan.interval) * MS_PER_DAY)
  {
    IntervalLength(PaidAt(o, now), config.zone, plan.interval);
  }

  lemma RowBuys(db: Db, after: Db, base: Subscription, plan: Plan, number: string, amount: int, o: PaystackObject,
                now: int, row: Subscription)
    requires row == ChargedRow(db.config, base, plan, o, now) && o.amount == Some(amount)
    requires SubscriptionOf(after, row.tenantId) == Some(row) && after.tenants == db.tenants[row.tenantId := T.ACTIVE]
    requires after.invoices == db.invoices[Numbered(Paystack, number) := ChargeInvoice(row, o, now)]
    ensures Bought(db, after, row, plan, o.metaSeatCount.GetOr(1), number, SubunitToCents(amount, o.currency),
                   NormalizeCurrency(o.currency), PaidAt(o, now))
  {
    PaidPeriod(db.config, base, plan, o, now);
  }

  // The plan of a charge: the metadata's, else the one with the provider's plan code.
  predicate IsFor(db: Db, o: PaystackObject, plan: Plan) {
    if Given(o.metaPlanId) then FindPlan(db, o.metaPlanId.value) == Some(plan)
    else Given(o.planCode) && PlanByPrice(db, o.planCode) == Some(plan)
  }

  // Its invoice's number: the reference, else the id.
  predicate IsNumbered(o: PaystackObject, number: string) {
    number != "" && Some(number) == if Given(o.reference) then o.reference else o.id
  }

  // The time of payment: as paid, else as made, else now.
  function WhenPaid(o: PaystackObject, now: int): int {
    if o.paidAt.Some? then o.paidAt.value else if o.createdAt.Some? then o.createdAt.value else now
  }

  // A charge is due a place exactly when it has a plan and a number and pays as expected.
  lemma ChargeableIff(db: Db, o: PaystackObject)
    ensures Chargeable(db, o) <==>
              exists plan, number :: IsFor(db, o, plan) && IsNumbered(o, number) && Pays(o, plan)
  {
    var plan, number := PaystackPlan(db, o), ChargeNumber(o);
    forall p
      ensures IsFor(db, o, p) <==> plan == Some(p)
    {
    }
    assert forall n :: IsNumbered(o, n) <==> number == Some(n);
    if plan.Some? {
      PaysIff(o, plan.value);
      assert Chargeable(db, o) ==> IsFor(db, o, plan.value) && IsNumbered(o, number.value);
    }
  }

  // An applied charge pays as expected, and buys its plan for one period from its date, for its
  // seats, amount and currency; it touches no other tenant.
  lemma ChargeBuysOnePeriod(db: Db, o: PaystackObject, plan: Plan, number: string, tenant: string, newId: string,
                            now: int, after: Db, s: Subscription)
    requires Keyed(db.subscriptions) && ApplyCharge(db, o, Some(tenant), newId, now) == Done(after)
    requires IsFor(db, o, plan) && IsNumbered(o, number)
    requires s == SubscriptionOf(after, tenant).GetOr(Blank("", ""))
    ensures s.tenantId == tenant && StaysIn(db, after, tenant) && Pays(o, plan)
    ensures Bought(db, after, s, plan, SeatsOf(o), number, CentsOf(o.amount.value, CurrencyCode(o.currency)),
                   CurrencyCode(o.currency), WhenPaid(o, now))
  {
    assert PaystackPlan(db, o) == Some(plan) && ChargeNumber(o) == Some(number);
    PaysIff(o, plan);
    var base := UpsertBase(db, tenant, newId).value;
    var row := ChargedRow(db.config, base, plan, o, now);
    ChargeLeaves(db, o, tenant, newId, now, after, row);
    BaseIsFree(db, tenant, newId, base, row);
    CentsAreBooked(o.amount.value, o.currency);
    RowBuys(db, after, base, plan, number, o.amount.value, o, now, row);
    ChargeStays(db, o, tenant, newId, now);
  }

  // A payment that is not the expected one, by its amount or its currency, changes nothing in the
  // books, whichever way it comes and whosever it is.
  lemma WrongPaymentChangesNothing(db: Db, step: Step, o: PaystackObject, plan: Plan)
    requires Brings(step, o) && IsFor(db, o, plan) && !Pays(o, plan)
    ensures SameBooks(After(db, step), db)
  {
    PaysIff(o, plan);
    assert !Chargeable(db, o);
    UnchargeableChangesNothing(db, step, o);
  }

  lemma UnchargeableChangesNothing(db: Db, step: Step, o: PaystackObject)
    requires Brings(step, o) && !Chargeable(db, o)
    ensures SameBooks(After(db, step), db)
  {
    if step.PaystackHook? {
      UnchargeableHook(db, step.paystack, o);
    } else {
      UnchargeableReturn(db, step.request, step.op.reference, o);
    }
  }

  lemma UnchargeableHook(db: Db, d: PaystackDelivery, o: PaystackObject)
    requires d.kind == Some(ChargeSuccess) && d.payload == o && !Chargeable(db, o)
    ensures SameBooks(ProcessPaystack(db, d).db, db)
  {
  }

  lemma UnchargeableReturn(db: Db, r: Request, reference: Option<string>, o: PaystackObject)
    requires !Chargeable(db, o)
    ensures SameBooks(ConfirmPaystack(db, r, reference, Some(o)).db, db)
  {
  }

  // ---------- What checkout asks, the charge answers ----------

  // createCheckoutSession with Paystack: the amount and currency it asks for, with the metadata
  // the charge will carry; nothing for a plan that is not in naira or has no price.
  function Checkout(plan: Plan, seats: int, tenant: string, reference: string): Option<PaystackObject> {
    var amount, currency := MoneyToSubunit(plan.price, seats, plan.currency), P.NormalizeCurrency(plan.currency);
    if Text.Upper(plan.currency) != "NGN" || amount <= 0 then None
    else Some(PaystackObject(
      None, Some(reference), false, Some(amount), Some(currency), None, None, None, None, plan.providerPriceId, None,
      None,
      Some(tenant), Some(plan.id), Some(seats), Some(amount), Some(currency)))
  }

  lemma NairaRounds(price: real, seats: int, currency: string)
    requires Text.Upper(currency) == "NGN"
    ensures Rounds(MoneyToSubunit(price, seats, currency), price * seats as real * 100.0)
    ensures P.NormalizeCurrency(currency) == "NGN"
  {
    NairaIsNotBlank(currency);
    PriceRounds(price, seats, currency);
  }

  // A checkout is asked for exactly for a plan in naira whose price for the seats rounds to a
  // positive amount of kobo, and asks for that amount.
  lemma CheckoutAsksIff(plan: Plan, seats: int, tenant: string, reference: string)
    ensures var asked := Checkout(plan, seats, tenant, reference);
            && (asked.Some? <==> Text.Upper(plan.currency) == "NGN" && plan.price * seats as real * 100.0 >= 0.5)
            && (asked.Some? ==>
                  && asked.value.amount.Some? && Rounds(asked.value.amount.value, plan.price * seats as real * 100.0)
                  && asked.value.expectedAmount == asked.value.amount
                  && asked.value.currency == Some("NGN") && asked.value.expectedCurrency == Some("NGN")
                  && asked.value.reference == Some(reference) && asked.value.metaTenantId == Some(tenant)
                  && asked.value.metaPlanId == Some(plan.id) && asked.value.metaSeatCount == Some(seats)
                  && asked.value.planCode == plan.providerPriceId)
  {
    if Text.Upper(plan.currency) == "NGN" {
      NairaRounds(plan.price, seats, plan.currency);
    }
  }

  // The charge of a checkout, paid as asked for; the rest is the provider's.
  predicate PaysFor(charge: PaystackObject, asked: PaystackObject) {
    && charge.amount == asked.amount && charge.currency == asked.currency && charge.reference == asked.reference
    && charge.metaTenantId == asked.metaTenantId && charge.metaPlanId == asked.metaPlanId
    && charge.metaSeatCount == asked.metaSeatCount
    && charge.expectedAmount == asked.expectedAmount && charge.expectedCurrency == asked.expectedCurrency
  }

  lemma NairaIsNotBlank(currency: string)
    requires Text.Upper(currency) == "NGN"
    ensures P.NormalizeCurrency(currency) == "NGN"
  {
    assert Text.UpperChar(currency[0]) == 'N' && Text.UpperChar(currency[2]) == 'N';
    assert Text.Trimmed(currency);
    assert Text.Trim(currency) == currency;
  }

  // A checkout paid as asked is accepted, even when the plan's price or currency has changed
  // since: the expectation in the metadata goes before the plan.
  lemma PaidCheckoutIsAccepted(db: Db, plan: Plan, current: Plan, seats: int, tenant: string, reference: string,
                               asked: PaystackObject, charge: PaystackObject)
    requires Checkout(plan, seats, tenant, reference) == Some(asked) && PaysFor(charge, asked)
    requires plan.id != "" && reference != "" && FindPlan(db, plan.id) == Some(current)
    ensures Chargeable(db, charge)
  {
    NairaIsNotBlank(plan.currency);
    Text.NormalizingTwiceIsOnce(plan.currency);
    assert PaystackPlan(db, charge) == Some(current);
  }

  // From checkout to subscription: however often the charge of a checkout arrives, by webhook or
  // return, and whoever brings it, it buys what was checked out, once.
  lemma PaidCheckoutBuysOnce(db: Db, plan: Plan, current: Plan, seats: int, tenant: string, reference: string,
                             asked: PaystackObject, charge: PaystackObject, steps: seq<Step>, s: Subscription)
    requires Keyed(db.subscriptions) && Checkout(plan, seats, tenant, reference) == Some(asked)
    requires PaysFor(charge, asked)
    requires plan.id != "" && reference != "" && FindPlan(db, plan.id) == Some(current)
    requires tenant != "" && Dated(charge) && AllBring(steps, charge)
    requires FirstEffect(db, steps, charge) < |steps|
    requires s == SubscriptionOf(Run(db, steps), tenant).GetOr(Blank("", ""))
    ensures s.tenantId == tenant && charge.amount.Some?
    ensures Rounds(charge.amount.value, plan.price * seats as real * 100.0)
    ensures Bought(db, Run(db, steps), s, current, seats, reference, charge.amount.value, "NGN", WhenPaid(charge, 0))
  {
    var i := FirstEffect(db, steps, charge);
    NamedChargeHasOnePayee(db, steps, charge);
    ChargeAppliesOnce(db, steps, charge, tenant, i);
    var after := Applied(db, steps[i], charge, tenant).db;
    SameBooksSameRow(Run(db, steps), after, tenant);
    CheckoutBuys(db, plan, current, seats, tenant, reference, asked, charge, IdOf(steps[i]), TimeOf(steps[i]), after,
                 s);
    BoughtBooks(db, Run(db, steps), after, s, current, seats, reference, charge.amount.value, "NGN",
                WhenPaid(charge, 0));
  }

  lemma BoughtBooks(db: Db, end: Db, after: Db, s: Subscription, plan: Plan, seats: int, number: string, amount: int,
                    currency: string, paidAt: int)
    requires SameBooks(end, after) && Bought(db, after, s, plan, seats, number, amount, currency, paidAt)
    ensures Bought(db, end, s, plan, seats, number, amount, currency, paidAt)
  {
  }

  // And it takes effect at a step exactly when this is its new webhook or a return of its tenant,
  // and the tenant exists and has a row or the row's id is free.
  lemma PaidCheckoutTakesEffectIff(db: Db, plan: Plan, current: Plan, seats: int, tenant: string, reference: string,
                                   asked: PaystackObject, charge: PaystackObject, step: Step)
    requires Checkout(plan, seats, tenant, reference) == Some(asked) && PaysFor(charge, asked) && tenant != ""
    requires plan.id != "" && reference != "" && FindPlan(db, plan.id) == Some(current) && Brings(step, charge)
    ensures Payee(db, step, charge).Some? <==>
              && (step.PaystackHook? ==> step.paystack.signed && PaystackKey(step.paystack) !in db.events)
              && (step.Ask? ==> step.request.tenant == tenant && step.request.mayManage && Given(step.op.reference)
                                && charge.succeeded)
              && tenant in db.tenants
              && (SubscriptionOf(db, tenant).None? ==> !IdTaken(db.subscriptions, IdOf(step)))
  {
    PaidCheckoutIsAccepted(db, plan, current, seats, tenant, reference, asked, charge);
    assert ResolvePaystackTenant(db, charge) == Some(tenant);
  }

  lemma CheckoutTerms(plan: Plan, seats: int, tenant: string, reference: string, asked: PaystackObject,
                      charge: PaystackObject)
    requires Checkout(plan, seats, tenant, reference) == Some(asked) && PaysFor(charge, asked) && reference != ""
    ensures charge.metaPlanId == Some(plan.id) && charge.metaSeatCount == Some(seats)
    ensures ChargeNumber(charge) == Some(reference)
    ensures NormalizeCurrency(charge.currency) == "NGN"
    ensures charge.amount.Some? && Rounds(charge.amount.value, plan.price * seats as real * 100.0)
    ensures CurrencyCode(charge.currency) == "NGN"
  {
    NairaRounds(plan.price, seats, plan.currency);
    Text.NormalizingTwiceIsOnce(plan.currency);
  }

  lemma CheckoutBuys(db: Db, plan: Plan, current: Plan, seats: int, tenant: string, reference: string,
                     asked: PaystackObject, charge: PaystackObject, id: string, now: int, after: Db, s: Subscription)
    requires Keyed(db.subscriptions) && Checkout(plan, seats, tenant, reference) == Some(asked)
    requires PaysFor(charge, asked)
    requires plan.id != "" && reference != "" && FindPlan(db, plan.id) == Some(current) && Dated(charge)
    requires ApplyCharge(db, charge, Some(tenant), id, now) == Done(after)
    requires s == SubscriptionOf(after, tenant).GetOr(Blank("", ""))
    ensures s.tenantId == tenant
    ensures charge.amount.Some? && Rounds(charge.amount.value, plan.price * seats as real * 100.0)
    ensures Bought(db, after, s, current, seats, reference, charge.amount.value, "NGN", WhenPaid(charge, 0))
  {
    CheckoutTerms(plan, seats, tenant, reference, asked, charge);
    ChargeBuysOnePeriod(db, charge, current, reference, tenant, id, now, after, s);
  }
}
