// Billing (src/billing/billing.service.ts) as functions on the tenant, subscription, invoice,
// event and plan tables. Unique keys and foreign keys are those of the Prisma schema; a refused
// write changes nothing.
module Billing {
  import opened Seqs
  import opened Calendar
  import P = Proration
  import T = Tenants

  datatype Status = TRIALING | ACTIVE | PAST_DUE | CANCELLED | EXPIRED

  datatype Provider = Manual | Stripe | Paystack | Named(name: string)

  // trialDays: null or 0 for none.
  datatype Plan = Plan(
    id: string, price: real, currency: string, interval: string, isActive: bool, archived: bool,
    trialDays: Option<int>, providerPriceId: Option<string>)

  datatype Subscription = Subscription(
    id: string, tenantId: string, planId: string, status: Status, provider: Provider,
    customerId: Option<string>, providerId: Option<string>, seatCount: int, cancelAtPeriodEnd: bool,
    trialEndsAt: Option<int>, periodStart: Option<int>, periodEnd: Option<int>, canceledAt: Option<int>)

  // The unique pair (provider, providerInvoiceId) of an invoice; Adjustment is the number
  // plan-change:<subscription>:<time> of a manual invoice.
  datatype InvoiceKey = Adjustment(subscriptionId: string, at: int) | Numbered(provider: Provider, id: string)

  // A status as Stripe writes it; both spellings of cancelled are Canceled. Invoices keep it.
  datatype WireStatus =
    | Trialing | Active | PastDue | Incomplete | Canceled | Unpaid | IncompleteExpired
    | Paid | Failed | Void | Open | OtherStatus(text: string)

  // amount in cents.
  datatype Invoice = Invoice(
    tenantId: string, subscriptionId: string, amount: int, currency: string, status: WireStatus,
    periodStart: Option<int>, periodEnd: Option<int>, paidAt: Option<int>)

  datatype EventKey = EventKey(provider: Provider, id: string)

  datatype EventStatus = RECEIVED | PROCESSED | FAILED | IGNORED

  // An event type, by the names and prefixes the service looks for: customer.subscription.deleted
  // and the rest of customer.subscription.; invoice.paid or invoice.payment_succeeded,
  // invoice.payment_failed, invoice.voided and the rest of invoice. and payment_intent.;
  // charge.success; subscription.disable or subscription.not_renew and the rest of subscription.;
  // and the types the service writes itself.
  datatype Kind =
    | SubscriptionDeleted | SubscriptionChanged(name: string)
    | InvoicePaid(name: string) | InvoiceFailed | InvoiceVoided | InvoiceChanged(name: string)
    | ChargeSuccess | SubscriptionStopped(name: string) | SubscriptionNoted(name: string)
    | OtherKind(name: string)
    | CheckoutPending | CheckoutConfirmed | ChargePending | ChargeVerified

  datatype Event = Event(tenantId: Option<string>, kind: Kind, status: EventStatus)

  // zone: the server's offset from UTC. emptyFilterMatches: whether a filter whose conditions
  // are all undefined matches every row inside an OR.
  datatype Config = Config(zone: int, emptyFilterMatches: bool)

  datatype Db = Db(
    tenants: map<string, T.TenantStatus>, subscriptions: seq<Subscription>, invoices: map<InvoiceKey, Invoice>,
    events: map<EventKey, Event>, plans: seq<Plan>, config: Config)

  datatype Error =
    | Forbidden | NotFound | PlanInactive | Conflict | DuplicateId | UnknownTenant | UnknownPlan
    | BadSignature | TypeRequired | ReferenceRequired | ForeignTenant | NotVerified | PlanUnresolved | NotApplied

  // What a request leaves behind, and how it ends.
  datatype Reply = Reply(db: Db, result: Result<(), Error>)

  function Refuse(db: Db, error: Error): Reply {
    Reply(db, Err(error))
  }

  // ---------- Tables ----------

  function OfTenant(tenant: string): Subscription -> bool {
    (s: Subscription) => s.tenantId == tenant
  }

  function WithId(id: string): Subscription -> bool {
    (s: Subscription) => s.id == id
  }

  function Owned(tenant: string, id: string): Subscription -> bool {
    (s: Subscription) => s.id == id && s.tenantId == tenant
  }

  function ByProviderId(provider: Provider, id: string): Subscription -> bool {
    (s: Subscription) => s.provider == provider && s.providerId == Some(id)
  }

  function ByCustomer(provider: Provider, customer: string): Subscription -> bool {
    (s: Subscription) => s.provider == provider && s.customerId == Some(customer)
  }

  function PlanWithId(id: string): Plan -> bool {
    (p: Plan) => p.id == id
  }

  function PlanWithPrice(price: string): Plan -> bool {
    (p: Plan) => p.providerPriceId == Some(price)
  }

  function SubscriptionOf(db: Db, tenant: string): Option<Subscription> {
    FindFirst(db.subscriptions, OfTenant(tenant))
  }

  // getTenantSubscriptionOrThrow
  function OwnSubscription(db: Db, tenant: string, id: string): Option<Subscription> {
    FindFirst(db.subscriptions, Owned(tenant, id))
  }

  function FindPlan(db: Db, id: string): Option<Plan> {
    FindFirst(db.plans, PlanWithId(id))
  }

  predicate IdTaken(subscriptions: seq<Subscription>, id: string) {
    FindFirst(subscriptions, WithId(id)).Some?
  }

  // Subscription.tenantId is unique.
  predicate TenantTaken(subscriptions: seq<Subscription>, s: Subscription) {
    exists x :: x in subscriptions && x.tenantId == s.tenantId && x.id != s.id
  }

  function Replaced(s: Subscription): Subscription -> Subscription {
    (x: Subscription) => if x.id == s.id then s else x
  }

  // One row written: in place of the row with its id, or as a new one.
  function Written(subscriptions: seq<Subscription>, s: Subscription): seq<Subscription> {
    if IdTaken(subscriptions, s.id) then Map(subscriptions, Replaced(s)) else subscriptions + [s]
  }

  function TenantStatusOf(status: Status): T.TenantStatus {
    match status
    case ACTIVE => T.ACTIVE
    case TRIALING => T.TRIAL
    case CANCELLED => T.CANCELLED
    case EXPIRED => T.CANCELLED
    case PAST_DUE => T.SUSPENDED
  }

  function Save(db: Db, s: Subscription): Db {
    db.(subscriptions := Written(db.subscriptions, s))
  }

  // A row written, and updateTenantStatusFromBilling for its tenant.
  function Settle(db: Db, s: Subscription): Db {
    Save(db, s).(tenants := db.tenants[s.tenantId := TenantStatusOf(s.status)])
  }

  function Blank(id: string, tenant: string): Subscription {
    Subscription(id, tenant, "", TRIALING, Manual, None, None, 1, false, None, None, None, None)
  }

  // The row an upsert on the tenant starts from.
  function UpsertBase(db: Db, tenant: string, newId: string): Result<Subscription, Error> {
    var found := SubscriptionOf(db, tenant);
    if found.Some? then Ok(found.value)
    else if tenant !in db.tenants then Err(UnknownTenant)
    else if IdTaken(db.subscriptions, newId) then Err(DuplicateId)
    else Ok(Blank(newId, tenant))
  }

  // stringValue: a text that is there and not empty.
  function Str(o: Option<string>): Option<string> {
    if Given(o) then o else None
  }

  function FromUnixSeconds(o: Option<int>): Option<int> {
    if o.Some? then Some(o.value * 1000) else None
  }

  function NormalizeCurrency(currency: Option<string>): string {
    P.NormalizeCurrency(currency.GetOr("USD"))
  }

  function AddInterval(config: Config, start: int, interval: string): int {
    AddPlanInterval(start, config.zone, interval)
  }

  function Days(n: int): int {
    n * MS_PER_DAY
  }

  predicate Usable(plan: Option<Plan>) {
    plan.Some? && plan.value.isActive && !plan.value.archived
  }

  function Unusable(plan: Option<Plan>): Error {
    if plan.None? then NotFound else PlanInactive
  }

  // ---------- Requests of a tenant ----------

  // A signed-in user's request: whether he may manage billing, the id of a row it may create,
  // and the time.
  datatype Request = Request(tenant: string, mayManage: bool, newId: string, now: int)

  datatype CreateDto = CreateDto(
    tenantId: Option<string>, planId: string, status: Option<Status>, provider: Option<Provider>,
    customerId: Option<string>, providerId: Option<string>, seatCount: Option<int>, cancelAtPeriodEnd: Option<bool>,
    trialEndsAt: Option<int>, periodStart: Option<int>, periodEnd: Option<int>)

  datatype UpdateDto = UpdateDto(
    planId: Option<string>, status: Option<Status>, customerId: Option<string>, providerId: Option<string>,
    seatCount: Option<int>, cancelAtPeriodEnd: Option<bool>,
    trialEndsAt: Option<int>, periodStart: Option<int>, periodEnd: Option<int>)

  datatype ChangeTiming = Immediate | PeriodEnd

  predicate HasTrial(plan: Plan) {
    plan.trialDays.Some? && plan.trialDays.value != 0
  }

  function NewSubscription(config: Config, dto: CreateDto, plan: Plan, tenant: string, id: string,
                           now: int): Subscription {
    var start := dto.periodStart.GetOr(now);
    var trial := if HasTrial(plan) then Some(start + Days(plan.trialDays.value)) else None;
    Subscription(
      id, tenant, dto.planId, dto.status.GetOr(if dto.trialEndsAt.Some? || HasTrial(plan) then TRIALING else ACTIVE),
      dto.provider.GetOr(Manual), dto.customerId, dto.providerId, dto.seatCount.GetOr(1),
      dto.cancelAtPeriodEnd.GetOr(false), dto.trialEndsAt.OrElse(trial), Some(start),
      Some(dto.periodEnd.GetOr(AddInterval(config, start, plan.interval))), None)
  }

  function CreateSubscription(db: Db, r: Request, dto: CreateDto): Reply {
    var tenant := dto.tenantId.GetOr(r.tenant);
    var plan := FindPlan(db, dto.planId);
    if !r.mayManage || (tenant != "" && tenant != r.tenant) then Refuse(db, Forbidden)
    else if !Usable(plan) then Refuse(db, Unusable(plan))
    else if tenant !in db.tenants then Refuse(db, UnknownTenant)
    else
      var s := NewSubscription(db.config, dto, plan.value, tenant, r.newId, r.now);
      if IdTaken(db.subscriptions, s.id) || TenantTaken(db.subscriptions, s) then Refuse(db, Conflict)
      else Reply(Settle(db, s), Ok(()))
  }

  function Patched(s: Subscription, dto: UpdateDto, now: int): Subscription {
    s.(planId := dto.planId.GetOr(s.planId), status := dto.status.GetOr(s.status),
       seatCount := dto.seatCount.GetOr(s.seatCount),
       customerId := dto.customerId.OrElse(s.customerId), providerId := dto.providerId.OrElse(s.providerId),
       trialEndsAt := dto.trialEndsAt.OrElse(s.trialEndsAt), periodStart := dto.periodStart.OrElse(s.periodStart),
       periodEnd := dto.periodEnd.OrElse(s.periodEnd),
       cancelAtPeriodEnd := dto.cancelAtPeriodEnd.GetOr(s.cancelAtPeriodEnd),
       canceledAt := if dto.status == Some(CANCELLED) then Some(now) else s.canceledAt)
  }

  function UpdateSubscription(db: Db, r: Request, id: string, dto: UpdateDto): Reply {
    var found := OwnSubscription(db, r.tenant, id);
    if !r.mayManage then Refuse(db, Forbidden)
    else if found.None? then Refuse(db, NotFound)
    else if Given(dto.planId) && !Usable(FindPlan(db, dto.planId.value))
      then Refuse(db, Unusable(FindPlan(db, dto.planId.value)))
    else if dto.planId.Some? && FindPlan(db, dto.planId.value).None? then Refuse(db, UnknownPlan)
    else
      var s := Patched(found.value, dto, r.now);
      Reply(if dto.status.Some? then Settle(db, s) else Save(db, s), Ok(()))
  }

  function ChangeOf(s: Subscription, current: Plan, plan: Plan, behavior: P.Behavior): P.Change {
    P.Change(current.price, current.currency, plan.price, plan.currency, s.seatCount, s.periodStart, s.periodEnd,
             behavior)
  }

  // The subscription after an immediate change to a plan.
  function Moved(config: Config, s: Subscription, plan: Plan, now: int): Subscription {
    s.(planId := plan.id, status := if s.status == CANCELLED then ACTIVE else s.status, cancelAtPeriodEnd := false,
       canceledAt := None, periodStart := Some(now), periodEnd := Some(AddInterval(config, now, plan.interval)))
  }

  function AdjustmentInvoice(s: Subscription, plan: Plan, amount: int, now: int): Invoice {
    Invoice(s.tenantId, s.id, amount, P.NormalizeCurrency(plan.currency), Open, Some(now), s.periodEnd, None)
  }

  // The invoice amount of an immediate change.
  function Due(s: Subscription, current: Plan, plan: Plan, behavior: P.Behavior, now: int): int {
    P.Calculate(ChangeOf(s, current, plan, behavior), now).invoiceAmount
  }

  // The three writes of an immediate change: the row, the invoice when there is one, and the
  // tenant's status, which is not reached when the invoice number is taken.
  function MovePlan(db: Db, s: Subscription, plan: Plan, due: int, now: int): Reply {
    var row := Moved(db.config, s, plan, now);
    var key := Adjustment(s.id, now);
    if due <= 0 then Reply(Settle(db, row), Ok(()))
    else if key in db.invoices then Reply(Save(db, row), Err(Conflict))
    else Reply(Settle(db.(invoices := db.invoices[key := AdjustmentInvoice(row, plan, due, now)]), row), Ok(()))
  }

  // A change at the end of the period is only noted in the metadata.
  function ChangePlan(db: Db, r: Request, id: string, planId: string, timing: ChangeTiming,
                      behavior: P.Behavior): Reply {
    var found, plan := OwnSubscription(db, r.tenant, id), FindPlan(db, planId);
    if !r.mayManage then Refuse(db, Forbidden)
    else if found.None? then Refuse(db, NotFound)
    else if !Usable(plan) then Refuse(db, Unusable(plan))
    else if timing == PeriodEnd then Reply(db, Ok(()))
    else
      var current := FindPlan(db, found.value.planId);
      if current.None? then Refuse(db, NotFound)
      else MovePlan(db, found.value, plan.value, Due(found.value, current.value, plan.value, behavior, r.now), r.now)
  }

  function CancelSubscription(db: Db, r: Request, id: string): Reply {
    var found := OwnSubscription(db, r.tenant, id);
    if !r.mayManage then Refuse(db, Forbidden)
    else if found.None? then Refuse(db, NotFound)
    else Reply(Settle(db, found.value.(status := CANCELLED, cancelAtPeriodEnd := false, canceledAt := Some(r.now))),
               Ok(()))
  }

  function ResumeSubscription(db: Db, r: Request, id: string): Reply {
    var found := OwnSubscription(db, r.tenant, id);
    if !r.mayManage then Refuse(db, Forbidden)
    else if found.None? then Refuse(db, NotFound)
    else Reply(Settle(db, found.value.(status := ACTIVE, cancelAtPeriodEnd := false, canceledAt := None)), Ok(()))
  }

  function StartTrial(db: Db, r: Request, id: string): Reply {
    var found := OwnSubscription(db, r.tenant, id);
    if !r.mayManage then Refuse(db, Forbidden)
    else if found.None? then Refuse(db, NotFound)
    else
      var plan := FindPlan(db, found.value.planId);
      if plan.None? then Refuse(db, NotFound)
      else
        var ends := r.now + Days(plan.value.trialDays.GetOr(14));
        Reply(Settle(db, found.value.(status := TRIALING, trialEndsAt := Some(ends), canceledAt := None)), Ok(()))
  }

  function OnTrial(base: Subscription, plan: Plan, seatCount: Option<int>, now: int): Subscription {
    var ends := Some(now + Days(plan.trialDays.GetOr(14)));
    base.(planId := plan.id, status := TRIALING, seatCount := seatCount.GetOr(1), cancelAtPeriodEnd := false,
          canceledAt := None,
          trialEndsAt := ends, periodStart := Some(now), periodEnd := ends)
  }

  function StartTenantTrial(db: Db, r: Request, planId: string, seatCount: Option<int>): Reply {
    var plan := FindPlan(db, planId);
    if !r.mayManage then Refuse(db, Forbidden)
    else if !Usable(plan) then Refuse(db, Unusable(plan))
    else
      var base := UpsertBase(db, r.tenant, r.newId);
      if base.Err? then Refuse(db, base.error)
      else
        Reply(Settle(db, OnTrial(base.value, plan.value, seatCount, r.now)), Ok(()))
  }

  // ---------- Stripe ----------

  // A Stripe object; times in seconds, amounts in cents.
  datatype StripeObject = StripeObject(
    id: Option<string>, customer: Option<string>, subscription: Option<string>, status: Option<WireStatus>,
    metaTenantId: Option<string>, metaPlanId: Option<string>, metaSeatCount: Option<int>, priceId: Option<string>,
    quantity: Option<int>, itemQuantity: Option<int>, cancelAtPeriodEnd: Option<bool>,
    periodStart: Option<int>, periodEnd: Option<int>, trialEnd: Option<int>, canceledAt: Option<int>,
    amountDue: Option<int>, amountPaid: Option<int>, total: Option<int>, subtotal: Option<int>,
    currency: Option<string>,
    paidAt: Option<int>, created: Option<int>)

  // mapStripeBillingStatus
  function StatusOfStripe(status: Option<WireStatus>): Status {
    match status
    case Some(Trialing) => TRIALING
    case Some(Active) => ACTIVE
    case Some(Canceled) => CANCELLED
    case Some(Unpaid) => EXPIRED
    case Some(IncompleteExpired) => EXPIRED
    case _ => PAST_DUE
  }

  function StatusOfEvent(kind: Kind, status: Option<WireStatus>): Status {
    if kind.SubscriptionDeleted? then CANCELLED else StatusOfStripe(status)
  }

  // mapStripeInvoiceStatus
  function InvoiceStatusOf(kind: Kind, status: Option<WireStatus>): WireStatus {
    match kind
    case InvoicePaid(_) => Paid
    case InvoiceFailed => Failed
    case InvoiceVoided => Void
    case _ => status.GetOr(Open)
  }

  function TenantBy(db: Db, p: Subscription -> bool): Option<string> {
    var found := FindFirst(db.subscriptions, p);
    if found.Some? then Some(found.value.tenantId) else None
  }

  function ResolveStripeTenant(db: Db, o: StripeObject): Option<string> {
    var id := Str(o.subscription).OrElse(Str(o.id));
    var byId := if id.Some? then TenantBy(db, ByProviderId(Stripe, id.value)) else None;
    var byCustomer := if Given(o.customer) then TenantBy(db, ByCustomer(Stripe, o.customer.value)) else None;
    Str(o.metaTenantId).OrElse(byId).OrElse(byCustomer)
  }

  function PlanByPrice(db: Db, price: Option<string>): Option<Plan> {
    if Given(price) then FindFirst(db.plans, PlanWithPrice(price.value)) else None
  }

  function StripePlan(db: Db, o: StripeObject, existing: Option<Subscription>): Option<Plan> {
    if Given(o.metaPlanId) then FindPlan(db, o.metaPlanId.value)
    else if Given(o.priceId) then PlanByPrice(db, o.priceId)
    else if existing.Some? then FindPlan(db, existing.value.planId)
    else None
  }

  function CancelTime(status: Status, o: StripeObject, now: int): Option<int> {
    if status == CANCELLED then Some(FromUnixSeconds(o.canceledAt).GetOr(now)) else None
  }

  // The row a Stripe subscription object writes over a base row.
  function StripeRow(config: Config, base: Subscription, tenant: string, plan: Plan, status: Status, seats: int,
                     o: StripeObject, now: int): Subscription {
    var start := FromUnixSeconds(o.periodStart).GetOr(now);
    base.(tenantId := tenant, planId := plan.id, status := status, provider := Stripe,
          customerId := Str(o.customer).OrElse(base.customerId),
          seatCount := seats, cancelAtPeriodEnd := o.cancelAtPeriodEnd.GetOr(false),
          trialEndsAt := FromUnixSeconds(o.trialEnd).OrElse(base.trialEndsAt), periodStart := Some(start),
          periodEnd := Some(FromUnixSeconds(o.periodEnd).GetOr(AddInterval(config, start, plan.interval))),
          canceledAt := CancelTime(status, o, now))
  }

  function StripeSeats(o: StripeObject): Option<int> {
    o.quantity.OrElse(o.itemQuantity).OrElse(o.metaSeatCount)
  }

  // What applying a provider's object does: nothing, an exception, or a new state.
  datatype Effect = Ignored | Threw | Done(db: Db)

  // The row a Stripe subscription event is to write, if it is one to write.
  function StripeWrite(db: Db, kind: Kind, o: StripeObject, tenant: Option<string>, newId: string,
                       now: int): Option<Result<Subscription, Error>> {
    if !Given(o.id) then None
    else
      var existing := FindFirst(db.subscriptions, ByProviderId(Stripe, o.id.value));
      var resolved := tenant.OrElse(if existing.Some? then Some(existing.value.tenantId) else None);
      var plan := StripePlan(db, o, existing);
      if resolved.None? || plan.None? then None
      else
        var base := if existing.Some? then Ok(existing.value) else UpsertBase(db, resolved.value, newId);
        if base.Err? then Some(base)
        else
          var row := StripeRow(db.config, base.value, resolved.value, plan.value, StatusOfEvent(kind, o.status),
                               StripeSeats(o).GetOr(1), o, now);
          Some(Ok(row.(providerId := o.id)))
  }

  // A row of a tenant that has another one is refused by the unique key.
  function SettleWrite(db: Db, write: Option<Result<Subscription, Error>>): Effect {
    match write
    case None => Ignored
    case Some(Err(_)) => Threw
    case Some(Ok(row)) => if TenantTaken(db.subscriptions, row) then Threw else Done(Settle(db, row))
  }

  function ApplyStripeSubscription(db: Db, kind: Kind, o: StripeObject, tenant: Option<string>, newId: string,
                                   now: int): Effect {
    SettleWrite(db, StripeWrite(db, kind, o, tenant, newId, now))
  }

  // The filter of the invoice lookup; an undefined condition is left out of it.
  function InvoiceOwner(o: StripeObject, tenant: Option<string>, emptyMatches: bool): Subscription -> bool {
    (s: Subscription) =>
      (s.provider == Stripe && (!Given(o.subscription) || s.providerId == o.subscription)) ||
      (if tenant.None? && !Given(o.customer) then emptyMatches
       else (tenant.None? || tenant == Some(s.tenantId)) && (!Given(o.customer) || s.customerId == o.customer))
  }

  function StripeInvoice(before: Option<Invoice>, s: Subscription, kind: Kind, o: StripeObject, now: int): Invoice {
    var status := InvoiceStatusOf(kind, o.status);
    var amount := o.amountDue.OrElse(o.amountPaid).OrElse(o.total).OrElse(o.subtotal).GetOr(0);
    var kept := if before.Some? then before.value else Invoice("", "", 0, "", Open, s.periodStart, s.periodEnd, None);
    kept.(tenantId := s.tenantId, subscriptionId := s.id, amount := amount,
          currency := NormalizeCurrency(o.currency), status := status,
          paidAt := if status == Paid then Some(FromUnixSeconds(o.paidAt.OrElse(o.created)).GetOr(now))
            else kept.paidAt)
  }

  function InvoiceAt(db: Db, key: InvoiceKey): Option<Invoice> {
    if key in db.invoices then Some(db.invoices[key]) else None
  }

  function ApplyStripeInvoice(db: Db, kind: Kind, o: StripeObject, tenant: Option<string>, now: int): Effect {
    if !Given(o.id) then Ignored
    else
      var s := FindFirst(db.subscriptions, InvoiceOwner(o, tenant, db.config.emptyFilterMatches));
      var key := Numbered(Stripe, o.id.value);
      if s.None? then Ignored
      else Done(db.(invoices := db.invoices[key := StripeInvoice(InvoiceAt(db, key), s.value, kind, o, now)]))
  }

  // The state an effect leaves, and the status its event ends with.
  function Left(db: Db, e: Effect): Db {
    if e.Done? then e.db else db
  }

  function ApplyStripe(db: Db, kind: Kind, o: StripeObject, tenant: Option<string>, newId: string,
                       now: int): (Db, EventStatus) {
    if kind.SubscriptionDeleted? || kind.SubscriptionChanged? then
      var e := ApplyStripeSubscription(db, kind, o, tenant, newId, now);
      (Left(db, e), if e.Threw? then FAILED else if tenant.Some? then PROCESSED else IGNORED)
    else if kind.InvoicePaid? || kind.InvoiceFailed? || kind.InvoiceVoided? || kind.InvoiceChanged? then
      var e := ApplyStripeInvoice(db, kind, o, tenant, now);
      (Left(db, e), if e.Done? then PROCESSED else IGNORED)
    else (db, IGNORED)
  }

  // One delivery of an event: whether its signature holds, its type, a random id for an event
  // without one, and the id of a row it may create.
  datatype StripeDelivery = StripeDelivery(
    signed: bool, id: Option<string>, kind: Option<Kind>, payload: StripeObject, uuid: string, newId: string, now: int)

  function StripeKey(d: StripeDelivery): EventKey {
    EventKey(Stripe, Str(d.id).GetOr(d.uuid))
  }

  // An event row with the outcome of its processing.
  function Recorded(applied: (Db, EventStatus), key: EventKey, tenant: Option<string>, kind: Kind): Db {
    applied.0.(events := applied.0.events[key := Event(tenant, kind, applied.1)])
  }

  // The event row is claimed first: a delivery whose key is taken, or whose tenant does not
  // exist, changes nothing.
  function ProcessStripe(db: Db, d: StripeDelivery): Reply {
    var key, tenant := StripeKey(d), ResolveStripeTenant(db, d.payload);
    if !d.signed then Refuse(db, BadSignature)
    else if d.kind.None? then Refuse(db, TypeRequired)
    else if key in db.events then Reply(db, Ok(()))
    else if tenant.Some? && tenant.value !in db.tenants then Refuse(db, UnknownTenant)
    else Reply(Recorded(ApplyStripe(db, d.kind.value, d.payload, tenant, d.newId, d.now), key, tenant, d.kind.value),
               Ok(()))
  }

  // ---------- Paystack ----------

  // A Paystack object; amounts in the currency's subunit.
  datatype PaystackObject = PaystackObject(
    id: Option<string>, reference: Option<string>, succeeded: bool, amount: Option<int>, currency: Option<string>,
    paidAt: Option<int>, createdAt: Option<int>, customerCode: Option<string>, customerId: Option<string>,
    planCode: Option<string>,
    subscriptionCode: Option<string>, authorizationCode: Option<string>,
    metaTenantId: Option<string>, metaPlanId: Option<string>, metaSeatCount: Option<int>,
    expectedAmount: Option<int>, expectedCurrency: Option<string>)

  const ZERO_DECIMAL: set<string> :=
    {"BIF", "CLP", "DJF", "GNF", "JPY", "KMF", "KRW", "MGA", "PYG", "RWF", "UGX", "VND", "VUV", "XAF", "XOF", "XPF"}

  function Subunits(currency: string): int {
    if currency in ZERO_DECIMAL then 1 else 100
  }

  // moneyToSubunit of a price for some seats, by Math.round.
  function MoneyToSubunit(price: real, seats: int, currency: string): int {
    (price * seats as real * Subunits(P.NormalizeCurrency(currency)) as real + 0.5).Floor
  }

  // subunitToMoney, in cents.
  function SubunitToCents(amount: int, currency: Option<string>): int {
    if NormalizeCurrency(currency) in ZERO_DECIMAL then amount * 100 else amount
  }

  function ExpectedAmount(o: PaystackObject, plan: Plan): int {
    o.expectedAmount.GetOr(MoneyToSubunit(plan.price, o.metaSeatCount.GetOr(1), plan.currency))
  }

  function ExpectedCurrency(o: PaystackObject, plan: Plan): string {
    P.NormalizeCurrency(Str(o.expectedCurrency).GetOr(plan.currency))
  }

  // paystackPaymentMatchesPlan
  predicate PaymentMatches(o: PaystackObject, plan: Plan) {
    && o.amount.Some? && o.amount.value > 0
    && P.NormalizeCurrency(o.currency.GetOr(ExpectedCurrency(o, plan))) == ExpectedCurrency(o, plan)
    && o.amount.value == ExpectedAmount(o, plan)
  }

  function ResolvePaystackTenant(db: Db, o: PaystackObject): Option<string> {
    var id := Str(o.subscriptionCode).OrElse(Str(o.authorizationCode)).OrElse(Str(o.reference));
    var customer := Str(o.customerCode).OrElse(Str(o.customerId));
    var byId := if id.Some? then TenantBy(db, ByProviderId(Paystack, id.value)) else None;
    var byCustomer := if customer.Some? then TenantBy(db, ByCustomer(Paystack, customer.value)) else None;
    Str(o.metaTenantId).OrElse(byId).OrElse(byCustomer)
  }

  function PaystackPlan(db: Db, o: PaystackObject): Option<Plan> {
    if Given(o.metaPlanId) then FindPlan(db, o.metaPlanId.value) else PlanByPrice(db, o.planCode)
  }

  function PaidAt(o: PaystackObject, now: int): int {
    o.paidAt.OrElse(o.createdAt).GetOr(now)
  }

  function ChargeNumber(o: PaystackObject): Option<string> {
    Str(o.reference).OrElse(Str(o.id))
  }

  function ChargedRow(config: Config, base: Subscription, plan: Plan, o: PaystackObject, now: int): Subscription {
    var paidAt := PaidAt(o, now);
    base.(planId := plan.id, status := ACTIVE, provider := Paystack,
          customerId := Str(o.customerCode).OrElse(Str(o.customerId)).OrElse(base.customerId),
          providerId :=
            Str(o.subscriptionCode).OrElse(Str(o.authorizationCode)).OrElse(Str(o.reference)).OrElse(base.providerId),
          seatCount := o.metaSeatCount.GetOr(1), cancelAtPeriodEnd := false, trialEndsAt := None, canceledAt := None,
          periodStart := Some(paidAt), periodEnd := Some(AddInterval(config, paidAt, plan.interval)))
  }

  function ChargeInvoice(s: Subscription, o: PaystackObject, now: int): Invoice {
    Invoice(s.tenantId, s.id, SubunitToCents(o.amount.GetOr(0), o.currency), NormalizeCurrency(o.currency), Paid,
            s.periodStart, s.periodEnd, Some(PaidAt(o, now)))
  }

  // A charge is due a place when its plan is known, the payment is the plan's, and it has a number.
  predicate Chargeable(db: Db, o: PaystackObject) {
    && PaystackPlan(db, o).Some?
    && PaymentMatches(o, PaystackPlan(db, o).value)
    && ChargeNumber(o).Some?
  }

  function Charge(db: Db, base: Subscription, plan: Plan, number: string, o: PaystackObject, now: int): Db {
    var row := ChargedRow(db.config, base, plan, o, now);
    Settle(db.(invoices := db.invoices[Numbered(Paystack, number) := ChargeInvoice(row, o, now)]), row)
  }

  function ApplyCharge(db: Db, o: PaystackObject, tenant: Option<string>, newId: string, now: int): Effect {
    var resolved := tenant.OrElse(Str(o.metaTenantId));
    if resolved.None? || !Chargeable(db, o) then Ignored
    else
      var base := UpsertBase(db, resolved.value, newId);
      if base.Err? then Threw
      else Done(Charge(db, base.value, PaystackPlan(db, o).value, ChargeNumber(o).value, o, now))
  }

  function PaystackOwner(id: string, tenant: Option<string>, emptyMatches: bool): Subscription -> bool {
    (s: Subscription) => s.provider == Paystack
    && (s.providerId == Some(id) || (if tenant.None? then emptyMatches else tenant == Some(s.tenantId)))
  }

  function ApplyPaystackSubscription(db: Db, kind: Kind, o: PaystackObject, tenant: Option<string>, now: int): Effect {
    var id := Str(o.subscriptionCode).OrElse(Str(o.id));
    if id.None? then Ignored
    else
      var found := FindFirst(db.subscriptions, PaystackOwner(id.value, tenant, db.config.emptyFilterMatches));
      if found.None? then Ignored
      else if kind.SubscriptionStopped? then
        Done(Settle(db, found.value.(status := CANCELLED, canceledAt := Some(now))))
      else Done(Settle(db, found.value.(status := ACTIVE, canceledAt := None)))
  }

  function ApplyPaystack(db: Db, kind: Kind, o: PaystackObject, tenant: Option<string>, newId: string,
                         now: int): (Db, EventStatus) {
    if kind.ChargeSuccess? then
      var e := ApplyCharge(db, o, tenant, newId, now);
      (Left(db, e), if e.Threw? then FAILED else if e.Done? then PROCESSED else IGNORED)
    else if kind.SubscriptionStopped? || kind.SubscriptionNoted? then
      var e := ApplyPaystackSubscription(db, kind, o, tenant, now);
      (Left(db, e), if e.Done? then PROCESSED else IGNORED)
    else (db, IGNORED)
  }

  // generated: the id <type>-<random> for an object that has none.
  datatype PaystackDelivery = PaystackDelivery(
    signed: bool, kind: Option<Kind>, payload: PaystackObject, generated: string, newId: string, now: int)

  // paystackEventId: the event type takes no part in the key of an object that has an id.
  function PaystackKey(d: PaystackDelivery): EventKey {
    var o := d.payload;
    var id := Str(o.reference).OrElse(Str(o.subscriptionCode)).OrElse(Str(o.authorizationCode)).OrElse(Str(o.id));
    EventKey(Paystack, id.GetOr(d.generated))
  }

  function ProcessPaystack(db: Db, d: PaystackDelivery): Reply {
    var key, tenant := PaystackKey(d), ResolvePaystackTenant(db, d.payload);
    if !d.signed then Refuse(db, BadSignature)
    else if d.kind.None? then Refuse(db, TypeRequired)
    else if key in db.events then Reply(db, Ok(()))
    else if tenant.Some? && tenant.value !in db.tenants then Refuse(db, UnknownTenant)
    else Reply(Recorded(ApplyPaystack(db, d.kind.value, d.payload, tenant, d.newId, d.now), key, tenant,
                        d.kind.value), Ok(()))
  }

  // ---------- Returning from checkout ----------

  // A checkout session as Stripe reports it: its own tenant, whether it is complete and paid, the
  // subscription object, and the sums of the session and its invoice.
  datatype StripeSession = StripeSession(
    tenantId: Option<string>, complete: bool, planId: Option<string>, seatCount: Option<int>, customer: Option<string>,
    providerId: Option<string>, subscription: StripeObject, invoiceId: Option<string>, amount: int,
    currency: Option<string>)

  // recordCheckoutBillingEvent
  function Noted(db: Db, key: EventKey, tenant: string, kind: Kind, status: EventStatus): Db {
    db.(events := db.events[key := Event(Some(tenant), kind, status)])
  }

  predicate Foreign(owner: Option<string>, tenant: string) {
    Given(owner) && owner.value != tenant
  }

  function SessionPlan(db: Db, session: StripeSession): Option<Plan> {
    var id := Str(session.planId).OrElse(Str(session.subscription.metaPlanId));
    if id.Some? then FindPlan(db, id.value) else PlanByPrice(db, session.subscription.priceId)
  }

  function SessionRow(config: Config, base: Subscription, plan: Plan, session: StripeSession, now: int): Subscription {
    var status := StatusOfStripe(session.subscription.status.OrElse(Some(Active)));
    var row := StripeRow(config, base, base.tenantId, plan, status,
                         StripeSeats(session.subscription).OrElse(session.seatCount).GetOr(1), session.subscription,
                         now);
    row.(customerId := Str(session.customer).OrElse(Str(session.subscription.customer)).OrElse(base.customerId),
         providerId := Str(session.providerId).OrElse(base.providerId))
  }

  function SessionInvoice(s: Subscription, session: StripeSession, now: int): Invoice {
    Invoice(s.tenantId, s.id, session.amount, NormalizeCurrency(session.currency), Paid, s.periodStart, s.periodEnd,
            Some(now))
  }

  // A complete checkout: the subscription and its paid invoice.
  function SettleSession(db: Db, base: Subscription, plan: Plan, sessionId: string, session: StripeSession,
                         now: int): Db {
    var row := SessionRow(db.config, base, plan, session, now);
    var number := Numbered(Stripe, Str(session.invoiceId).GetOr("checkout:" + sessionId));
    Settle(db.(invoices := db.invoices[number := SessionInvoice(row, session, now)]), row)
  }

  function ApplySession(db: Db, r: Request, sessionId: string, session: StripeSession): Reply {
    var key, plan := EventKey(Stripe, "checkout:" + sessionId), SessionPlan(db, session);
    if !session.complete then Reply(Noted(db, key, r.tenant, CheckoutPending, RECEIVED), Ok(()))
    else if plan.None? then Refuse(db, PlanUnresolved)
    else
      var base := UpsertBase(db, r.tenant, r.newId);
      if base.Err? then Refuse(db, base.error)
      else Reply(Noted(SettleSession(db, base.value, plan.value, sessionId, session, r.now), key, r.tenant,
                       CheckoutConfirmed, PROCESSED), Ok(()))
  }

  // What both returns check first: the permission, the reference, the provider's answer, whose
  // it is, and that the user's tenant exists.
  function CheckReturn<T>(db: Db, r: Request, reference: Option<string>, answer: Option<T>,
                          owner: Option<string>): Result<(), Error> {
    if !r.mayManage then Err(Forbidden)
    else if !Given(reference) then Err(ReferenceRequired)
    else if answer.None? then Err(NotVerified)
    else if Foreign(owner, r.tenant) then Err(ForeignTenant)
    else if r.tenant !in db.tenants then Err(UnknownTenant)
    else Ok(())
  }

  function ConfirmStripe(db: Db, r: Request, sessionId: Option<string>, session: Option<StripeSession>): Reply {
    var check := CheckReturn(db, r, sessionId, session, if session.Some? then session.value.tenantId else None);
    if check.Err? then Refuse(db, check.error) else ApplySession(db, r, sessionId.value, session.value)
  }

  function ApplyReturnedCharge(db: Db, r: Request, reference: string, charge: PaystackObject): Reply {
    var key := EventKey(Paystack, "verify:" + reference);
    if !charge.succeeded then Reply(Noted(db, key, r.tenant, ChargePending, RECEIVED), Ok(()))
    else
      match ApplyCharge(db, charge, Some(r.tenant), r.newId, r.now)
      case Threw => Refuse(db, DuplicateId)
      case Ignored => Refuse(db, NotApplied)
      case Done(after) => Reply(Noted(after, key, r.tenant, ChargeVerified, PROCESSED), Ok(()))
  }

  function ConfirmPaystack(db: Db, r: Request, reference: Option<string>, charge: Option<PaystackObject>): Reply {
    var check := CheckReturn(db, r, reference, charge, if charge.Some? then charge.value.metaTenantId else None);
    if check.Err? then Refuse(db, check.error) else ApplyReturnedCharge(db, r, reference.value, charge.value)
  }

  // ---------- Runs ----------

  datatype Op =
    | Create(create: CreateDto)
    | Update(id: string, update: UpdateDto)
    | Change(id: string, planId: string, timing: ChangeTiming, behavior: P.Behavior)
    | Cancel(id: string)
    | Resume(id: string)
    | Trial(id: string)
    | TenantTrial(planId: string, seatCount: Option<int>)
    | ReturnFromStripe(sessionId: Option<string>, session: Option<StripeSession>)
    | ReturnFromPaystack(reference: Option<string>, charge: Option<PaystackObject>)

  // EditPlans: the plan table as the catalogue methods leave it, whatever they do to it.
  datatype Step =
    | Ask(request: Request, op: Op)
    | StripeHook(stripe: StripeDelivery)
    | PaystackHook(paystack: PaystackDelivery)
    | EditPlans(plans: seq<Plan>)

  function Answer(db: Db, r: Request, op: Op): Reply {
    match op
    case Create(dto) => CreateSubscription(db, r, dto)
    case Update(id, dto) => UpdateSubscription(db, r, id, dto)
    case Change(id, planId, timing, behavior) => ChangePlan(db, r, id, planId, timing, behavior)
    case Cancel(id) => CancelSubscription(db, r, id)
    case Resume(id) => ResumeSubscription(db, r, id)
    case Trial(id) => StartTrial(db, r, id)
    case TenantTrial(planId, seatCount) => StartTenantTrial(db, r, planId, seatCount)
    case ReturnFromStripe(sessionId, session) => ConfirmStripe(db, r, sessionId, session)
    case ReturnFromPaystack(reference, charge) => ConfirmPaystack(db, r, reference, charge)
  }

  function After(db: Db, step: Step): Db {
    match step
    case Ask(r, op) => Answer(db, r, op).db
    case StripeHook(d) => ProcessStripe(db, d).db
    case PaystackHook(d) => ProcessPaystack(db, d).db
    case EditPlans(plans) => db.(plans := plans)
  }

  function Run(db: Db, steps: seq<Step>): Db
    decreases |steps|
  {
    if steps == [] then db else Run(After(db, steps[0]), steps[1..])
  }
}
