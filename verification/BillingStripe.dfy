// What Stripe leaves behind (src/billing/billing.service.ts): the subscription, the tenant and the
// invoice after an event or a return from checkout, field by field.
module BillingStripe {
  import opened Seqs
  import opened Calendar
  import opened Billing
  import opened BillingCoupling
  import opened BillingRequests
  import P = Proration
  import T = Tenants

  // ---------- The words for a subscription ----------

  // The status that follows from Stripe's word for it, and from a deletion.
  predicate Tells(deleted: bool, wire: Option<WireStatus>, status: Status) {
    && (status == CANCELLED <==> deleted || wire == Some(Canceled))
    && (status == ACTIVE <==> !deleted && wire == Some(Active))
    && (status == TRIALING <==> !deleted && wire == Some(Trialing))
    && (status == EXPIRED <==> !deleted && (wire == Some(Unpaid) || wire == Some(IncompleteExpired)))
  }

  lemma StatusIsTold(kind: Kind, wire: Option<WireStatus>)
    ensures Tells(kind.SubscriptionDeleted?, wire, StatusOfEvent(kind, wire))
    ensures Tells(false, wire, StatusOfStripe(wire))
  {
  }

  // A time Stripe sends in seconds, or what stands in for it.
  predicate Timed(sent: Option<int>, default: Option<int>, at: Option<int>) {
    if sent.Some? then at == Some(sent.value * 1000) else at == default
  }

  // A text Stripe sends, or what was there before when it sends none or an empty one.
  predicate Texted(sent: Option<string>, before: Option<string>, text: Option<string>) {
    if sent.Some? && sent.value != "" then text == sent else text == before
  }

  // The plan, the period and the cancellation a Stripe object sets: the end it sends, or one
  // exact interval; a time of cancellation on cancelled subscriptions only.
  predicate SetBy(s: Subscription, o: StripeObject, plan: Plan, zone: int, now: int) {
    && s.planId == plan.id && s.provider == Stripe && s.cancelAtPeriodEnd == (o.cancelAtPeriodEnd == Some(true))
    && s.periodStart.Some? && Timed(o.periodStart, Some(now), s.periodStart)
    && Timed(o.periodEnd, Some(OneInterval(s.periodStart.value, zone, plan.interval)), s.periodEnd)
    && (if s.status == CANCELLED then Timed(o.canceledAt, Some(now), s.canceledAt) else s.canceledAt.None?)
  }

  // The seats: of the object, else of its item, else of its metadata, else as given.
  predicate Seated(o: StripeObject, default: int, seats: int) {
    if o.quantity.Some? then seats == o.quantity.value
    else if o.itemQuantity.Some? then seats == o.itemQuantity.value
    else if o.metaSeatCount.Some? then seats == o.metaSeatCount.value
    else seats == default
  }

  // What a row of before says, if there is one.
  function CustomerBefore(before: Option<Subscription>): Option<string> {
    if before.Some? then before.value.customerId else None
  }

  function TrialBefore(before: Option<Subscription>): Option<int> {
    if before.Some? then before.value.trialEndsAt else None
  }

  // ---------- Lookups ----------

  // Whose an event is: the tenant of the metadata; else of the row of the subscription it names
  // or is; else of the first row of its customer.
  lemma WhoseEvent(db: Db, o: StripeObject)
    ensures var bySubscription := TenantByCode(db, Stripe, if Given(o.subscription) then o.subscription else o.id);
            var byCustomer := TenantByCustomer(db, Stripe, o.customer);
            && (Given(o.metaTenantId) ==> ResolveStripeTenant(db, o) == o.metaTenantId)
            && (!Given(o.metaTenantId) && bySubscription.Some? ==> ResolveStripeTenant(db, o) == bySubscription)
            && (!Given(o.metaTenantId) && bySubscription.None? ==> ResolveStripeTenant(db, o) == byCustomer)
  {
  }

  // The plan an object is for: the metadata's; else the one with its price; else the plan the
  // subscription has.
  predicate IsFor(db: Db, o: StripeObject, before: Option<Subscription>, plan: Plan) {
    if Given(o.metaPlanId) then FindPlan(db, o.metaPlanId.value) == Some(plan)
    else if Given(o.priceId) then PlanByPrice(db, o.priceId) == Some(plan)
    else before.Some? && FindPlan(db, before.value.planId) == Some(plan)
  }

  // ---------- Subscription events ----------

  // The tenant can have the row: the one found by the object's id, if it is his or he has none;
  // else his own; else a new one.
  predicate HasRoom(db: Db, found: Option<Subscription>, tenant: string, newId: string) {
    if found.Some? then found.value.tenantId == tenant || SubscriptionOf(db, tenant).None?
    else SubscriptionOf(db, tenant).Some? || !IdTaken(db.subscriptions, newId)
  }

  // What a subscription event makes of the row of a tenant.
  predicate Follows(s: Subscription, kind: Kind, o: StripeObject, tenant: string, before: Option<Subscription>,
                    plan: Plan, newId: string, zone: int, now: int) {
    && s.id == (if before.Some? then before.value.id else newId) && s.tenantId == tenant && s.providerId == o.id
    && Tells(kind.SubscriptionDeleted?, o.status, s.status) && SetBy(s, o, plan, zone, now)
    && Seated(o, 1, s.seatCount)
    && Texted(o.customer, CustomerBefore(before), s.customerId)
    && Timed(o.trialEnd, TrialBefore(before), s.trialEndsAt)
  }

  // The row a Stripe object writes, whatever it is written over.
  lemma RowIsSet(config: Config, base: Subscription, tenant: string, plan: Plan, status: Status, seats: int,
                 o: StripeObject, now: int)
    ensures var s := StripeRow(config, base, tenant, plan, status, seats, o, now);
            && s.id == base.id && s.tenantId == tenant && s.status == status && s.seatCount == seats
            && s.providerId == base.providerId
            && SetBy(s, o, plan, config.zone, now)
            && Texted(o.customer, base.customerId, s.customerId) && Timed(o.trialEnd, base.trialEndsAt, s.trialEndsAt)
  {
    EndOfInterval(config, FromUnixSeconds(o.periodStart).GetOr(now), plan.interval);
  }

  // The tenant a subscription event writes to: the one it resolves to, else the one of the row
  // with the object's id.
  predicate WritesTo(found: Option<Subscription>, resolved: Option<string>, tenant: string) {
    if resolved.Some? then resolved.value == tenant else found.Some? && found.value.tenantId == tenant
  }

  // The row to be written follows from the object.
  lemma WriteFollows(db: Db, kind: Kind, o: StripeObject, resolved: Option<string>, tenant: string, newId: string,
                     now: int, plan: Plan, found: Option<Subscription>)
    requires Given(o.id) && found == FindFirst(db.subscriptions, ByProviderId(Stripe, o.id.value))
    requires WritesTo(found, resolved, tenant) && IsFor(db, o, found, plan)
    requires found.Some? || UpsertBase(db, tenant, newId).Ok?
    ensures var write := StripeWrite(db, kind, o, resolved, newId, now);
            && write.Some? && write.value.Ok?
            && Follows(write.value.value, kind, o, tenant, if found.Some? then found else SubscriptionOf(db, tenant),
                       plan, newId, db.config.zone, now)
  {
    var base := if found.Some? then found.value else UpsertBase(db, tenant, newId).value;
    var before := if found.Some? then found else SubscriptionOf(db, tenant);
    WriteIsRow(db, kind, o, resolved, tenant, newId, now, plan, found, base);
    RowFollows(db.config, kind, o, tenant, base, before, plan, newId, now);
  }

  lemma RowFollows(config: Config, kind: Kind, o: StripeObject, tenant: string, base: Subscription,
                   before: Option<Subscription>, plan: Plan, newId: string, now: int)
    requires base == before.GetOr(Blank(newId, tenant))
    ensures var row := StripeRow(config, base, tenant, plan, StatusOfEvent(kind, o.status), StripeSeats(o).GetOr(1), o,
                                 now).(providerId := o.id);
            Follows(row, kind, o, tenant, before, plan, newId, config.zone, now)
  {
    var status, seats := StatusOfEvent(kind, o.status), StripeSeats(o).GetOr(1);
    RowIsSet(config, base, tenant, plan, status, seats, o, now);
    StatusIsTold(kind, o.status);
    NamedRowIsSet(StripeRow(config, base, tenant, plan, status, seats, o, now), o, plan, config.zone, now);
  }

  lemma NamedRowIsSet(s: Subscription, o: StripeObject, plan: Plan, zone: int, now: int)
    requires SetBy(s, o, plan, zone, now)
    ensures SetBy(s.(providerId := o.id), o, plan, zone, now)
  {
  }

  lemma WriteIsRow(db: Db, kind: Kind, o: StripeObject, resolved: Option<string>, tenant: string, newId: string,
                   now: int, plan: Plan, found: Option<Subscription>, base: Subscription)
    requires Given(o.id) && found == FindFirst(db.subscriptions, ByProviderId(Stripe, o.id.value))
    requires WritesTo(found, resolved, tenant) && IsFor(db, o, found, plan)
    requires if found.Some? then base == found.value else UpsertBase(db, tenant, newId) == Ok(base)
    ensures StripeWrite(db, kind, o, resolved, newId, now)
         == Some(Ok(StripeRow(db.config, base, tenant, plan, StatusOfEvent(kind, o.status), StripeSeats(o).GetOr(1), o,
                              now).(providerId := o.id)))
  {
    assert StripePlan(db, o, found) == Some(plan);
  }

  // The row can be written exactly when the tenant has room for it.
  lemma RoomIff(db: Db, kind: Kind, o: StripeObject, resolved: Option<string>, tenant: string, newId: string,
                now: int, plan: Plan, found: Option<Subscription>)
    requires Keyed(db.subscriptions) && tenant in db.tenants
    requires Given(o.id) && found == FindFirst(db.subscriptions, ByProviderId(Stripe, o.id.value))
    requires WritesTo(found, resolved, tenant) && IsFor(db, o, found, plan)
    ensures ApplyStripeSubscription(db, kind, o, resolved, newId, now).Done? <==> HasRoom(db, found, tenant, newId)
    ensures HasRoom(db, found, tenant, newId) ==>
              && (found.Some? || UpsertBase(db, tenant, newId).Ok?)
              && StripeWrite(db, kind, o, resolved, newId, now).Some?
              && StripeWrite(db, kind, o, resolved, newId, now).value.Ok?
              && !TenantTaken(db.subscriptions, StripeWrite(db, kind, o, resolved, newId, now).value.value)
    ensures !HasRoom(db, found, tenant, newId) ==> ApplyStripeSubscription(db, kind, o, resolved, newId, now).Threw?
  {
    if found.Some? {
      WriteIsRow(db, kind, o, resolved, tenant, newId, now, plan, found, found.value);
      RoomForFound(db, found.value, StripeWrite(db, kind, o, resolved, newId, now).value.value, tenant);
    } else {
      RoomForNew(db, kind, o, resolved, tenant, newId, now, plan);
    }
  }

  lemma RoomForNew(db: Db, kind: Kind, o: StripeObject, resolved: Option<string>, tenant: string, newId: string,
                   now: int, plan: Plan)
    requires Keyed(db.subscriptions) && tenant in db.tenants && resolved == Some(tenant) && Given(o.id)
    requires FindFirst(db.subscriptions, ByProviderId(Stripe, o.id.value)).None? && IsFor(db, o, None, plan)
    ensures var write, base := StripeWrite(db, kind, o, resolved, newId, now), UpsertBase(db, tenant, newId);
            && write.Some? && (write.value.Ok? <==> base.Ok?)
            && (base.Ok? ==> !TenantTaken(db.subscriptions, write.value.value))
            && (base.Ok? <==> HasRoom(db, None, tenant, newId))
  {
    var base := UpsertBase(db, tenant, newId);
    if base.Ok? {
      WriteIsRow(db, kind, o, resolved, tenant, newId, now, plan, None, base.value);
      BaseIsFree(db, tenant, newId, base.value, StripeWrite(db, kind, o, resolved, newId, now).value.value);
    } else {
      NoRowNoWrite(db, kind, o, resolved, tenant, newId, now, plan);
    }
  }

  lemma NoRowNoWrite(db: Db, kind: Kind, o: StripeObject, resolved: Option<string>, tenant: string, newId: string,
                     now: int, plan: Plan)
    requires Given(o.id) && resolved == Some(tenant) && UpsertBase(db, tenant, newId).Err?
    requires FindFirst(db.subscriptions, ByProviderId(Stripe, o.id.value)).None? && IsFor(db, o, None, plan)
    ensures StripeWrite(db, kind, o, resolved, newId, now) == Some(UpsertBase(db, tenant, newId))
  {
    assert StripePlan(db, o, None) == Some(plan);
  }

  lemma RoomForFound(db: Db, found: Subscription, row: Subscription, tenant: string)
    requires Keyed(db.subscriptions) && found in db.subscriptions && row.id == found.id && row.tenantId == tenant
    ensures !TenantTaken(db.subscriptions, row) <==> found.tenantId == tenant || SubscriptionOf(db, tenant).None?
  {
    var own := SubscriptionOf(db, tenant);
    if found.tenantId == tenant {
      OwnRowIsFree(db.subscriptions, found, row);
    } else if own.Some? {
      assert OfTenant(tenant)(own.value);
      KeyedRows(db.subscriptions, found, own.value);
    } else {
      forall x | x in db.subscriptions
        ensures x.tenantId != tenant
      {
        assert !OfTenant(tenant)(x);
      }
    }
  }

  predicate IsSubscriptionKind(kind: Kind) {
    kind.SubscriptionDeleted? || kind.SubscriptionChanged?
  }

  // A new signed delivery of an event, of nobody or of an existing tenant.
  predicate Arrives(db: Db, d: StripeDelivery, kind: Kind, resolved: Option<string>) {
    && d.signed && d.kind == Some(kind) && StripeKey(d) !in db.events
    && resolved == ResolveStripeTenant(db, d.payload) && (resolved.Some? ==> resolved.value in db.tenants)
  }

  lemma ArrivedIsApplied(db: Db, d: StripeDelivery, kind: Kind, resolved: Option<string>)
    requires Arrives(db, d, kind, resolved)
    ensures var applied := ApplyStripe(db, kind, d.payload, resolved, d.newId, d.now);
            && ProcessStripe(db, d).result == Ok(())
            && ProcessStripe(db, d).db
               == applied.0.(events := applied.0.events[StripeKey(d) := Event(resolved, kind, applied.1)])
  {
  }

  // How an event that goes through ends: processed for somebody, ignored for nobody.
  function DoneFor(resolved: Option<string>): EventStatus {
    if resolved.Some? then PROCESSED else IGNORED
  }

  // A new subscription event with room leaves the tenant the row the object tells, field by
  // field, with the status that goes with it, and every other row, tenant and invoice as it was.
  lemma SubscriptionEventLeaves(db: Db, d: StripeDelivery, kind: Kind, resolved: Option<string>, tenant: string,
                                plan: Plan, found: Option<Subscription>, s: Subscription, x: Subscription)
    requires Tables(db) && IsSubscriptionKind(kind) && Arrives(db, d, kind, resolved) && Given(d.payload.id)
    requires found == FindFirst(db.subscriptions, ByProviderId(Stripe, d.payload.id.value))
    requires WritesTo(found, resolved, tenant) && tenant in db.tenants
    requires IsFor(db, d.payload, found, plan) && HasRoom(db, found, tenant, d.newId)
    requires s == SubscriptionOf(ProcessStripe(db, d).db, tenant).GetOr(Blank("", ""))
    ensures Follows(s, kind, d.payload, tenant, if found.Some? then found else SubscriptionOf(db, tenant), plan,
                    d.newId, db.config.zone, d.now)
    ensures var end := ProcessStripe(db, d).db;
            && SubscriptionOf(end, tenant) == Some(s) && Mirrors(end.tenants, s) && end.invoices == db.invoices
            && OtherStatusesStay(db, end, tenant)
            && (x in end.subscriptions <==> x == s || (x in db.subscriptions && x.id != s.id))
            && end.events == db.events[StripeKey(d) := Event(resolved, kind, DoneFor(resolved))]
  {
    var o := d.payload;
    ArrivedIsApplied(db, d, kind, resolved);
    RoomIff(db, kind, o, resolved, tenant, d.newId, d.now, plan, found);
    WriteFollows(db, kind, o, resolved, tenant, d.newId, d.now, plan, found);
    RowIsSettled(db, StripeWrite(db, kind, o, resolved, d.newId, d.now).value.value, x);
  }

  // Without room the books stay and the event has failed.
  lemma SubscriptionEventWithoutRoom(db: Db, d: StripeDelivery, kind: Kind, resolved: Option<string>, tenant: string,
                                     plan: Plan, found: Option<Subscription>)
    requires Tables(db) && IsSubscriptionKind(kind) && Arrives(db, d, kind, resolved) && Given(d.payload.id)
    requires found == FindFirst(db.subscriptions, ByProviderId(Stripe, d.payload.id.value))
    requires WritesTo(found, resolved, tenant) && tenant in db.tenants
    requires IsFor(db, d.payload, found, plan) && !HasRoom(db, found, tenant, d.newId)
    ensures ProcessStripe(db, d).db == db.(events := db.events[StripeKey(d) := Event(resolved, kind, FAILED)])
  {
    ArrivedIsApplied(db, d, kind, resolved);
    RoomIff(db, kind, d.payload, resolved, tenant, d.newId, d.now, plan, found);
  }

  // Without an id, a tenant or a plan it changes nothing else and is done, or ignored for nobody.
  lemma SubscriptionEventOfNothing(db: Db, d: StripeDelivery, kind: Kind, resolved: Option<string>)
    requires IsSubscriptionKind(kind) && Arrives(db, d, kind, resolved)
    requires Given(d.payload.id) ==>
               var found := FindFirst(db.subscriptions, ByProviderId(Stripe, d.payload.id.value));
               (resolved.None? && found.None?) || forall plan :: !IsFor(db, d.payload, found, plan)
    ensures ProcessStripe(db, d).db
         == db.(events := db.events[StripeKey(d) := Event(resolved, kind, DoneFor(resolved))])
  {
    ArrivedIsApplied(db, d, kind, resolved);
    if Given(d.payload.id) {
      var found := FindFirst(db.subscriptions, ByProviderId(Stripe, d.payload.id.value));
      var plan := StripePlan(db, d.payload, found);
      assert plan.Some? ==> IsFor(db, d.payload, found, plan.value);
    }
  }

  // ---------- Invoice and payment events ----------

  // A row is taken for the object's when it is a Stripe row of the subscription the object names,
  // or of any when it names none; or when it is of the tenant and the customer, as far as they are
  // known.
  lemma RowsTakenForInvoice(o: StripeObject, tenant: Option<string>, emptyMatches: bool, s: Subscription)
    ensures s.provider == Stripe && (Given(o.subscription) ==> s.providerId == o.subscription) ==>
              InvoiceOwner(o, tenant, emptyMatches)(s)
    ensures (tenant.Some? || Given(o.customer) || emptyMatches) && (tenant.Some? ==> s.tenantId == tenant.value)
            && (Given(o.customer) ==> s.customerId == o.customer) ==>
              InvoiceOwner(o, tenant, emptyMatches)(s)
    ensures InvoiceOwner(o, tenant, emptyMatches)(s) ==>
              || (s.provider == Stripe && (Given(o.subscription) ==> s.providerId == o.subscription))
              || ((tenant.Some? || Given(o.customer) || emptyMatches) && (tenant.Some? ==> s.tenantId == tenant.value)
                  && (Given(o.customer) ==> s.customerId == o.customer))
  {
  }

  // The amount: what is due, else what was paid, else the total, else the subtotal.
  predicate Amounts(o: StripeObject, amount: int) {
    if o.amountDue.Some? then amount == o.amountDue.value
    else if o.amountPaid.Some? then amount == o.amountPaid.value
    else if o.total.Some? then amount == o.total.value
    else if o.subtotal.Some? then amount == o.subtotal.value
    else amount == 0
  }

  // The status: paid, failed or void by the type of the event, else the object's own, else open.
  predicate Billed(kind: Kind, wire: Option<WireStatus>, status: WireStatus) {
    && (kind.InvoicePaid? ==> status == Paid) && (kind.InvoiceFailed? ==> status == Failed)
    && (kind.InvoiceVoided? ==> status == Void)
    && (kind.InvoiceChanged? ==> if wire.Some? then status == wire.value else status == Open)
  }

  predicate IsInvoiceKind(kind: Kind) {
    kind.InvoicePaid? || kind.InvoiceFailed? || kind.InvoiceVoided? || kind.InvoiceChanged?
  }

  // What an invoice event makes of the invoice under the object's id.
  predicate Books(invoice: Invoice, before: Option<Invoice>, s: Subscription, kind: Kind, o: StripeObject, now: int) {
    && invoice.tenantId == s.tenantId && invoice.subscriptionId == s.id
    && Amounts(o, invoice.amount) && Billed(kind, o.status, invoice.status)
    && invoice.currency == P.NormalizeCurrency(if o.currency.Some? then o.currency.value else "USD")
    && (if before.Some?
        then invoice.periodStart == before.value.periodStart && invoice.periodEnd == before.value.periodEnd
        else invoice.periodStart == s.periodStart && invoice.periodEnd == s.periodEnd)
    && (if invoice.status == Paid then Timed(if o.paidAt.Some? then o.paidAt else o.created, Some(now), invoice.paidAt)
        else invoice.paidAt == if before.Some? then before.value.paidAt else None)
  }

  lemma InvoiceIsBooked(before: Option<Invoice>, s: Subscription, kind: Kind, o: StripeObject, now: int)
    requires IsInvoiceKind(kind)
    ensures Books(StripeInvoice(before, s, kind, o, now), before, s, kind, o, now)
  {
  }

  // A new invoice or payment event with an id books one invoice, field by field, to the first row
  // taken for it, and changes nothing else; without an id or a row it changes nothing.
  lemma InvoiceEventLeaves(db: Db, d: StripeDelivery, kind: Kind, resolved: Option<string>)
    requires IsInvoiceKind(kind) && Arrives(db, d, kind, resolved)
    ensures var end, o := ProcessStripe(db, d).db, d.payload;
            var s := FindFirst(db.subscriptions, InvoiceOwner(o, resolved, db.config.emptyFilterMatches));
            && end.subscriptions == db.subscriptions && end.tenants == db.tenants
            && end.events == db.events[StripeKey(d) :=
                 Event(resolved, kind, if Given(o.id) && s.Some? then PROCESSED else IGNORED)]
            && if Given(o.id) && s.Some? then
                 var key := Numbered(Stripe, o.id.value);
                 && key in end.invoices && end.invoices == db.invoices[key := end.invoices[key]]
                 && Books(end.invoices[key], InvoiceAt(db, key), s.value, kind, o, d.now)
               else end.invoices == db.invoices
  {
    ArrivedIsApplied(db, d, kind, resolved);
    var o := d.payload;
    var s := FindFirst(db.subscriptions, InvoiceOwner(o, resolved, db.config.emptyFilterMatches));
    if Given(o.id) && s.Some? {
      InvoiceIsBooked(InvoiceAt(db, Numbered(Stripe, o.id.value)), s.value, kind, o, d.now);
    }
  }

  // Any other type of event is only noted.
  lemma OtherEventIsNoted(db: Db, d: StripeDelivery, kind: Kind, resolved: Option<string>)
    requires Arrives(db, d, kind, resolved) && !IsInvoiceKind(kind) && !IsSubscriptionKind(kind)
    ensures ProcessStripe(db, d).db == db.(events := db.events[StripeKey(d) := Event(resolved, kind, IGNORED)])
  {
  }

  // ---------- Returns from checkout ----------

  // The plan of a session: by the id in its metadata, else in the subscription's, else by price.
  predicate SessionIsFor(db: Db, session: StripeSession, plan: Plan) {
    if Given(session.planId) then FindPlan(db, session.planId.value) == Some(plan)
    else if Given(session.subscription.metaPlanId)
    then FindPlan(db, session.subscription.metaPlanId.value) == Some(plan)
    else PlanByPrice(db, session.subscription.priceId) == Some(plan)
  }

  // What a complete session makes of the row of the user's tenant.
  predicate Concludes(s: Subscription, session: StripeSession, tenant: string, before: Option<Subscription>, plan: Plan,
                      newId: string, zone: int, now: int) {
    var o := session.subscription;
    && s.id == (if before.Some? then before.value.id else newId) && s.tenantId == tenant
    && Tells(false, if o.status.Some? then o.status else Some(Active), s.status) && SetBy(s, o, plan, zone, now)
    && Seated(o, if session.seatCount.Some? then session.seatCount.value else 1, s.seatCount)
    && (if Given(session.customer) then s.customerId == session.customer
        else Texted(o.customer, CustomerBefore(before), s.customerId))
    && Texted(session.providerId, if before.Some? then before.value.providerId else None, s.providerId)
    && Timed(o.trialEnd, TrialBefore(before), s.trialEndsAt)
  }

  lemma SessionRowConcludes(config: Config, base: Subscription, before: Option<Subscription>, tenant: string,
                            plan: Plan, session: StripeSession, newId: string, now: int)
    requires base == before.GetOr(Blank(newId, tenant)) && base.tenantId == tenant
    ensures Concludes(SessionRow(config, base, plan, session, now), session, tenant, before, plan, newId, config.zone,
                      now)
  {
    var o := session.subscription;
    var status := StatusOfStripe(o.status.OrElse(Some(Active)));
    StatusIsTold(OtherKind(""), o.status.OrElse(Some(Active)));
    RowIsSet(config, base, tenant, plan, status, StripeSeats(o).OrElse(session.seatCount).GetOr(1), o, now);
  }

  // The return of a complete session by a manager of its tenant leaves the tenant the row the
  // session tells, one paid invoice of the row's period, and no other row, status or invoice.
  lemma SessionReturnLeaves(db: Db, r: Request, id: string, session: StripeSession, plan: Plan, s: Subscription,
                            x: Subscription)
    requires Tables(db) && r.mayManage && id != "" && r.tenant in db.tenants && session.complete
    requires !(Given(session.tenantId) && session.tenantId != Some(r.tenant)) && SessionIsFor(db, session, plan)
    requires SubscriptionOf(db, r.tenant).Some? || !IdTaken(db.subscriptions, r.newId)
    requires s == SubscriptionOf(ConfirmStripe(db, r, Some(id), Some(session)).db, r.tenant).GetOr(Blank("", ""))
    ensures Concludes(s, session, r.tenant, SubscriptionOf(db, r.tenant), plan, r.newId, db.config.zone, r.now)
    ensures var reply := ConfirmStripe(db, r, Some(id), Some(session));
            var number := Numbered(Stripe,
                                   if Given(session.invoiceId) then session.invoiceId.value else "checkout:" + id);
            && reply.result == Ok(()) && SubscriptionOf(reply.db, r.tenant) == Some(s) && Mirrors(reply.db.tenants, s)
            && OtherStatusesStay(db, reply.db, r.tenant)
            && (x in reply.db.subscriptions <==> x == s || (x in db.subscriptions && x.id != s.id))
            && reply.db.invoices == db.invoices[number :=
                 Invoice(r.tenant, s.id, session.amount,
                         P.NormalizeCurrency(if session.currency.Some? then session.currency.value else "USD"), Paid,
                         s.periodStart, s.periodEnd, Some(r.now))]
  {
    var base := UpsertBase(db, r.tenant, r.newId).value;
    var row := SessionRow(db.config, base, plan, session, r.now);
    BaseIsFree(db, r.tenant, r.newId, base, row);
    SessionRowConcludes(db.config, base, SubscriptionOf(db, r.tenant), r.tenant, plan, session, r.newId, r.now);
    RowIsSettled(db, row, x);
    SessionIsApplied(db, r, id, session, plan, base);
  }

  lemma SessionIsApplied(db: Db, r: Request, id: string, session: StripeSession, plan: Plan, base: Subscription)
    requires r.mayManage && id != "" && r.tenant in db.tenants && session.complete
    requires !(Given(session.tenantId) && session.tenantId != Some(r.tenant)) && SessionIsFor(db, session, plan)
    requires UpsertBase(db, r.tenant, r.newId) == Ok(base)
    ensures ConfirmStripe(db, r, Some(id), Some(session))
         == Reply(Noted(SettleSession(db, base, plan, id, session, r.now), EventKey(Stripe, "checkout:" + id), r.tenant,
                        CheckoutConfirmed, PROCESSED), Ok(()))
  {
    assert SessionPlan(db, session) == Some(plan);
  }

  // An incomplete session is noted and no more; a return that is refused changes nothing.
  lemma SessionReturnIsRefusedIff(db: Db, r: Request, id: Option<string>, session: Option<StripeSession>)
    ensures var reply := ConfirmStripe(db, r, id, session);
            && (reply.result.Err? ==> reply.db == db)
            && (reply.result.Ok? <==>
                && r.mayManage && Given(id) && session.Some? && r.tenant in db.tenants
                && !(Given(session.value.tenantId) && session.value.tenantId != Some(r.tenant))
                && (session.value.complete ==>
                      && (exists plan :: SessionIsFor(db, session.value, plan))
                      && (SubscriptionOf(db, r.tenant).Some? || !IdTaken(db.subscriptions, r.newId))))
            && (reply.result.Ok? && !session.value.complete ==>
                  reply.db.subscriptions == db.subscriptions && reply.db.tenants == db.tenants
                  && reply.db.invoices == db.invoices)
  {
    if session.Some? {
      var plan := SessionPlan(db, session.value);
      assert plan.Some? ==> SessionIsFor(db, session.value, plan.value);
      assert plan.None? ==> forall p :: !SessionIsFor(db, session.value, p);
    }
  }
}
