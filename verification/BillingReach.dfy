// How far a step reaches (src/billing/billing.service.ts): whether the subscriptions, statuses and
// invoices a webhook changes are those of the tenant it resolves to, and those a request changes
// are those of the user's tenant.
module BillingReach {
  import opened Seqs
  import opened Billing
  import opened BillingCoupling
  import opened BillingIsolation
  import S = BillingStripe
  import P = Proration
  import T = Tenants

  ghost predicate SameInvoice(db: Db, after: Db, key: InvoiceKey, invoice: Invoice) {
    InvoiceAt(after, key) == Some(invoice) <==> InvoiceAt(db, key) == Some(invoice)
  }

  // Nothing has changed but for one tenant, or for none.
  ghost predicate KeepsTo(db: Db, after: Db, tenant: Option<string>) {
    && (forall x: Subscription :: Some(x.tenantId) != tenant ==> (x in after.subscriptions <==> x in db.subscriptions))
    && (forall u: string :: Some(u) != tenant ==> SameTenant(db.tenants, after.tenants, u))
    && (forall key: InvoiceKey, invoice: Invoice :: Some(invoice.tenantId) != tenant ==>
        SameInvoice(db, after, key, invoice))
  }

  lemma NothingKeepsTo(db: Db, after: Db, tenant: Option<string>)
    requires after.subscriptions == db.subscriptions && after.tenants == db.tenants && after.invoices == db.invoices
    ensures KeepsTo(db, after, tenant)
  {
  }

  // ---------- One row, one invoice ----------

  function RowWithId(db: Db, id: string): Option<Subscription> {
    FindFirst(db.subscriptions, WithId(id))
  }

  // Writing a row keeps to its tenant, if the row it replaces is the tenant's too.
  predicate RowWithin(db: Db, row: Subscription, tenant: Option<string>) {
    var found := RowWithId(db, row.id);
    Some(row.tenantId) == tenant && (found.Some? ==> Some(found.value.tenantId) == tenant)
  }

  lemma SettleWithin(db: Db, row: Subscription, tenant: Option<string>)
    requires Keyed(db.subscriptions) && RowWithin(db, row, tenant)
    ensures KeepsTo(db, Settle(db, row), tenant)
  {
    forall x: Subscription | Some(x.tenantId) != tenant
      ensures x in Settle(db, row).subscriptions <==> x in db.subscriptions
    {
      WrittenRows(db.subscriptions, row, x);
      if x in db.subscriptions && x.id == row.id {
        assert WithId(row.id)(x);
        KeyedRows(db.subscriptions, x, RowWithId(db, row.id).value);
      }
    }
  }

  // The row is stored, and its tenant's status is what billing makes of it.
  predicate IsSettled(db: Db, row: Subscription) {
    row in db.subscriptions && Mirrors(db.tenants, row)
  }

  lemma SettledIsIdle(db: Db, row: Subscription)
    requires Keyed(db.subscriptions) && IsSettled(db, row)
    ensures Settle(db, row) == db
  {
    RewritingIsIdle(db.subscriptions, row);
    assert db.tenants[row.tenantId := TenantStatusOf(row.status)] == db.tenants;
  }

  lemma SettleWithinIff(db: Db, row: Subscription, tenant: Option<string>)
    requires Keyed(db.subscriptions)
    ensures KeepsTo(db, Settle(db, row), tenant) <==> IsSettled(db, row) || RowWithin(db, row, tenant)
  {
    var after := Settle(db, row);
    if RowWithin(db, row, tenant) {
      SettleWithin(db, row, tenant);
    } else if IsSettled(db, row) {
      SettledIsIdle(db, row);
    } else {
      var found := RowWithId(db, row.id);
      WrittenRows(db.subscriptions, row, row);
      assert KeepsTo(db, after, tenant) && Some(row.tenantId) != tenant ==>
               SameTenant(db.tenants, after.tenants, row.tenantId);
      if found.Some? {
        WrittenRows(db.subscriptions, row, found.value);
      }
    }
  }

  predicate InvoiceWithin(db: Db, key: InvoiceKey, invoice: Invoice, tenant: Option<string>) {
    Some(invoice.tenantId) == tenant && (key in db.invoices ==> Some(db.invoices[key].tenantId) == tenant)
  }

  lemma BookWithinIff(db: Db, key: InvoiceKey, invoice: Invoice, tenant: Option<string>)
    ensures var after := db.(invoices := db.invoices[key := invoice]);
            KeepsTo(db, after, tenant)
            <==> InvoiceAt(db, key) == Some(invoice) || InvoiceWithin(db, key, invoice, tenant)
  {
    var after := db.(invoices := db.invoices[key := invoice]);
    if InvoiceAt(db, key) == Some(invoice) {
      assert after == db;
    } else if KeepsTo(db, after, tenant) {
      assert Some(invoice.tenantId) != tenant ==> SameInvoice(db, after, key, invoice);
      if key in db.invoices {
        assert Some(db.invoices[key].tenantId) != tenant ==> SameInvoice(db, after, key, db.invoices[key]);
      }
    }
  }

  // ---------- Stripe ----------

  // A subscription event stays with the tenant when it writes nothing, changes nothing, or the
  // row it finds by the object's id is the tenant's or missing.
  predicate SubscriptionWithin(db: Db, kind: Kind, o: StripeObject, tenant: Option<string>, newId: string, now: int) {
    match StripeWrite(db, kind, o, tenant, newId, now)
    case None => true
    case Some(Err(_)) => true
    case Some(Ok(row)) => TenantTaken(db.subscriptions, row) || IsSettled(db, row) || RowWithin(db, row, tenant)
  }

  lemma SubscriptionWithinIff(db: Db, kind: Kind, o: StripeObject, tenant: Option<string>, newId: string, now: int)
    requires Keyed(db.subscriptions)
    ensures KeepsTo(db, Left(db, ApplyStripeSubscription(db, kind, o, tenant, newId, now)), tenant)
       <==> SubscriptionWithin(db, kind, o, tenant, newId, now)
  {
    match StripeWrite(db, kind, o, tenant, newId, now)
    case None => NothingKeepsTo(db, db, tenant);
    case Some(Err(_)) => NothingKeepsTo(db, db, tenant);
    case Some(Ok(row)) =>
      NothingKeepsTo(db, db, tenant);
      SettleWithinIff(db, row, tenant);
  }

  // The row an event finds by the object's id, and when it is the resolved tenant's.
  lemma StripeRowIsWithinIff(db: Db, kind: Kind, o: StripeObject, tenant: string, newId: string, now: int,
                             row: Subscription)
    requires Keyed(db.subscriptions) && StripeWrite(db, kind, o, Some(tenant), newId, now) == Some(Ok(row))
    ensures var found := FindFirst(db.subscriptions, ByProviderId(Stripe, o.id.value));
            RowWithin(db, row, Some(tenant)) <==> found.None? || found.value.tenantId == tenant
  {
    var found := FindFirst(db.subscriptions, ByProviderId(Stripe, o.id.value));
    var byId := RowWithId(db, row.id);
    if found.Some? {
      assert WithId(row.id)(found.value);
      KeyedRows(db.subscriptions, found.value, byId.value);
    } else if byId.Some? {
      var base := UpsertBase(db, tenant, newId).value;
      assert SubscriptionOf(db, tenant).Some?;
      KeyedRows(db.subscriptions, base, byId.value);
    }
  }

  // An invoice or payment event books to the first row that the object's subscription, or the
  // tenant and the object's customer, select; it stays with the tenant when that row is the
  // tenant's, and the invoice under its number was, or when it changes nothing.
  predicate BookingWithin(db: Db, kind: Kind, o: StripeObject, tenant: Option<string>, now: int) {
    var owner := FindFirst(db.subscriptions, InvoiceOwner(o, tenant, db.config.emptyFilterMatches));
    Given(o.id) && owner.Some? ==>
      var key := Numbered(Stripe, o.id.value);
      var invoice := StripeInvoice(InvoiceAt(db, key), owner.value, kind, o, now);
      InvoiceAt(db, key) == Some(invoice) ||
      (Some(owner.value.tenantId) == tenant && (key in db.invoices ==> Some(db.invoices[key].tenantId) == tenant))
  }

  lemma BookingWithinIff(db: Db, kind: Kind, o: StripeObject, tenant: Option<string>, now: int)
    ensures KeepsTo(db, Left(db, ApplyStripeInvoice(db, kind, o, tenant, now)), tenant)
       <==> BookingWithin(db, kind, o, tenant, now)
  {
    var owner := FindFirst(db.subscriptions, InvoiceOwner(o, tenant, db.config.emptyFilterMatches));
    NothingKeepsTo(db, db, tenant);
    if Given(o.id) && owner.Some? {
      var key := Numbered(Stripe, o.id.value);
      BookWithinIff(db, key, StripeInvoice(InvoiceAt(db, key), owner.value, kind, o, now), tenant);
    }
  }

  // The invoice carries the tenant and the subscription of the row it is booked to, whoever the
  // event is for, and no other invoice changes.
  lemma InvoiceGoesToOwner(db: Db, kind: Kind, o: StripeObject, tenant: Option<string>, now: int, after: Db,
                           key: InvoiceKey)
    requires ApplyStripeInvoice(db, kind, o, tenant, now) == Done(after) && key in after.invoices
    ensures if key == Numbered(Stripe, o.id.value) then
              exists s :: s in db.subscriptions && InvoiceOwner(o, tenant, db.config.emptyFilterMatches)(s)
                && after.invoices[key].tenantId == s.tenantId && after.invoices[key].subscriptionId == s.id
            else key in db.invoices && after.invoices[key] == db.invoices[key]
    ensures after.subscriptions == db.subscriptions && after.tenants == db.tenants
    ensures db.invoices.Keys <= after.invoices.Keys
  {
    assert key == Numbered(Stripe, o.id.value) ==>
      var s := FindFirst(db.subscriptions, InvoiceOwner(o, tenant, db.config.emptyFilterMatches)).value;
      s in db.subscriptions && after.invoices[key].tenantId == s.tenantId;
  }

  // An object that names a stored subscription, and no tenant, is booked to that subscription's
  // tenant.
  lemma NamedSubscriptionIsOwn(db: Db, o: StripeObject, s: Subscription)
    requires Given(o.subscription) && !Given(o.metaTenantId)
    requires FindFirst(db.subscriptions, ByProviderId(Stripe, o.subscription.value)) == Some(s)
    ensures ResolveStripeTenant(db, o) == Some(s.tenantId)
    ensures var owner := FindFirst(db.subscriptions, InvoiceOwner(o, Some(s.tenantId), db.config.emptyFilterMatches));
            owner.Some? && owner.value.tenantId == s.tenantId
  {
    var p := ByProviderId(Stripe, o.subscription.value);
    var q := InvoiceOwner(o, Some(s.tenantId), db.config.emptyFilterMatches);
    var i, j := IndexOf(db.subscriptions, p), IndexOf(db.subscriptions, q);
    assert q(db.subscriptions[i]);
    assert j <= i;
    assert j < i ==> !p(db.subscriptions[j]);
  }

  predicate StripeWithin(db: Db, d: StripeDelivery, kind: Kind, tenant: Option<string>) {
    if kind.SubscriptionDeleted? || kind.SubscriptionChanged?
      then SubscriptionWithin(db, kind, d.payload, tenant, d.newId, d.now)
    else if kind.InvoicePaid? || kind.InvoiceFailed? || kind.InvoiceVoided? || kind.InvoiceChanged? then
      BookingWithin(db, kind, d.payload, tenant, d.now)
    else true
  }

  lemma ApplyStripeWithinIff(db: Db, d: StripeDelivery, kind: Kind, tenant: Option<string>)
    requires Keyed(db.subscriptions)
    ensures KeepsTo(db, ApplyStripe(db, kind, d.payload, tenant, d.newId, d.now).0, tenant)
       <==> StripeWithin(db, d, kind, tenant)
  {
    if kind.SubscriptionDeleted? || kind.SubscriptionChanged? {
      SubscriptionWithinIff(db, kind, d.payload, tenant, d.newId, d.now);
    } else if kind.InvoicePaid? || kind.InvoiceFailed? || kind.InvoiceVoided? || kind.InvoiceChanged? {
      BookingWithinIff(db, kind, d.payload, tenant, d.now);
    } else {
      NothingKeepsTo(db, db, tenant);
    }
  }

  lemma EventsDoNotCount(db: Db, after: Db, other: Db, tenant: Option<string>)
    requires other.subscriptions == after.subscriptions && other.tenants == after.tenants
    requires other.invoices == after.invoices
    ensures KeepsTo(db, other, tenant) <==> KeepsTo(db, after, tenant)
  {
    if KeepsTo(db, after, tenant) {
      OneWay(db, after, other, tenant);
    }
    if KeepsTo(db, other, tenant) {
      OneWay(db, other, after, tenant);
    }
  }

  lemma OneWay(db: Db, after: Db, other: Db, tenant: Option<string>)
    requires other.subscriptions == after.subscriptions && other.tenants == after.tenants
    requires other.invoices == after.invoices
    requires KeepsTo(db, after, tenant)
    ensures KeepsTo(db, other, tenant)
  {
    forall key: InvoiceKey, invoice: Invoice | Some(invoice.tenantId) != tenant
      ensures SameInvoice(db, other, key, invoice)
    {
      assert SameInvoice(db, after, key, invoice);
    }
  }

  // The guards before an event is applied.
  predicate StripeRefused(db: Db, d: StripeDelivery) {
    var tenant := ResolveStripeTenant(db, d.payload);
    !d.signed || d.kind.None? || StripeKey(d) in db.events || (tenant.Some? && tenant.value !in db.tenants)
  }

  // A Stripe delivery changes subscriptions, statuses and invoices of no tenant but the one it
  // resolves to exactly when it is refused or repeated, or what it finds is that tenant's.
  lemma StripeKeepsToIff(db: Db, d: StripeDelivery)
    requires Keyed(db.subscriptions)
    ensures var tenant := ResolveStripeTenant(db, d.payload);
            KeepsTo(db, ProcessStripe(db, d).db, tenant)
            <==> StripeRefused(db, d) || StripeWithin(db, d, d.kind.value, tenant)
  {
    var tenant, after := ResolveStripeTenant(db, d.payload), ProcessStripe(db, d).db;
    if StripeRefused(db, d) {
      NothingKeepsTo(db, db, tenant);
    } else {
      ApplyStripeWithinIff(db, d, d.kind.value, tenant);
      EventsDoNotCount(db, ApplyStripe(db, d.kind.value, d.payload, tenant, d.newId, d.now).0, after, tenant);
    }
  }

  // ---------- Paystack ----------

  // A charge only writes its own tenant's row; its invoice may have been another tenant's.
  predicate ChargeWithin(db: Db, o: PaystackObject, tenant: Option<string>, newId: string) {
    tenant.Some? && Chargeable(db, o) && UpsertBase(db, tenant.value, newId).Ok? ==>
      var key := Numbered(Paystack, ChargeNumber(o).value);
      key in db.invoices ==> Some(db.invoices[key].tenantId) == tenant
  }

  lemma BookedRowWithinIff(db: Db, row: Subscription, key: InvoiceKey, invoice: Invoice, tenant: string)
    requires Keyed(db.subscriptions) && RowWithin(db, row, Some(tenant)) && invoice.tenantId == tenant
    ensures KeepsTo(db, Settle(db.(invoices := db.invoices[key := invoice]), row), Some(tenant))
       <==> (key in db.invoices ==> db.invoices[key].tenantId == tenant)
  {
    var after := Settle(db.(invoices := db.invoices[key := invoice]), row);
    SettleWithin(db, row, Some(tenant));
    assert after.subscriptions == Settle(db, row).subscriptions && after.tenants == Settle(db, row).tenants;
    if key in db.invoices && db.invoices[key].tenantId != tenant {
      assert !SameInvoice(db, after, key, db.invoices[key]);
    }
  }

  lemma ChargedRowIsWithin(db: Db, tenant: string, newId: string, base: Subscription, row: Subscription)
    requires Keyed(db.subscriptions) && UpsertBase(db, tenant, newId) == Ok(base) && row.id == base.id
    requires row.tenantId == base.tenantId
    ensures RowWithin(db, row, Some(tenant))
  {
    BaseIsFree(db, tenant, newId, base, row);
    var found := RowWithId(db, row.id);
    if found.Some? && SubscriptionOf(db, tenant).Some? {
      KeyedRows(db.subscriptions, base, found.value);
    }
  }

  lemma ChargeWithinIff(db: Db, o: PaystackObject, tenant: Option<string>, newId: string, now: int)
    requires Keyed(db.subscriptions) && tenant == ResolvePaystackTenant(db, o)
    ensures KeepsTo(db, Left(db, ApplyCharge(db, o, tenant, newId, now)), tenant)
       <==> ChargeWithin(db, o, tenant, newId)
  {
    NothingKeepsTo(db, db, tenant);
    if tenant.Some? && Chargeable(db, o) && UpsertBase(db, tenant.value, newId).Ok? {
      var base, key := UpsertBase(db, tenant.value, newId).value, Numbered(Paystack, ChargeNumber(o).value);
      var row := ChargedRow(db.config, base, PaystackPlan(db, o).value, o, now);
      BaseIsFree(db, tenant.value, newId, base, row);
      ChargedRowIsWithin(db, tenant.value, newId, base, row);
      BookedRowWithinIff(db, row, key, ChargeInvoice(row, o, now), tenant.value);
    }
  }

  // A subscription event acts on the first row its id or its tenant selects.
  function Stopped(kind: Kind, s: Subscription, now: int): Subscription {
    if kind.SubscriptionStopped? then s.(status := CANCELLED, canceledAt := Some(now))
      else s.(status := ACTIVE, canceledAt := None)
  }

  predicate NoticeWithin(db: Db, kind: Kind, o: PaystackObject, tenant: Option<string>, now: int) {
    var id := Str(o.subscriptionCode).OrElse(Str(o.id));
    id.Some? ==>
      var found := FindFirst(db.subscriptions, PaystackOwner(id.value, tenant, db.config.emptyFilterMatches));
      found.Some? ==> Some(found.value.tenantId) == tenant || IsSettled(db, Stopped(kind, found.value, now))
  }

  lemma NoticeWithinIff(db: Db, kind: Kind, o: PaystackObject, tenant: Option<string>, now: int)
    requires Keyed(db.subscriptions)
    ensures KeepsTo(db, Left(db, ApplyPaystackSubscription(db, kind, o, tenant, now)), tenant)
       <==> NoticeWithin(db, kind, o, tenant, now)
  {
    NothingKeepsTo(db, db, tenant);
    var id := Str(o.subscriptionCode).OrElse(Str(o.id));
    if id.Some? {
      var found := FindFirst(db.subscriptions, PaystackOwner(id.value, tenant, db.config.emptyFilterMatches));
      if found.Some? {
        SettleWithinIff(db, Stopped(kind, found.value, now), tenant);
        assert WithId(found.value.id)(found.value);
        KeyedRows(db.subscriptions, found.value, RowWithId(db, found.value.id).value);
      }
    }
  }

  predicate PaystackWithin(db: Db, d: PaystackDelivery, kind: Kind, tenant: Option<string>) {
    if kind.ChargeSuccess? then ChargeWithin(db, d.payload, tenant, d.newId)
    else if kind.SubscriptionStopped? || kind.SubscriptionNoted? then NoticeWithin(db, kind, d.payload, tenant, d.now)
    else true
  }

  predicate PaystackRefused(db: Db, d: PaystackDelivery) {
    var tenant := ResolvePaystackTenant(db, d.payload);
    !d.signed || d.kind.None? || PaystackKey(d) in db.events || (tenant.Some? && tenant.value !in db.tenants)
  }

  lemma ApplyPaystackWithinIff(db: Db, d: PaystackDelivery, kind: Kind, tenant: Option<string>)
    requires Keyed(db.subscriptions) && tenant == ResolvePaystackTenant(db, d.payload)
    ensures KeepsTo(db, ApplyPaystack(db, kind, d.payload, tenant, d.newId, d.now).0, tenant)
       <==> PaystackWithin(db, d, kind, tenant)
  {
    NothingKeepsTo(db, db, tenant);
    if kind.ChargeSuccess? {
      ChargeWithinIff(db, d.payload, tenant, d.newId, d.now);
    } else {
      NoticeWithinIff(db, kind, d.payload, tenant, d.now);
    }
  }

  // The same of a Paystack delivery.
  lemma PaystackKeepsToIff(db: Db, d: PaystackDelivery)
    requires Keyed(db.subscriptions)
    ensures var tenant := ResolvePaystackTenant(db, d.payload);
            KeepsTo(db, ProcessPaystack(db, d).db, tenant)
            <==> PaystackRefused(db, d) || PaystackWithin(db, d, d.kind.value, tenant)
  {
    var tenant, after := ResolvePaystackTenant(db, d.payload), ProcessPaystack(db, d).db;
    if PaystackRefused(db, d) {
      NothingKeepsTo(db, db, tenant);
    } else {
      ApplyPaystackWithinIff(db, d, d.kind.value, tenant);
      EventsDoNotCount(db, ApplyPaystack(db, d.kind.value, d.payload, tenant, d.newId, d.now).0, after, tenant);
    }
  }

  // ---------- Requests ----------

  // A complete Stripe checkout that comes back and can be given its plan and its row.
  predicate SessionLands(db: Db, r: Request, id: Option<string>, session: Option<StripeSession>) {
    && CheckReturn(db, r, id, session, if session.Some? then session.value.tenantId else None).Ok?
    && session.value.complete && SessionPlan(db, session.value).Some? && UpsertBase(db, r.tenant, r.newId).Ok?
  }

  // A successful Paystack charge that comes back, is due a place and can be given a row.
  predicate ChargeLands(db: Db, r: Request, reference: Option<string>, charge: Option<PaystackObject>) {
    && CheckReturn(db, r, reference, charge, if charge.Some? then charge.value.metaTenantId else None).Ok?
    && charge.value.succeeded && Chargeable(db, charge.value) && UpsertBase(db, r.tenant, r.newId).Ok?
  }

  // The invoice number under which a return books what was paid.
  function ReturnNumber(db: Db, r: Request, op: Op): Option<InvoiceKey> {
    match op
    case ReturnFromStripe(id, session) =>
      if SessionLands(db, r, id, session)
      then Some(Numbered(Stripe, Str(session.value.invoiceId).GetOr("checkout:" + id.value)))
      else None
    case ReturnFromPaystack(reference, charge) =>
      if ChargeLands(db, r, reference, charge) then Some(Numbered(Paystack, ChargeNumber(charge.value).value)) else None
    case _ => None
  }

  ghost predicate Books(db: Db, after: Db, key: InvoiceKey, tenant: string) {
    key in after.invoices && after.invoices[key].tenantId == tenant
    && after.invoices == db.invoices[key := after.invoices[key]]
  }

  // At most one invoice is booked, to the user's tenant and under a number that was free.
  ghost predicate BooksAfresh(db: Db, after: Db, tenant: string) {
    after.invoices == db.invoices || exists key :: key !in db.invoices && Books(db, after, key, tenant)
  }

  lemma MoveBooksAfresh(db: Db, s: Subscription, plan: Plan, due: int, now: int)
    ensures BooksAfresh(db, MovePlan(db, s, plan, due, now).db, s.tenantId)
  {
    var after := MovePlan(db, s, plan, due, now).db;
    if after.invoices != db.invoices {
      assert Books(db, after, Adjustment(s.id, now), s.tenantId);
    }
  }

  lemma ChangeBooksAfresh(db: Db, r: Request, id: string, planId: string, timing: ChangeTiming, behavior: P.Behavior)
    ensures BooksAfresh(db, ChangePlan(db, r, id, planId, timing, behavior).db, r.tenant)
  {
    var found, plan := OwnSubscription(db, r.tenant, id), FindPlan(db, planId);
    if ChangePlan(db, r, id, planId, timing, behavior).db != db {
      var current := FindPlan(db, found.value.planId);
      MoveBooksAfresh(db, found.value, plan.value, Due(found.value, current.value, plan.value, behavior, r.now), r.now);
    }
  }

  lemma ReturnBooks(db: Db, r: Request, op: Op)
    requires Keyed(db.subscriptions) && (op.ReturnFromStripe? || op.ReturnFromPaystack?)
    ensures var after, number := Answer(db, r, op).db, ReturnNumber(db, r, op);
            && (number.Some? ==> Answer(db, r, op).result.Ok? && Books(db, after, number.value, r.tenant))
            && (number.None? ==> after.invoices == db.invoices)
  {
    match op
    case ReturnFromStripe(id, session) => SessionBooks(db, r, id, session);
    case ReturnFromPaystack(reference, charge) => ChargeBooks(db, r, reference, charge);
  }

  lemma SessionBooks(db: Db, r: Request, id: Option<string>, session: Option<StripeSession>)
    requires Keyed(db.subscriptions)
    ensures var reply, number := ConfirmStripe(db, r, id, session), ReturnNumber(db, r, ReturnFromStripe(id, session));
            && (number.Some? ==> reply.result.Ok? && Books(db, reply.db, number.value, r.tenant))
            && (number.None? ==> reply.db.invoices == db.invoices)
  {
    if SessionLands(db, r, id, session) {
      StripeReturnBooks(db, r, id.value, session.value);
    }
  }

  lemma ChargeBooks(db: Db, r: Request, reference: Option<string>, charge: Option<PaystackObject>)
    requires Keyed(db.subscriptions)
    ensures var reply := ConfirmPaystack(db, r, reference, charge);
            if ChargeLands(db, r, reference, charge)
            then reply.result.Ok? && Books(db, reply.db, Numbered(Paystack, ChargeNumber(charge.value).value), r.tenant)
            else reply.db.invoices == db.invoices
  {
    if ChargeLands(db, r, reference, charge) {
      PaystackReturnBooks(db, r, reference.value, charge.value);
    }
  }

  lemma OthersBookNothing(db: Db, r: Request, op: Op)
    requires !op.Change? && !op.ReturnFromStripe? && !op.ReturnFromPaystack?
    ensures Answer(db, r, op).db.invoices == db.invoices
  {
  }

  lemma StripeReturnBooks(db: Db, r: Request, id: string, session: StripeSession)
    requires Keyed(db.subscriptions) && session.complete && ApplySession(db, r, id, session).result.Ok?
    ensures Books(db, ApplySession(db, r, id, session).db,
                  Numbered(Stripe, Str(session.invoiceId).GetOr("checkout:" + id)), r.tenant)
  {
    var base := UpsertBase(db, r.tenant, r.newId).value;
    BaseIsFree(db, r.tenant, r.newId, base, base);
  }

  lemma PaystackReturnBooks(db: Db, r: Request, id: string, charge: PaystackObject)
    requires Keyed(db.subscriptions) && charge.succeeded && ApplyReturnedCharge(db, r, id, charge).result.Ok?
    ensures Chargeable(db, charge)
    ensures Books(db, ApplyReturnedCharge(db, r, id, charge).db, Numbered(Paystack, ChargeNumber(charge).value),
                  r.tenant)
  {
    var base := UpsertBase(db, r.tenant, r.newId).value;
    BaseIsFree(db, r.tenant, r.newId, base, base);
  }

  // A request changes subscriptions, statuses and invoices of no tenant but the user's exactly
  // when it is no return that books under a number another tenant's invoice has.
  lemma RequestKeepsToIff(db: Db, r: Request, op: Op)
    requires Tables(db) && "" !in db.tenants
    ensures KeepsTo(db, Answer(db, r, op).db, Some(r.tenant))
       <==> var number := ReturnNumber(db, r, op);
            number.Some? && number.value in db.invoices ==> db.invoices[number.value].tenantId == r.tenant
  {
    var after, number := Answer(db, r, op).db, ReturnNumber(db, r, op);
    RequestStaysInTenant(db, r, op);
    if op.Change? {
      ChangeBooksAfresh(db, r, op.id, op.planId, op.timing, op.behavior);
    } else if op.ReturnFromStripe? || op.ReturnFromPaystack? {
      ReturnBooks(db, r, op);
    } else {
      OthersBookNothing(db, r, op);
    }
    if number.Some? {
      BooksWithinIff(db, after, number.value, r.tenant);
    } else if after.invoices != db.invoices {
      var key :| key !in db.invoices && Books(db, after, key, r.tenant);
      BooksWithinIff(db, after, key, r.tenant);
    }
  }

  lemma BooksWithinIff(db: Db, after: Db, key: InvoiceKey, tenant: string)
    requires StaysIn(db, after, tenant) && Books(db, after, key, tenant)
    ensures KeepsTo(db, after, Some(tenant)) <==> (key in db.invoices ==> db.invoices[key].tenantId == tenant)
  {
    if key in db.invoices && db.invoices[key].tenantId != tenant {
      OverwritingReaches(db, after, key, tenant);
    }
  }

  // ---------- Instances ----------

  function NoStripeObject(): StripeObject {
    StripeObject(None, None, None, None, None, None, None, None, None, None, None, None, None, None, None,
                 None, None, None, None, None, None, None)
  }

  function NoPaystackObject(): PaystackObject {
    PaystackObject(None, None, false, None, None, None, None, None, None, None, None, None, None, None, None, None,
                   None)
  }

  // A payment event for tenant b that names no subscription and no customer is booked to the
  // first Stripe subscription of the table, which is tenant a's.
  lemma PaymentOfAnotherTenant(now: int) returns (db: Db, d: StripeDelivery)
    ensures Coupled(db) && ResolveStripeTenant(db, d.payload) == Some("b")
    ensures var end, key := ProcessStripe(db, d).db, Numbered(Stripe, "pi");
            key in end.invoices && end.invoices[key].tenantId == "a" && !KeepsTo(db, end, Some("b"))
  {
    var s := Blank("s", "a").(status := ACTIVE, provider := Stripe, providerId := Some("sub"));
    db := Db(map["a" := T.ACTIVE, "b" := T.TRIAL], [s], map[], map[], [], Config(0, false));
    var o := NoStripeObject().(id := Some("pi"), metaTenantId := Some("b"));
    d := StripeDelivery(true, Some("evt"), Some(InvoiceChanged("payment_intent.succeeded")), o, "", "", now);
    assert InvoiceOwner(o, Some("b"), false)(s);
    assert FindFirst(db.subscriptions, InvoiceOwner(o, Some("b"), false)) == Some(s);
    S.InvoiceEventLeaves(db, d, d.kind.value, Some("b"));
    assert !SameInvoice(db, ProcessStripe(db, d).db, Numbered(Stripe, "pi"),
                        ProcessStripe(db, d).db.invoices[Numbered(Stripe, "pi")]);
  }

  // Where an empty filter matches every row, the end of a subscription nobody knows cancels the
  // first Paystack subscription of the table and its tenant.
  lemma StopOfUnknownSubscription(now: int) returns (db: Db, d: PaystackDelivery)
    ensures Coupled(db) && ResolvePaystackTenant(db, d.payload) == None
    ensures var end := ProcessPaystack(db, d).db;
            SubscriptionOf(end, "a").Some? && SubscriptionOf(end, "a").value.status == CANCELLED
            && "a" in end.tenants && end.tenants["a"] == T.CANCELLED && !KeepsTo(db, end, None)
  {
    var s := Blank("s", "a").(status := ACTIVE, provider := Paystack, providerId := Some("code"));
    db := Db(map["a" := T.ACTIVE], [s], map[], map[], [], Config(0, true));
    var o := NoPaystackObject().(id := Some("unknown"));
    d := PaystackDelivery(true, Some(SubscriptionStopped("subscription.disable")), o, "", "", now);
    assert PaystackOwner("unknown", None, true)(s);
    assert FindFirst(db.subscriptions, PaystackOwner("unknown", None, true)) == Some(s);
    var stopped := Stopped(SubscriptionStopped("subscription.disable"), s, now);
    assert ProcessPaystack(db, d).db.subscriptions == Written(db.subscriptions, stopped);
    assert Keyed(db.subscriptions) && !TenantTaken(db.subscriptions, stopped);
    SettledRow(db.subscriptions, stopped);
    PaystackKeepsToIff(db, d);
  }

  // A return that brings a charge whose metadata names nobody books it to the returning tenant,
  // over the invoice another tenant has for it.
  lemma ReturnOfAnothersCharge(now: int) returns (db: Db, r: Request, op: Op)
    ensures Coupled(db) && r.tenant == "b" && Answer(db, r, op).result.Ok?
    ensures var key := Numbered(Paystack, "r");
            && key in db.invoices && db.invoices[key].tenantId == "a"
            && key in Answer(db, r, op).db.invoices && Answer(db, r, op).db.invoices[key].tenantId == "b"
    ensures !KeepsTo(db, Answer(db, r, op).db, Some("b"))
  {
    var plan := Plan("p", 1.0, "NGN", "month", true, false, None, None);
    var key := Numbered(Paystack, "r");
    var booked := Invoice("a", "s", 100, "NGN", WireStatus.Paid, None, None, None);
    db := Db(map["a" := T.TRIAL, "b" := T.TRIAL], [], map[key := booked], map[], [plan], Config(0, false));
    var o := NoPaystackObject().(reference := Some("r"), succeeded := true, amount := Some(100),
    currency := Some("NGN"), metaPlanId := Some("p"), expectedAmount := Some(100), expectedCurrency := Some("NGN"));
    r := Request("b", true, "t", now);
    op := ReturnFromPaystack(Some("r"), Some(o));
    assert PlanWithId("p")(plan) && PaystackPlan(db, o) == Some(plan);
    assert Chargeable(db, o) && ChargeNumber(o) == Some("r");
    ReturnIsAccepted(db, r, "r", o);
    ReturnOverwrites(db, r, op, key);
  }

  lemma ReturnOverwrites(db: Db, r: Request, op: Op, key: InvoiceKey)
    requires Keyed(db.subscriptions) && ReturnNumber(db, r, op) == Some(key)
    requires key in db.invoices && db.invoices[key].tenantId != r.tenant
    ensures Answer(db, r, op).result.Ok? && Books(db, Answer(db, r, op).db, key, r.tenant)
    ensures !KeepsTo(db, Answer(db, r, op).db, Some(r.tenant))
  {
    ReturnBooks(db, r, op);
    OverwritingReaches(db, Answer(db, r, op).db, key, r.tenant);
  }

  lemma ReturnIsAccepted(db: Db, r: Request, reference: string, o: PaystackObject)
    requires r.mayManage && r.tenant in db.tenants && Given(Some(reference)) && !Given(o.metaTenantId)
    requires o.succeeded && Chargeable(db, o) && UpsertBase(db, r.tenant, r.newId).Ok?
    ensures ReturnNumber(db, r, ReturnFromPaystack(Some(reference), Some(o)))
            == Some(Numbered(Paystack, ChargeNumber(o).value))
  {
    assert ConfirmPaystack(db, r, Some(reference), Some(o)) == ApplyReturnedCharge(db, r, reference, o);
  }

  lemma OverwritingReaches(db: Db, after: Db, key: InvoiceKey, tenant: string)
    requires Books(db, after, key, tenant) && key in db.invoices && db.invoices[key].tenantId != tenant
    ensures !KeepsTo(db, after, Some(tenant))
  {
    assert !SameInvoice(db, after, key, db.invoices[key]);
  }
}
