// What Paystack leaves behind (src/billing/billing.service.ts): whose a delivery is, what a notice
// does to a subscription, and how a delivery and a return end.
module BillingPaystack {
  import opened Seqs
  import opened Billing
  import opened BillingCoupling
  import opened BillingRequests
  import opened BillingAmounts
  import C = BillingCharges
  import T = Tenants

  // The first text that is given, in the order of the arguments.
  function FirstGiven(a: Option<string>, b: Option<string>, c: Option<string>): Option<string> {
    if Given(a) then a else if Given(b) then b else if Given(c) then c else None
  }

  // Whose an object is: the tenant of its metadata; else of the row with its subscription code,
  // authorization code or reference; else of the first row of its customer.
  lemma WhoseObject(db: Db, o: PaystackObject)
    ensures var byCode := TenantByCode(db, Paystack, FirstGiven(o.subscriptionCode, o.authorizationCode, o.reference));
            var byCustomer := TenantByCustomer(db, Paystack, FirstGiven(o.customerCode, o.customerId, None));
            && (Given(o.metaTenantId) ==> ResolvePaystackTenant(db, o) == o.metaTenantId)
            && (!Given(o.metaTenantId) && byCode.Some? ==> ResolvePaystackTenant(db, o) == byCode)
            && (!Given(o.metaTenantId) && byCode.None? ==> ResolvePaystackTenant(db, o) == byCustomer)
  {
  }

  // A new signed delivery of an event, of nobody or of an existing tenant.
  predicate Arrives(db: Db, d: PaystackDelivery, kind: Kind, resolved: Option<string>) {
    && d.signed && d.kind == Some(kind) && PaystackKey(d) !in db.events
    && resolved == ResolvePaystackTenant(db, d.payload) && (resolved.Some? ==> resolved.value in db.tenants)
  }

  lemma ArrivedIsApplied(db: Db, d: PaystackDelivery, kind: Kind, resolved: Option<string>)
    requires Arrives(db, d, kind, resolved)
    ensures var applied := ApplyPaystack(db, kind, d.payload, resolved, d.newId, d.now);
            && ProcessPaystack(db, d).result == Ok(())
            && ProcessPaystack(db, d).db
               == applied.0.(events := applied.0.events[PaystackKey(d) := Event(resolved, kind, applied.1)])
  {
  }

  // A delivery is refused exactly without a signature, a type, or the tenant it names.
  lemma DeliveryIsRefusedIff(db: Db, d: PaystackDelivery)
    ensures var reply, tenant := ProcessPaystack(db, d), ResolvePaystackTenant(db, d.payload);
            && (reply.result.Err? <==>
                !d.signed || d.kind.None?
                || (PaystackKey(d) !in db.events && tenant.Some? && tenant.value !in db.tenants))
            && (reply.result.Err? || PaystackKey(d) in db.events ==> reply.db == db)
  {
  }

  // ---------- Notices about a subscription ----------

  predicate IsNotice(kind: Kind) {
    kind.SubscriptionStopped? || kind.SubscriptionNoted?
  }

  // A row is taken for the notice's when it is a Paystack row with its code or of its tenant.
  lemma RowsTakenForNotice(id: string, tenant: Option<string>, emptyMatches: bool, s: Subscription)
    ensures PaystackOwner(id, tenant, emptyMatches)(s) <==>
              s.provider == Paystack
              && (s.providerId == Some(id) || (tenant.Some? && s.tenantId == tenant.value)
                  || (tenant.None? && emptyMatches))
  {
  }

  // What a notice makes of a row: cancelled now when it was stopped, else active and no longer
  // cancelled; nothing else changes.
  predicate Noticed(before: Subscription, s: Subscription, kind: Kind, now: int) {
    if kind.SubscriptionStopped?
    then Switched(before, s, CANCELLED, before.cancelAtPeriodEnd, before.trialEndsAt, Some(now))
    else Switched(before, s, ACTIVE, before.cancelAtPeriodEnd, before.trialEndsAt, None)
  }

  // The code a notice is about.
  predicate IsAbout(o: PaystackObject, id: string) {
    FirstGiven(o.subscriptionCode, o.id, None) == Some(id)
  }

  lemma NoticeWrites(db: Db, kind: Kind, o: PaystackObject, resolved: Option<string>, newId: string, now: int,
                     id: string, before: Subscription, row: Subscription)
    requires IsNotice(kind) && IsAbout(o, id)
    requires FindFirst(db.subscriptions, PaystackOwner(id, resolved, db.config.emptyFilterMatches)) == Some(before)
    requires row == before.(status := if kind.SubscriptionStopped? then CANCELLED else ACTIVE,
                            canceledAt := if kind.SubscriptionStopped? then Some(now) else None)
    ensures ApplyPaystack(db, kind, o, resolved, newId, now) == (Settle(db, row), PROCESSED)
  {
  }

  // A new notice changes the first row taken for it, and its tenant's status with it, and nothing
  // else.
  lemma NoticeLeaves(db: Db, d: PaystackDelivery, kind: Kind, resolved: Option<string>, id: string,
                     before: Subscription, s: Subscription, x: Subscription)
    requires Keyed(db.subscriptions) && IsNotice(kind) && Arrives(db, d, kind, resolved) && IsAbout(d.payload, id)
    requires FindFirst(db.subscriptions, PaystackOwner(id, resolved, db.config.emptyFilterMatches)) == Some(before)
    requires s == SubscriptionOf(ProcessPaystack(db, d).db, before.tenantId).GetOr(Blank("", ""))
    ensures Noticed(before, s, kind, d.now)
    ensures var end := ProcessPaystack(db, d).db;
            && SubscriptionOf(end, before.tenantId) == Some(s) && Mirrors(end.tenants, s)
            && end.invoices == db.invoices && OtherStatusesStay(db, end, before.tenantId)
            && (x in end.subscriptions <==> x == s || (x in db.subscriptions && x.id != s.id))
            && end.events == db.events[PaystackKey(d) := Event(resolved, kind, PROCESSED)]
  {
    var row := before.(status := if kind.SubscriptionStopped? then CANCELLED else ACTIVE,
                       canceledAt := if kind.SubscriptionStopped? then Some(d.now) else None);
    ArrivedIsApplied(db, d, kind, resolved);
    NoticeWrites(db, kind, d.payload, resolved, d.newId, d.now, id, before, row);
    RewriteLeaves(db, before, row, x);
  }

  // A notice without a code or a row, and any other type of event, is only noted.
  lemma NothingToNotice(db: Db, d: PaystackDelivery, kind: Kind, resolved: Option<string>)
    requires Arrives(db, d, kind, resolved) && !kind.ChargeSuccess?
    requires IsNotice(kind) ==>
               forall id :: IsAbout(d.payload, id) ==>
                 FindFirst(db.subscriptions, PaystackOwner(id, resolved, db.config.emptyFilterMatches)).None?
    ensures ProcessPaystack(db, d).db == db.(events := db.events[PaystackKey(d) := Event(resolved, kind, IGNORED)])
  {
    ArrivedIsApplied(db, d, kind, resolved);
    var id := Str(d.payload.subscriptionCode).OrElse(Str(d.payload.id));
    assert id.Some? ==> IsAbout(d.payload, id.value);
  }

  // ---------- How a charge ends ----------

  // The event of a new charge is processed when it has a payee, has failed when only the row
  // could not be made, and is ignored otherwise.
  lemma ChargeEventEnds(db: Db, d: PaystackDelivery, resolved: Option<string>)
    requires Arrives(db, d, ChargeSuccess, resolved)
    ensures var end, payee := ProcessPaystack(db, d).db, C.Payee(db, PaystackHook(d), d.payload);
            && PaystackKey(d) in end.events && end.events[PaystackKey(d)].tenantId == resolved
            && end.events[PaystackKey(d)].status ==
               if payee.Some? then PROCESSED
               else if resolved.Some? && Chargeable(db, d.payload) then FAILED else IGNORED
  {
    ArrivedIsApplied(db, d, ChargeSuccess, resolved);
  }

  // A return goes through exactly for a manager with a reference whose transaction exists, names
  // no other tenant and, when it is paid, has a payee; otherwise nothing changes.
  lemma ReturnGoesThroughIff(db: Db, r: Request, reference: Option<string>, charge: Option<PaystackObject>)
    ensures var reply := ConfirmPaystack(db, r, reference, charge);
            && (reply.result.Ok? <==>
                && r.mayManage && Given(reference) && charge.Some? && r.tenant in db.tenants
                && !(Given(charge.value.metaTenantId) && charge.value.metaTenantId != Some(r.tenant))
                && (charge.value.succeeded ==>
                      Chargeable(db, charge.value)
                      && (SubscriptionOf(db, r.tenant).Some? || !IdTaken(db.subscriptions, r.newId))))
            && (reply.result.Err? ==> reply.db == db)
  {
  }
}
