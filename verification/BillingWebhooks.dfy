// Webhooks take effect at most once: over any run of billing steps, a repeated delivery of an
// event that has been recorded, however its first processing ended, changes nothing.
module BillingWebhooks {
  import opened Seqs
  import opened Billing
  import opened BillingCoupling
  import opened BillingReach
  import T = Tenants

  // ---------- Deliveries ----------

  predicate IsDelivery(step: Step) {
    step.StripeHook? || step.PaystackHook?
  }

  function KeyOf(step: Step): EventKey
    requires IsDelivery(step)
  {
    if step.StripeHook? then StripeKey(step.stripe) else PaystackKey(step.paystack)
  }

  // A delivery that leaves an event row, whatever the state it meets: its signature holds, it has
  // a type, and the tenant its metadata names, if any, exists.
  predicate Recordable(step: Step, tenants: set<string>) {
    match step
    case StripeHook(d) => d.signed && d.kind.Some?
    && (Given(d.payload.metaTenantId) ==> d.payload.metaTenantId.value in tenants)
    case PaystackHook(d) => d.signed && d.kind.Some?
    && (Given(d.payload.metaTenantId) ==> d.payload.metaTenantId.value in tenants)
    case _ => false
  }

  lemma TenantByIsReal(db: Db, p: Subscription -> bool)
    requires Tables(db)
    ensures TenantBy(db, p).Some? ==> TenantBy(db, p).value in db.tenants
  {
  }

  lemma ResolvedStripeTenant(db: Db, o: StripeObject)
    requires Tables(db)
    ensures var t := ResolveStripeTenant(db, o);
            if Given(o.metaTenantId) then t == o.metaTenantId else t.Some? ==> t.value in db.tenants
  {
    forall p: Subscription -> bool
      ensures TenantBy(db, p).Some? ==> TenantBy(db, p).value in db.tenants
    {
      TenantByIsReal(db, p);
    }
  }

  lemma ResolvedPaystackTenant(db: Db, o: PaystackObject)
    requires Tables(db)
    ensures var t := ResolvePaystackTenant(db, o);
            if Given(o.metaTenantId) then t == o.metaTenantId else t.Some? ==> t.value in db.tenants
  {
    forall p: Subscription -> bool
      ensures TenantBy(db, p).Some? ==> TenantBy(db, p).value in db.tenants
    {
      TenantByIsReal(db, p);
    }
  }

  // A repeat, even with another body or at another time, changes nothing.
  lemma RepeatChangesNothing(db: Db, step: Step)
    requires IsDelivery(step) && KeyOf(step) in db.events
    ensures After(db, step) == db
  {
  }

  // A delivery whose key is free claims it exactly when it is recordable, and is otherwise
  // refused without any effect.
  lemma ClaimsKeyIff(db: Db, step: Step)
    requires Tables(db) && IsDelivery(step) && KeyOf(step) !in db.events
    ensures KeyOf(step) in After(db, step).events <==> Recordable(step, db.tenants.Keys)
    ensures !Recordable(step, db.tenants.Keys) ==> After(db, step) == db
  {
    if step.StripeHook? {
      StripeClaims(db, step.stripe);
    } else {
      PaystackClaims(db, step.paystack);
    }
  }

  // An instance: a signed delivery whose metadata names a tenant that does not exist is refused
  // without a trace, so nothing marks a later delivery of it as a repeat.
  lemma UnknownTenantExample(now: int) returns (db: Db, d: PaystackDelivery)
    ensures Tables(db) && d.signed && d.kind.Some? && PaystackKey(d) !in db.events
    ensures ProcessPaystack(db, d).db == db
  {
    db := Db(map["a" := T.ACTIVE], [], map[], map[], [], Config(0, false));
    var o := NoPaystackObject().(reference := Some("r"), metaTenantId := Some("b"));
    d := PaystackDelivery(true, Some(SubscriptionNoted("subscription.create")), o, "", "", now);
    ClaimsKeyIff(db, PaystackHook(d));
  }

  lemma StripeClaims(db: Db, d: StripeDelivery)
    requires Tables(db) && StripeKey(d) !in db.events
    ensures StripeKey(d) in ProcessStripe(db, d).db.events <==> Recordable(StripeHook(d), db.tenants.Keys)
    ensures !Recordable(StripeHook(d), db.tenants.Keys) ==> ProcessStripe(db, d).db == db
  {
    ResolvedStripeTenant(db, d.payload);
  }

  lemma PaystackClaims(db: Db, d: PaystackDelivery)
    requires Tables(db) && PaystackKey(d) !in db.events
    ensures PaystackKey(d) in ProcessPaystack(db, d).db.events <==> Recordable(PaystackHook(d), db.tenants.Keys)
    ensures !Recordable(PaystackHook(d), db.tenants.Keys) ==> ProcessPaystack(db, d).db == db
  {
    ResolvedPaystackTenant(db, d.payload);
  }

  // ---------- Runs ----------

  // A run without the deliveries whose key is among seen or belongs to an earlier recordable one.
  function DropRepeats(steps: seq<Step>, tenants: set<string>, seen: set<EventKey>): seq<Step>
    decreases |steps|
  {
    if steps == [] then []
    else if IsDelivery(steps[0]) && KeyOf(steps[0]) in seen then DropRepeats(steps[1..], tenants, seen)
    else [steps[0]] + DropRepeats(steps[1..], tenants, if Recordable(steps[0], tenants) then seen + {KeyOf(steps[0])}
                                  else seen)
  }

  lemma {:induction false} DroppingChangesNothing(db: Db, steps: seq<Step>, seen: set<EventKey>)
    requires Tables(db) && seen <= db.events.Keys
    ensures Run(db, steps) == Run(db, DropRepeats(steps, db.tenants.Keys, seen))
    decreases |steps|
  {
    if steps != [] {
      var step, rest, tenants := steps[0], steps[1..], db.tenants.Keys;
      if IsDelivery(step) && KeyOf(step) in seen {
        RepeatChangesNothing(db, step);
        DroppingChangesNothing(db, rest, seen);
      } else {
        var next := if Recordable(step, tenants) then seen + {KeyOf(step)} else seen;
        StepKeepsTables(db, step);
        StepKeepsEvents(db, step);
        if Recordable(step, tenants) {
          Claimed(db, step);
        }
        DroppingChangesNothing(After(db, step), rest, next);
        RunCons(db, step, DropRepeats(rest, tenants, next));
      }
    }
  }

  lemma Claimed(db: Db, step: Step)
    requires Tables(db) && Recordable(step, db.tenants.Keys)
    ensures KeyOf(step) in After(db, step).events
  {
    if KeyOf(step) in db.events {
      RepeatChangesNothing(db, step);
    } else {
      ClaimsKeyIff(db, step);
    }
  }

  lemma RunCons(db: Db, step: Step, steps: seq<Step>)
    ensures Run(db, [step] + steps) == Run(After(db, step), steps)
  {
    assert ([step] + steps)[1..] == steps;
  }

  // At most once: a run of any steps ends as the run without the later deliveries of each
  // recorded event.
  lemma RepeatsChangeNothing(db: Db, steps: seq<Step>)
    requires Tables(db)
    ensures Run(db, steps) == Run(db, DropRepeats(steps, db.tenants.Keys, {}))
  {
    DroppingChangesNothing(db, steps, {});
  }

  // ---------- Events that count as repeats of others ----------

  // What a Paystack object is known by: the first of its reference, subscription code,
  // authorization code and text id.
  function Identity(o: PaystackObject): Option<string> {
    if Given(o.reference) then o.reference
    else if Given(o.subscriptionCode) then o.subscriptionCode
    else if Given(o.authorizationCode) then o.authorizationCode
    else if Given(o.id) then o.id
    else None
  }

  // Two deliveries of identified objects have one key exactly when the objects are known by the
  // same text, whatever the types of the two events.
  lemma ShareKeyIff(d: PaystackDelivery, e: PaystackDelivery)
    requires Identity(d.payload).Some? && Identity(e.payload).Some?
    ensures PaystackKey(d) == PaystackKey(e) <==> Identity(d.payload) == Identity(e.payload)
  {
  }

  // Two Stripe deliveries have one key exactly when they are known by one id: their event's, or the
  // random one made for an event without an id; and no Stripe key is a Paystack key.
  lemma ShareStripeKeyIff(d: StripeDelivery, e: StripeDelivery, f: PaystackDelivery)
    ensures StripeKey(d) == StripeKey(e) <==>
              (if Given(d.id) then d.id.value else d.uuid) == (if Given(e.id) then e.id.value else e.uuid)
    ensures StripeKey(d) != PaystackKey(f)
  {
  }

  // So the second of two deliveries of one object has no effect, also when it is of another type.
  lemma SecondOfAKeyIsIdle(db: Db, d: PaystackDelivery, e: PaystackDelivery)
    requires Tables(db) && Recordable(PaystackHook(d), db.tenants.Keys)
    requires Identity(d.payload).Some? && Identity(d.payload) == Identity(e.payload)
    ensures ProcessPaystack(ProcessPaystack(db, d).db, e).db == ProcessPaystack(db, d).db
  {
    ShareKeyIff(d, e);
    Claimed(db, PaystackHook(d));
    RepeatChangesNothing(ProcessPaystack(db, d).db, PaystackHook(e));
  }

  // An instance: after the creation of a subscription has been notified, the notification that it
  // was disabled is taken for a repeat, and the subscription stays active; alone it would have
  // cancelled it.
  lemma DisableAfterCreate(now: int) returns (db: Db, create: PaystackDelivery, disable: PaystackDelivery)
    ensures Coupled(db) && create.kind == Some(SubscriptionNoted("subscription.create"))
    ensures disable.kind == Some(SubscriptionStopped("subscription.disable")) && disable.payload == create.payload
    ensures var end := ProcessPaystack(ProcessPaystack(db, create).db, disable).db;
            SubscriptionOf(end, "a").Some? && SubscriptionOf(end, "a").value.status == ACTIVE
    ensures var end := ProcessPaystack(db, disable).db;
            SubscriptionOf(end, "a").Some? && SubscriptionOf(end, "a").value.status == CANCELLED
  {
    var s := Blank("s", "a").(status := ACTIVE, provider := Paystack, providerId := Some("code"));
    db := Db(map["a" := T.ACTIVE], [s], map[], map[], [], Config(0, false));
    var o := NoPaystackObject().(subscriptionCode := Some("code"));
    create := PaystackDelivery(true, Some(SubscriptionNoted("subscription.create")), o, "", "", now);
    disable := create.(kind := Some(SubscriptionStopped("subscription.disable")));
    SecondOfAKeyIsIdle(db, create, disable);
    NoticeEffect(db, s, create, SubscriptionNoted("subscription.create"));
    NoticeEffect(db, s, disable, SubscriptionStopped("subscription.disable"));
  }

  // A new notice about the only subscription of the table.
  lemma NoticeEffect(db: Db, s: Subscription, d: PaystackDelivery, kind: Kind)
    requires db.subscriptions == [s] && s.provider == Paystack && s.tenantId in db.tenants
    requires PaystackKey(d) !in db.events && d.signed
    requires d.kind == Some(kind) && (kind.SubscriptionStopped? || kind.SubscriptionNoted?)
    requires Given(d.payload.subscriptionCode) && s.providerId == d.payload.subscriptionCode
    requires d.payload.metaTenantId.None?
    ensures SubscriptionOf(ProcessPaystack(db, d).db, s.tenantId) == Some(Stopped(kind, s, d.now))
  {
    var code := d.payload.subscriptionCode.value;
    assert ByProviderId(Paystack, code)(s);
    assert FindFirst(db.subscriptions, ByProviderId(Paystack, code)) == Some(s);
    assert ResolvePaystackTenant(db, d.payload) == Some(s.tenantId);
    assert PaystackOwner(code, Some(s.tenantId), db.config.emptyFilterMatches)(s);
    assert FindFirst(db.subscriptions, PaystackOwner(code, Some(s.tenantId), db.config.emptyFilterMatches)) == Some(s);
    SettledRow(db.subscriptions, Stopped(kind, s, d.now));
  }

  // ---------- What a return notes ----------

  predicate SameEvent(db: Db, after: Db, key: EventKey) {
    (key in after.events <==> key in db.events) && (key in db.events ==> after.events[key] == db.events[key])
  }

  // A return that goes through leaves one event row under its reference, of the user's tenant, as
  // received while the charge is pending and as processed once it is applied, over whatever was
  // noted before; a refused one leaves the events alone, and no other row is touched.
  lemma PaystackReturnNotes(db: Db, r: Request, reference: string, charge: PaystackObject, key: EventKey)
    ensures var reply := ConfirmPaystack(db, r, Some(reference), Some(charge));
            if reply.result.Ok? && key == EventKey(Paystack, "verify:" + reference) then
              key in reply.db.events && reply.db.events[key].tenantId == Some(r.tenant)
              && reply.db.events[key].status == if charge.succeeded then PROCESSED else RECEIVED
            else SameEvent(db, reply.db, key)
  {
  }

  // The same of a return from Stripe.
  lemma StripeReturnNotes(db: Db, r: Request, sessionId: string, session: StripeSession, key: EventKey)
    ensures var reply := ConfirmStripe(db, r, Some(sessionId), Some(session));
            if reply.result.Ok? && key == EventKey(Stripe, "checkout:" + sessionId) then
              key in reply.db.events && reply.db.events[key].tenantId == Some(r.tenant)
              && reply.db.events[key].status == if session.complete then PROCESSED else RECEIVED
            else SameEvent(db, reply.db, key)
  {
  }
}
