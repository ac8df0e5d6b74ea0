// What a request of the billing service leaves (src/billing/billing.service.ts): when it is accepted,
// and the subscription it leaves, field by field.
module BillingRequests {
  import opened Seqs
  import opened Calendar
  import opened Billing
  import opened BillingCoupling
  import P = Proration
  import T = Tenants

  // ---------- Lookups ----------

  // Each lookup finds a row with the fields it asks for, and misses only when there is none.
  lemma RowsAreFound(db: Db, provider: Provider, text: string, tenant: string)
    ensures var found := FindFirst(db.subscriptions, ByProviderId(provider, text));
            if found.Some? then found.value in db.subscriptions && found.value.provider == provider
                              && found.value.providerId == Some(text)
            else forall s :: s in db.subscriptions ==> s.provider != provider || s.providerId != Some(text)
    ensures var found := FindFirst(db.subscriptions, ByCustomer(provider, text));
            if found.Some? then found.value in db.subscriptions && found.value.provider == provider
                              && found.value.customerId == Some(text)
            else forall s :: s in db.subscriptions ==> s.provider != provider || s.customerId != Some(text)
    ensures var found := SubscriptionOf(db, tenant);
            if found.Some? then found.value in db.subscriptions && found.value.tenantId == tenant
            else forall s :: s in db.subscriptions ==> s.tenantId != tenant
    ensures var found := OwnSubscription(db, tenant, text);
            if found.Some? then found.value in db.subscriptions && found.value.tenantId == tenant
                              && found.value.id == text
            else forall s :: s in db.subscriptions ==> s.tenantId != tenant || s.id != text
    ensures IdTaken(db.subscriptions, text) <==> exists s :: s in db.subscriptions && s.id == text
  {
    assert forall s :: ByProviderId(provider, text)(s) <==> s.provider == provider && s.providerId == Some(text);
    assert forall s :: ByCustomer(provider, text)(s) <==> s.provider == provider && s.customerId == Some(text);
    assert forall s :: OfTenant(tenant)(s) <==> s.tenantId == tenant;
    assert forall s :: Owned(tenant, text)(s) <==> s.id == text && s.tenantId == tenant;
    assert forall s :: WithId(text)(s) <==> s.id == text;
  }

  lemma PlansAreFound(db: Db, text: string)
    ensures var found := FindPlan(db, text);
            if found.Some? then found.value in db.plans && found.value.id == text
            else forall p :: p in db.plans ==> p.id != text
    ensures var found := PlanByPrice(db, Some(text));
            if found.Some? then text != "" && found.value in db.plans && found.value.providerPriceId == Some(text)
            else text == "" || forall p :: p in db.plans ==> p.providerPriceId != Some(text)
  {
    assert forall p :: PlanWithId(text)(p) <==> p.id == text;
    assert forall p :: PlanWithPrice(text)(p) <==> p.providerPriceId == Some(text);
  }

  // The tenant of a row, if one is found.
  function TenantOf(found: Option<Subscription>): Option<string> {
    if found.Some? then Some(found.value.tenantId) else None
  }

  // The tenant of the first row of a provider with a code, or of a customer.
  function TenantByCode(db: Db, provider: Provider, code: Option<string>): Option<string> {
    if Given(code) then TenantOf(FindFirst(db.subscriptions, ByProviderId(provider, code.value))) else None
  }

  function TenantByCustomer(db: Db, provider: Provider, customer: Option<string>): Option<string> {
    if Given(customer) then TenantOf(FindFirst(db.subscriptions, ByCustomer(provider, customer.value))) else None
  }

  // ---------- One row written ----------

  function OneInterval(start: int, zone: int, interval: string): int {
    start + PeriodDays(LocalDay(start, zone), interval) * MS_PER_DAY
  }

  lemma EndOfInterval(config: Config, start: int, interval: string)
    ensures Billing.AddInterval(config, start, interval) == OneInterval(start, config.zone, interval)
  {
    IntervalLength(start, config.zone, interval);
  }

  ghost predicate OtherStatusesStay(db: Db, end: Db, tenant: string) {
    forall u :: u != tenant && u in db.tenants ==> u in end.tenants && end.tenants[u] == db.tenants[u]
  }

  lemma RowIsSettled(db: Db, row: Subscription, x: Subscription)
    requires Keyed(db.subscriptions) && !TenantTaken(db.subscriptions, row)
    ensures var end := Settle(db, row);
            && SubscriptionOf(end, row.tenantId) == Some(row) && Mirrors(end.tenants, row)
            && end.events == db.events && end.invoices == db.invoices && end.plans == db.plans
            && OtherStatusesStay(db, end, row.tenantId)
            && (x in end.subscriptions <==> x == row || (x in db.subscriptions && x.id != row.id))
  {
    SettledRow(db.subscriptions, row);
    WrittenRows(db.subscriptions, row, x);
  }

  // One row of a tenant is now s, whether or not its status has been passed on; all else stays.
  ghost predicate Leaves(db: Db, end: Db, s: Subscription, x: Subscription) {
    && SubscriptionOf(end, s.tenantId) == Some(s) && end.events == db.events && end.plans == db.plans
    && end.config == db.config && OtherStatusesStay(db, end, s.tenantId)
    && (x in end.subscriptions <==> x == s || (x in db.subscriptions && x.id != s.id))
  }

  lemma RewriteLeaves(db: Db, before: Subscription, s: Subscription, x: Subscription)
    requires Keyed(db.subscriptions) && before in db.subscriptions
    requires s.id == before.id && s.tenantId == before.tenantId
    ensures Leaves(db, Settle(db, s), s, x) && Mirrors(Settle(db, s).tenants, s)
    ensures Leaves(db, Save(db, s), s, x) && Save(db, s).tenants == db.tenants
  {
    OwnRowIsFree(db.subscriptions, before, s);
    RowIsSettled(db, s, x);
    assert SubscriptionOf(Save(db, s), s.tenantId) == SubscriptionOf(Settle(db, s), s.tenantId);
  }

  lemma UpsertLeaves(db: Db, tenant: string, newId: string, base: Subscription, s: Subscription, x: Subscription)
    requires Keyed(db.subscriptions) && UpsertBase(db, tenant, newId) == Ok(base)
    requires s.id == base.id && s.tenantId == base.tenantId
    ensures base.tenantId == tenant && Leaves(db, Settle(db, s), s, x) && Mirrors(Settle(db, s).tenants, s)
  {
    BaseIsFree(db, tenant, newId, base, s);
    RowIsSettled(db, s, x);
  }

  predicate CanBeSold(db: Db, planId: string) {
    var plan := FindPlan(db, planId);
    plan.Some? && plan.value.isActive && !plan.value.archived
  }

  // The user manages billing and the subscription is his tenant's.
  predicate MayTouch(db: Db, r: Request, id: string) {
    r.mayManage && OwnSubscription(db, r.tenant, id).Some?
  }

  // ---------- Create ----------

  // A subscription is created exactly by a manager, for his own tenant, on a plan that is sold,
  // when the tenant exists and has none and the id is free; a refused request changes nothing.
  lemma CreateIsAcceptedIff(db: Db, r: Request, dto: CreateDto)
    requires Keyed(db.subscriptions) && "" !in db.tenants
    ensures CreateSubscription(db, r, dto).result.Ok? <==>
              && r.mayManage && (dto.tenantId.Some? ==> dto.tenantId.value == r.tenant)
              && CanBeSold(db, dto.planId) && r.tenant in db.tenants
              && !IdTaken(db.subscriptions, r.newId) && SubscriptionOf(db, r.tenant).None?
    ensures CreateSubscription(db, r, dto).result.Err? ==> CreateSubscription(db, r, dto).db == db
  {
    var plan := FindPlan(db, dto.planId);
    if plan.Some? && dto.tenantId.GetOr(r.tenant) == r.tenant && !IdTaken(db.subscriptions, r.newId) {
      TakenIffOwned(db, NewSubscription(db.config, dto, plan.value, r.tenant, r.newId, r.now));
    }
  }

  lemma TakenIffOwned(db: Db, s: Subscription)
    requires !IdTaken(db.subscriptions, s.id)
    ensures TenantTaken(db.subscriptions, s) <==> SubscriptionOf(db, s.tenantId).Some?
  {
    RowsAreFound(db, Manual, s.id, s.tenantId);
  }

  // The first terms of a subscription: as sent, or seats for one, from now for one exact interval,
  // on trial exactly when a trial end is sent or the plan has trial days, and not cancelled.
  predicate Begins(s: Subscription, dto: CreateDto, plan: Plan, r: Request, zone: int) {
    && s.id == r.newId && s.tenantId == r.tenant && s.planId == dto.planId
    && Replaces(dto.status, if dto.trialEndsAt.Some? || plan.trialDays.GetOr(0) != 0 then TRIALING else ACTIVE,
                s.status)
    && Replaces(dto.provider, Manual, s.provider) && s.customerId == dto.customerId && s.providerId == dto.providerId
    && Replaces(dto.seatCount, 1, s.seatCount) && Replaces(dto.cancelAtPeriodEnd, false, s.cancelAtPeriodEnd)
    && s.periodStart.Some? && ReplacesOption(dto.periodStart, Some(r.now), s.periodStart)
    && ReplacesOption(dto.periodEnd, Some(OneInterval(s.periodStart.value, zone, plan.interval)), s.periodEnd)
    && ReplacesOption(dto.trialEndsAt, if plan.trialDays.GetOr(0) != 0
                                   then Some(s.periodStart.value + plan.trialDays.value * MS_PER_DAY) else None,
                  s.trialEndsAt)
    && s.canceledAt.None?
  }

  lemma CreateLeaves(db: Db, r: Request, dto: CreateDto, plan: Plan, s: Subscription, x: Subscription)
    requires Keyed(db.subscriptions) && "" !in db.tenants && CreateSubscription(db, r, dto).result.Ok?
    requires FindPlan(db, dto.planId) == Some(plan)
    requires s == SubscriptionOf(CreateSubscription(db, r, dto).db, r.tenant).GetOr(Blank("", ""))
    ensures Begins(s, dto, plan, r, db.config.zone)
    ensures var end := CreateSubscription(db, r, dto).db;
            Leaves(db, end, s, x) && Mirrors(end.tenants, s) && end.invoices == db.invoices
  {
    CreateIsAcceptedIff(db, r, dto);
    var row := NewSubscription(db.config, dto, plan, r.tenant, r.newId, r.now);
    TakenIffOwned(db, row);
    RowIsSettled(db, row, x);
    EndOfInterval(db.config, dto.periodStart.GetOr(r.now), plan.interval);
  }

  // ---------- Update ----------

  // An update is accepted exactly when a plan it sends exists and, unless its id is empty, is sold.
  lemma UpdateIsAcceptedIff(db: Db, r: Request, id: string, dto: UpdateDto)
    ensures UpdateSubscription(db, r, id, dto).result.Ok? <==>
              && MayTouch(db, r, id)
              && (dto.planId.Some? ==>
                    FindPlan(db, dto.planId.value).Some?
                    && (dto.planId.value != "" ==> CanBeSold(db, dto.planId.value)))
    ensures UpdateSubscription(db, r, id, dto).result.Err? ==> UpdateSubscription(db, r, id, dto).db == db
  {
  }

  // What is sent replaces what was there; a cancellation is stamped.
  predicate Updates(before: Subscription, dto: UpdateDto, s: Subscription, now: int) {
    && s.id == before.id && s.tenantId == before.tenantId && s.provider == before.provider
    && Replaces(dto.planId, before.planId, s.planId) && Replaces(dto.status, before.status, s.status)
    && Replaces(dto.seatCount, before.seatCount, s.seatCount)
    && Replaces(dto.cancelAtPeriodEnd, before.cancelAtPeriodEnd, s.cancelAtPeriodEnd)
    && ReplacesOption(dto.customerId, before.customerId, s.customerId)
    && ReplacesOption(dto.providerId, before.providerId, s.providerId)
    && ReplacesOption(dto.trialEndsAt, before.trialEndsAt, s.trialEndsAt)
    && ReplacesOption(dto.periodStart, before.periodStart, s.periodStart)
    && ReplacesOption(dto.periodEnd, before.periodEnd, s.periodEnd)
    && s.canceledAt == if dto.status == Some(CANCELLED) then Some(now) else before.canceledAt
  }

  lemma PatchUpdates(before: Subscription, dto: UpdateDto, now: int)
    ensures Updates(before, dto, Patched(before, dto, now), now)
  {
  }

  // An accepted update replaces what is sent, and the status reaches the tenant when one is sent.
  lemma UpdateLeaves(db: Db, r: Request, id: string, dto: UpdateDto, before: Subscription, s: Subscription,
                     x: Subscription)
    requires Keyed(db.subscriptions) && UpdateSubscription(db, r, id, dto).result.Ok?
    requires OwnSubscription(db, r.tenant, id) == Some(before)
    requires s == SubscriptionOf(UpdateSubscription(db, r, id, dto).db, r.tenant).GetOr(Blank("", ""))
    ensures Updates(before, dto, s, r.now)
    ensures var end := UpdateSubscription(db, r, id, dto).db;
            && Leaves(db, end, s, x) && end.invoices == db.invoices
            && (if dto.status.Some? then Mirrors(end.tenants, s) else end.tenants == db.tenants)
  {
    var row := Patched(before, dto, r.now);
    PatchUpdates(before, dto, r.now);
    RewriteLeaves(db, before, row, x);
    UpdateWrites(db, r, id, dto, before, row);
  }

  lemma UpdateWrites(db: Db, r: Request, id: string, dto: UpdateDto, before: Subscription, row: Subscription)
    requires UpdateSubscription(db, r, id, dto).result.Ok? && OwnSubscription(db, r.tenant, id) == Some(before)
    requires row == Patched(before, dto, r.now)
    ensures UpdateSubscription(db, r, id, dto).db == if dto.status.Some? then Settle(db, row) else Save(db, row)
  {
  }

  // ---------- Change of plan ----------

  // A change is accepted exactly for a plan that is sold, at the period's end or, at once, from a
  // plan that still exists and while no adjustment is refused its number.
  lemma ChangeIsAcceptedIff(db: Db, r: Request, id: string, planId: string, timing: ChangeTiming,
                            behavior: P.Behavior)
    ensures var reply := ChangePlan(db, r, id, planId, timing, behavior);
            reply.result.Ok? <==>
              && MayTouch(db, r, id) && CanBeSold(db, planId)
              && (timing == Immediate ==>
                    var s := OwnSubscription(db, r.tenant, id).value;
                    && FindPlan(db, s.planId).Some?
                    && (Due(s, FindPlan(db, s.planId).value, FindPlan(db, planId).value, behavior, r.now) > 0 ==>
                          Adjustment(s.id, r.now) !in db.invoices))
  {
  }

  // A change at the end of the period changes nothing yet.
  lemma ChangeAtPeriodEndWaits(db: Db, r: Request, id: string, planId: string, behavior: P.Behavior)
    ensures ChangePlan(db, r, id, planId, PeriodEnd, behavior).db == db
  {
  }

  // An immediate change leaves all but the plan, the period and a cancellation as it was.
  lemma ChangeLeaves(db: Db, r: Request, id: string, planId: string, behavior: P.Behavior, plan: Plan,
                     before: Subscription, s: Subscription, x: Subscription)
    requires Keyed(db.subscriptions) && ChangePlan(db, r, id, planId, Immediate, behavior).result.Ok?
    requires OwnSubscription(db, r.tenant, id) == Some(before) && FindPlan(db, planId) == Some(plan)
    requires s == SubscriptionOf(ChangePlan(db, r, id, planId, Immediate, behavior).db, r.tenant).GetOr(Blank("", ""))
    ensures s.id == id && s.tenantId == r.tenant && s.planId == planId && s.seatCount == before.seatCount
    ensures s.status == if before.status == CANCELLED then ACTIVE else before.status
    ensures s.provider == before.provider && s.customerId == before.customerId && s.providerId == before.providerId
    ensures s.trialEndsAt == before.trialEndsAt && !s.cancelAtPeriodEnd && s.canceledAt.None?
    ensures s.periodStart == Some(r.now) && s.periodEnd == Some(OneInterval(r.now, db.config.zone, plan.interval))
    ensures var end := ChangePlan(db, r, id, planId, Immediate, behavior).db;
            Leaves(db, end, s, x) && Mirrors(end.tenants, s)
  {
    var due := Due(before, FindPlan(db, before.planId).value, plan, behavior, r.now);
    var row := Moved(db.config, before, plan, r.now);
    RewriteLeaves(db, before, row, x);
    EndOfInterval(db.config, r.now, plan.interval);
    assert ChangePlan(db, r, id, planId, Immediate, behavior) == MovePlan(db, before, plan, due, r.now);
  }

  // ---------- Cancel, resume, trial ----------

  // Only the status and what goes with it has changed.
  predicate Switched(before: Subscription, s: Subscription, status: Status, cancelAtPeriodEnd: bool,
                     trialEndsAt: Option<int>, canceledAt: Option<int>) {
    && s.id == before.id && s.tenantId == before.tenantId && s.planId == before.planId && s.status == status
    && s.provider == before.provider && s.customerId == before.customerId && s.providerId == before.providerId
    && s.seatCount == before.seatCount && s.cancelAtPeriodEnd == cancelAtPeriodEnd && s.trialEndsAt == trialEndsAt
    && s.periodStart == before.periodStart && s.periodEnd == before.periodEnd && s.canceledAt == canceledAt
  }

  // A reply to a manager of the subscription's tenant that leaves s.
  ghost predicate Puts(db: Db, reply: Reply, s: Subscription, x: Subscription) {
    && reply.result == Ok(()) && Leaves(db, reply.db, s, x) && Mirrors(reply.db.tenants, s)
    && reply.db.invoices == db.invoices
  }

  lemma SwitchesAreAcceptedIff(db: Db, r: Request, id: string)
    ensures CancelSubscription(db, r, id).result.Ok? <==> MayTouch(db, r, id)
    ensures ResumeSubscription(db, r, id).result.Ok? <==> MayTouch(db, r, id)
    ensures StartTrial(db, r, id).result.Ok? <==>
              MayTouch(db, r, id) && FindPlan(db, OwnSubscription(db, r.tenant, id).value.planId).Some?
    ensures !MayTouch(db, r, id) ==> CancelSubscription(db, r, id).db == db && ResumeSubscription(db, r, id).db == db
    ensures StartTrial(db, r, id).result.Err? ==> StartTrial(db, r, id).db == db
  {
  }

  lemma CancelLeaves(db: Db, r: Request, id: string, before: Subscription, s: Subscription, x: Subscription)
    requires Keyed(db.subscriptions) && r.mayManage && OwnSubscription(db, r.tenant, id) == Some(before)
    requires s == SubscriptionOf(CancelSubscription(db, r, id).db, r.tenant).GetOr(Blank("", ""))
    ensures Switched(before, s, CANCELLED, false, before.trialEndsAt, Some(r.now))
    ensures Puts(db, CancelSubscription(db, r, id), s, x)
  {
    RewriteLeaves(db, before, before.(status := CANCELLED, cancelAtPeriodEnd := false, canceledAt := Some(r.now)), x);
  }

  lemma ResumeLeaves(db: Db, r: Request, id: string, before: Subscription, s: Subscription, x: Subscription)
    requires Keyed(db.subscriptions) && r.mayManage && OwnSubscription(db, r.tenant, id) == Some(before)
    requires s == SubscriptionOf(ResumeSubscription(db, r, id).db, r.tenant).GetOr(Blank("", ""))
    ensures Switched(before, s, ACTIVE, false, before.trialEndsAt, None)
    ensures Puts(db, ResumeSubscription(db, r, id), s, x)
  {
    RewriteLeaves(db, before, before.(status := ACTIVE, cancelAtPeriodEnd := false, canceledAt := None), x);
  }

  // The plan's trial days, or fourteen.
  function TrialEnd(plan: Plan, now: int): int {
    now + (if plan.trialDays.Some? then plan.trialDays.value else 14) * MS_PER_DAY
  }

  lemma TrialLeaves(db: Db, r: Request, id: string, before: Subscription, plan: Plan, s: Subscription, x: Subscription)
    requires Keyed(db.subscriptions) && r.mayManage && OwnSubscription(db, r.tenant, id) == Some(before)
    requires FindPlan(db, before.planId) == Some(plan)
    requires s == SubscriptionOf(StartTrial(db, r, id).db, r.tenant).GetOr(Blank("", ""))
    ensures Switched(before, s, TRIALING, before.cancelAtPeriodEnd, Some(TrialEnd(plan, r.now)), None)
    ensures Puts(db, StartTrial(db, r, id), s, x)
  {
    var row := before.(status := TRIALING, trialEndsAt := Some(TrialEnd(plan, r.now)), canceledAt := None);
    RewriteLeaves(db, before, row, x);
    TrialWrites(db, r, id, before, plan, row);
  }

  lemma TrialWrites(db: Db, r: Request, id: string, before: Subscription, plan: Plan, row: Subscription)
    requires r.mayManage && OwnSubscription(db, r.tenant, id) == Some(before)
    requires FindPlan(db, before.planId) == Some(plan)
    requires row == before.(status := TRIALING, trialEndsAt := Some(TrialEnd(plan, r.now)), canceledAt := None)
    ensures StartTrial(db, r, id) == Reply(Settle(db, row), Ok(()))
  {
  }

  // A tenant's trial is started exactly by a manager on a plan that is sold, for an existing
  // tenant that has a subscription or can be given one.
  lemma TenantTrialIsAcceptedIff(db: Db, r: Request, planId: string, seatCount: Option<int>)
    requires Tables(db)
    ensures StartTenantTrial(db, r, planId, seatCount).result.Ok? <==>
              && r.mayManage && CanBeSold(db, planId) && r.tenant in db.tenants
              && (SubscriptionOf(db, r.tenant).Some? || !IdTaken(db.subscriptions, r.newId))
    ensures StartTenantTrial(db, r, planId, seatCount).result.Err? ==>
              StartTenantTrial(db, r, planId, seatCount).db == db
  {
  }

  // It puts the tenant's subscription, or a new one, on a trial of the plan that is also its
  // period, and keeps the provider's codes.
  lemma TenantTrialLeaves(db: Db, r: Request, planId: string, seatCount: Option<int>, plan: Plan, s: Subscription,
                          x: Subscription)
    requires Tables(db) && StartTenantTrial(db, r, planId, seatCount).result.Ok?
    requires FindPlan(db, planId) == Some(plan)
    requires s == SubscriptionOf(StartTenantTrial(db, r, planId, seatCount).db, r.tenant).GetOr(Blank("", ""))
    ensures var before := SubscriptionOf(db, r.tenant);
            && s.id == (if before.Some? then before.value.id else r.newId)
            && s.provider == (if before.Some? then before.value.provider else Manual)
            && s.customerId == (if before.Some? then before.value.customerId else None)
            && s.providerId == (if before.Some? then before.value.providerId else None)
    ensures s.tenantId == r.tenant && s.planId == planId && s.status == TRIALING && Replaces(seatCount, 1, s.seatCount)
    ensures !s.cancelAtPeriodEnd && s.canceledAt.None?
    ensures s.periodStart == Some(r.now) && s.periodEnd == Some(TrialEnd(plan, r.now))
    ensures s.trialEndsAt == Some(TrialEnd(plan, r.now))
    ensures Puts(db, StartTenantTrial(db, r, planId, seatCount), s, x)
  {
    var base := UpsertBase(db, r.tenant, r.newId).value;
    UpsertLeaves(db, r.tenant, r.newId, base, OnTrial(base, plan, seatCount, r.now), x);
  }
}
