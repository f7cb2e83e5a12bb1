/** What the billing operations mean for a tenant's access: from when, until when, and to what. */
module Access {
  import opened Results
  import opened Text
  import opened BillingStates
  import opened Subscriptions
  import opened BillingDb
  import opened Ledger
  import opened LedgerInvariants
  import opened LedgerResults
  import opened Entitlement
  import Usage

  /** All limits are 0 and no feature may be used. */
  ghost predicate Closed(tables: Tables, sub: Subscription, t: Time) {
    && (forall metric :: EffectiveLimit(tables, Some(sub), metric, t) == 0)
    && (forall feature :: !MayUse(tables, Some(sub), feature, t))
  }

  predicate AddonIncludes(tables: Tables, feature: Feature, t: Time) {
    exists k :: 0 <= k < |tables.addons| && Running(tables.addons[k], t) && feature in tables.addons[k].features
  }

  function WithAddons(tables: Tables, allowance: int, metric: Metric, t: Time): int {
    if allowance == -1 || SomeUnlimited(tables.addons, metric, t) then -1 else allowance + TotalGrant(tables.addons, metric, t)
  }

  /** The limits of this plan; its features, all of them or only the three that stay in a restricted subscription. */
  ghost predicate OpenOnPlan(tables: Tables, sub: Subscription, plan: PlanCode, restricted: bool, t: Time) {
    && (forall metric :: EffectiveLimit(tables, Some(sub), metric, t) == WithAddons(tables, PlanAllowance(tables, plan, metric), metric, t))
    && (forall feature :: MayUse(tables, Some(sub), feature, t) <==>
          && (restricted ==> feature in {"admin_inbox", "ai_customer_service", "human_handoff"})
          && (PlanIncludes(tables, plan, feature) || AddonIncludes(tables, feature, t)))
  }

  /** The trial allowances and features. */
  ghost predicate OpenOnTrial(tables: Tables, sub: Subscription, t: Time) {
    && (forall metric :: EffectiveLimit(tables, Some(sub), metric, t) ==
          WithAddons(tables, if metric in TRIAL_LIMITS then TRIAL_LIMITS[metric] else 0, metric, t))
    && (forall feature :: MayUse(tables, Some(sub), feature, t) <==>
          feature in tables.trialFeatures || AddonIncludes(tables, feature, t))
  }

  lemma ClosedAfter(tables: Tables, sub: Subscription, t: Time)
    requires sub.status in {SUSPENDED, EXPIRED, ARCHIVED} ||
             t >= if sub.status.TRIALING? && sub.trialEnd.Some? then sub.trialEnd.value else sub.periodEnd
    ensures Closed(tables, sub, t)
  {
    forall metric ensures EffectiveLimit(tables, Some(sub), metric, t) == 0 {
      AccessEnds(tables, sub, metric, "", t);
    }
    forall feature ensures !MayUse(tables, Some(sub), feature, t) {
      AccessEnds(tables, sub, "", feature, t);
    }
  }

  lemma OpenUntil(tables: Tables, sub: Subscription, t: Time)
    requires sub.status !in {TRIALING, SUSPENDED, EXPIRED, ARCHIVED} && t < sub.periodEnd
    ensures OpenOnPlan(tables, sub, sub.plan, sub.status.RESTRICTED?, t)
  {
    forall metric
      ensures EffectiveLimit(tables, Some(sub), metric, t) == WithAddons(tables, PlanAllowance(tables, sub.plan, metric), metric, t)
    {
      AccessEnds(tables, sub, metric, "", t);
    }
    forall feature
      ensures MayUse(tables, Some(sub), feature, t) <==>
                && (sub.status.RESTRICTED? ==> feature in {"admin_inbox", "ai_customer_service", "human_handoff"})
                && (PlanIncludes(tables, sub.plan, feature) || AddonIncludes(tables, feature, t))
    {
      AccessEnds(tables, sub, "", feature, t);
    }
  }

  lemma OpenUntilTrialEnd(tables: Tables, sub: Subscription, t: Time)
    requires sub.status.TRIALING? && t < if sub.trialEnd.Some? then sub.trialEnd.value else sub.periodEnd
    ensures OpenOnTrial(tables, sub, t)
  {
    forall metric
      ensures EffectiveLimit(tables, Some(sub), metric, t) ==
              WithAddons(tables, if metric in TRIAL_LIMITS then TRIAL_LIMITS[metric] else 0, metric, t)
    {
      AccessEnds(tables, sub, metric, "", t);
    }
    forall feature
      ensures MayUse(tables, Some(sub), feature, t) <==> feature in tables.trialFeatures || AddonIncludes(tables, feature, t)
    {
      AccessEnds(tables, sub, "", feature, t);
    }
  }

  /** How long a paid period lasts, in seconds. */
  function PeriodLength(cycle: Cycle): Time {
    if Upper(cycle) == "YEARLY" then 365 * 86_400 else 30 * 86_400
  }

  // ----- What each operation opens and closes -----

  /** An activation opens the requested plan for exactly its period from now. */
  lemma ActivationOpens(acc: Account, plans: Catalogue, id: SubscriptionId, code: PlanCode, cycle: Cycle,
                        actor: Actor, verified: bool, now: Time, tables: Tables, t: Time)
    requires Activate(acc, plans, id, code, cycle, actor, verified, now).Ok?
    ensures Activate(acc, plans, id, code, cycle, actor, verified, now).value.sub.Some?
    ensures var sub := Activate(acc, plans, id, code, cycle, actor, verified, now).value.sub.value;
            if t < now + PeriodLength(cycle) then OpenOnPlan(tables, sub, Lower(code), false, t) else Closed(tables, sub, t)
  {
    ActivationTerms(acc, plans, id, code, cycle, actor, verified, now);
    var sub := Activate(acc, plans, id, code, cycle, actor, verified, now).value.sub.value;
    if t < now + PeriodLength(cycle) {
      OpenUntil(tables, sub, t);
    } else {
      ClosedAfter(tables, sub, t);
    }
  }

  /** A trial opens the trial allowances for exactly its days. */
  lemma TrialOpens(plans: Catalogue, id: SubscriptionId, now: Time, days: int, tables: Tables, t: Time)
    ensures CreateTrial(NO_ACCOUNT, plans, id, now, days).Ok? && CreateTrial(NO_ACCOUNT, plans, id, now, days).value.sub.Some?
    ensures var sub := CreateTrial(NO_ACCOUNT, plans, id, now, days).value.sub.value;
            if t < now + days * 86_400 then OpenOnTrial(tables, sub, t) else Closed(tables, sub, t)
  {
    TrialTerms(NO_ACCOUNT, plans, id, now, days);
    var sub := CreateTrial(NO_ACCOUNT, plans, id, now, days).value.sub.value;
    if t < now + days * 86_400 {
      OpenUntilTrialEnd(tables, sub, t);
    } else {
      ClosedAfter(tables, sub, t);
    }
  }

  /** Expiring a trial takes nothing away that was not already closed. */
  lemma ExpiryTakesNothing(acc: Account, now: Time, tables: Tables, t: Time)
    requires ExpireTrial(acc, now).Ok? && ExpireTrial(acc, now).value != acc && now <= t
    ensures acc.sub.Some? && ExpireTrial(acc, now).value.sub.Some?
    ensures Closed(tables, acc.sub.value, t) && Closed(tables, ExpireTrial(acc, now).value.sub.value, t)
  {
    ExpiryTerms(acc, now);
    ClosedAfter(tables, acc.sub.value, t);
    ClosedAfter(tables, ExpireTrial(acc, now).value.sub.value, t);
  }

  /** A cancelled subscription stays open on its plan until the period ends. */
  lemma CancellationKeepsThePeriod(acc: Account, actor: Actor, now: Time, tables: Tables, t: Time)
    requires Cancel(acc, actor, now).Ok?
    ensures acc.sub.Some? && Cancel(acc, actor, now).value.sub.Some?
    ensures var sub := Cancel(acc, actor, now).value.sub.value;
            if t < acc.sub.value.periodEnd then OpenOnPlan(tables, sub, acc.sub.value.plan, false, t) else Closed(tables, sub, t)
  {
    CancellationTerms(acc, actor, now);
    var sub := Cancel(acc, actor, now).value.sub.value;
    if t < acc.sub.value.periodEnd {
      OpenUntil(tables, sub, t);
    } else {
      ClosedAfter(tables, sub, t);
    }
  }

  /**
    A dunning call that succeeds closes everything from the 14th day on; before that the plan stays open
    until the period ends, with the three features that stay from the 8th day on.
   */
  lemma DunningCloses(acc: Account, daysPastDue: nat, now: Time, tables: Tables, t: Time)
    requires Dun(acc, daysPastDue, now).Ok?
    ensures acc.sub.Some? && Dun(acc, daysPastDue, now).value.sub.Some?
    ensures var sub := Dun(acc, daysPastDue, now).value.sub.value;
            if daysPastDue < 14 && t < acc.sub.value.periodEnd
            then OpenOnPlan(tables, sub, acc.sub.value.plan, daysPastDue >= 8, t)
            else Closed(tables, sub, t)
  {
    DunningTerms(acc, daysPastDue, now);
    var sub := Dun(acc, daysPastDue, now).value.sub.value;
    if daysPastDue < 14 && t < acc.sub.value.periodEnd {
      OpenUntil(tables, sub, t);
    } else {
      ClosedAfter(tables, sub, t);
    }
  }

  /** A confirmed payment of a subscription invoice opens the tenant's own plan for exactly its period from now. */
  lemma PaymentOpens(db: Db, tenant: TenantId, p: PaymentId, providerId: string, now: Time, tables: Tables, t: Time)
    requires OwnPayment(db, tenant, p) && db.payments[p].status.PENDING?
    requires db.payments[p].invoice in db.invoices && db.invoices[db.payments[p].invoice].subscription.Some?
    requires Confirm(db, tenant, p, providerId, now).outcome.Ok?
    ensures AccountOf(db, tenant).sub.Some?
    ensures AccountOf(Confirm(db, tenant, p, providerId, now).outcome.value, tenant).sub.Some?
    ensures var had := AccountOf(db, tenant).sub.value;
            var sub := AccountOf(Confirm(db, tenant, p, providerId, now).outcome.value, tenant).sub.value;
            && sub.periodStart == now
            && if t < now + PeriodLength(had.cycle) then OpenOnPlan(tables, sub, Lower(had.plan), false, t) else Closed(tables, sub, t)
  {
    ConfirmedLedger(db, tenant, p, providerId, now);
    var had := AccountOf(db, tenant).sub.value;
    var sub := AccountOf(Confirm(db, tenant, p, providerId, now).outcome.value, tenant).sub.value;
    if t < now + PeriodLength(had.cycle) {
      OpenUntil(tables, sub, t);
    } else {
      ClosedAfter(tables, sub, t);
    }
  }

  /** And usage starts again from nothing, as everything recorded so far began before now. */
  lemma PaymentResetsUsage(db: Db, tenant: TenantId, p: PaymentId, providerId: string, now: Time,
                           records: seq<Usage.UsageRecord>, metric: Metric)
    requires OwnPayment(db, tenant, p) && db.payments[p].status.PENDING?
    requires db.payments[p].invoice in db.invoices && db.invoices[db.payments[p].invoice].subscription.Some?
    requires Confirm(db, tenant, p, providerId, now).outcome.Ok?
    requires forall k :: 0 <= k < |records| && records[k].tenant == tenant && records[k].metric == metric ==> records[k].start < now
    ensures AccountOf(Confirm(db, tenant, p, providerId, now).outcome.value, tenant).sub.Some?
    ensures var sub := AccountOf(Confirm(db, tenant, p, providerId, now).outcome.value, tenant).sub.value;
            Usage.CurrentUsage(records, tenant, metric, sub.periodStart, sub.periodEnd) == 0
  {
    ConfirmedLedger(db, tenant, p, providerId, now);
    var sub := AccountOf(Confirm(db, tenant, p, providerId, now).outcome.value, tenant).sub.value;
    Usage.NothingInThePeriod(records, tenant, metric, sub.periodStart, sub.periodEnd);
  }

  /** The allowances of a trial without add-ons. */
  lemma TrialAllowances(tables: Tables, sub: Subscription, metric: Metric, t: Time)
    requires sub.status.TRIALING? && sub.trialEnd.Some? && t < sub.trialEnd.value && tables.addons == []
    ensures EffectiveLimit(tables, Some(sub), metric, t) ==
            match metric
            case "whatsapp_connections" => 1
            case "admins" => 3
            case "active_customers" => 500
            case "ai_credits" => 1000
            case "automation_runs" => 500
            case "outbound_messages" => 1000
            case "storage_bytes" => 1_073_741_824
            case _ => 0
  {
  }
}
