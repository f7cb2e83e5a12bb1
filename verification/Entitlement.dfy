/**
  What a tenant may use: plan or trial allowances, add-ons on top, and the subscription's dates.
  -1 stands for "unlimited".
 */
module Entitlement {
  import opened Results
  import opened BillingStates
  import opened Subscriptions

  type Metric = string
  type Feature = string

  const UNLIMITED: int := -1

  const TRIAL_LIMITS: map<Metric, int> :=
    map["whatsapp_connections" := 1, "admins" := 3, "active_customers" := 500, "ai_credits" := 1000,
        "automation_runs" := 500, "outbound_messages" := 1000, "storage_bytes" := 1_073_741_824]

  const RESTRICTED_FEATURES: set<Feature> := {"admin_inbox", "ai_customer_service", "human_handoff"}

  /** A tenant's add-on row joined with the add-on; `features` holds the keys granted as True. */
  datatype AddonRow = AddonRow(
    rowActive: bool, addonActive: bool, start: Option<Time>, end: Option<Time>,
    limits: map<Metric, int>, features: set<Feature>)

  /** Everything the resolver reads. */
  datatype Tables = Tables(
    planLimits: map<(PlanCode, Metric), int>,
    planFeatures: map<(PlanCode, Feature), bool>,
    trialFeatures: set<Feature>,
    addons: seq<AddonRow>)

  // ----- Dates -----

  function Deadline(sub: Subscription): Time {
    if sub.status.TRIALING? && sub.trialEnd.Some? then sub.trialEnd.value else sub.periodEnd
  }

  predicate TemporallyValid(sub: Subscription, now: Time) {
    if sub.status in {EXPIRED, ARCHIVED, SUSPENDED} then false
    else if sub.status.TRIALING? then !(now >= Deadline(sub))
    else if sub.status.CANCELLED_PENDING_EXPIRY? then !(now >= sub.periodEnd)
    else !(now >= sub.periodEnd)
  }

  predicate InForce(row: AddonRow, now: Time) {
    && row.rowActive
    && row.addonActive
    && (row.start.Some? ==> row.start.value <= now)
    && (row.end.Some? ==> now < row.end.value)
  }

  // ----- Limits, stated without any order -----

  predicate GrantsUnlimited(row: AddonRow, metric: Metric, now: Time) {
    InForce(row, now) && metric in row.limits && row.limits[metric] == UNLIMITED
  }

  function GrantOf(row: AddonRow, metric: Metric, now: Time): int {
    if InForce(row, now) && metric in row.limits then row.limits[metric] else 0
  }

  function TotalGrant(rows: seq<AddonRow>, metric: Metric, now: Time): int {
    if rows == [] then 0 else TotalGrant(rows[..|rows| - 1], metric, now) + GrantOf(rows[|rows| - 1], metric, now)
  }

  function BaseLimit(tables: Tables, sub: Subscription, metric: Metric): int {
    if sub.status.TRIALING? then if metric in TRIAL_LIMITS then TRIAL_LIMITS[metric] else 0
    else if (sub.plan, metric) in tables.planLimits then tables.planLimits[(sub.plan, metric)] else 0
  }

  predicate SomeUnlimited(rows: seq<AddonRow>, metric: Metric, now: Time) {
    exists k :: 0 <= k < |rows| && GrantsUnlimited(rows[k], metric, now)
  }

  function LimitWith(base: int, rows: seq<AddonRow>, metric: Metric, now: Time): int {
    if base == UNLIMITED || SomeUnlimited(rows, metric, now) then UNLIMITED else base + TotalGrant(rows, metric, now)
  }

  function EffectiveLimit(tables: Tables, sub: Option<Subscription>, metric: Metric, now: Time): int {
    if sub.None? || !TemporallyValid(sub.value, now) then 0
    else LimitWith(BaseLimit(tables, sub.value, metric), tables.addons, metric, now)
  }

  // ----- The resolver -----

  /** The add-ons in force, in the order the query returned them. */
  function ActiveAddons(rows: seq<AddonRow>, now: Time): seq<AddonRow> {
    if rows == [] then []
    else
      var last := rows[|rows| - 1];
      ActiveAddons(rows[..|rows| - 1], now) + if InForce(last, now) then [last] else []
  }

  method GetActiveTenantAddons(rows: seq<AddonRow>, now: Time) returns (valid: seq<AddonRow>)
    ensures valid == ActiveAddons(rows, now)
  {
    valid := [];
    for i := 0 to |rows|
      invariant valid == ActiveAddons(rows[..i], now)
    {
      assert rows[..i + 1][..i] == rows[..i];
      var row := rows[i];
      if !(row.rowActive && row.addonActive) {
        continue;
      }
      if row.start.Some? && now < row.start.value {
        continue;
      }
      if row.end.Some? && now >= row.end.value {
        continue;
      }
      valid := valid + [row];
    }
    assert rows[..|rows|] == rows;
  }

  /** Filtering first changes neither the total nor whether anything is unlimited. */
  lemma {:induction false} FilteringIsHarmless(rows: seq<AddonRow>, metric: Metric, now: Time)
    ensures TotalGrant(ActiveAddons(rows, now), metric, now) == TotalGrant(rows, metric, now)
    ensures SomeUnlimited(ActiveAddons(rows, now), metric, now) <==> SomeUnlimited(rows, metric, now)
    ensures forall row :: row in ActiveAddons(rows, now) <==> row in rows && InForce(row, now)
  {
    if rows != [] {
      var init, last := rows[..|rows| - 1], rows[|rows| - 1];
      FilteringIsHarmless(init, metric, now);
      assert rows == init + [last];
      SomeUnlimitedAppend(init, last, metric, now);
      if InForce(last, now) {
        var kept := ActiveAddons(init, now);
        assert (kept + [last])[..|kept|] == kept;
        SomeUnlimitedAppend(kept, last, metric, now);
      } else {
        assert ActiveAddons(rows, now) == ActiveAddons(init, now);
      }
    }
  }

  lemma SomeUnlimitedAppend(rows: seq<AddonRow>, row: AddonRow, metric: Metric, now: Time)
    ensures SomeUnlimited(rows + [row], metric, now) <==> SomeUnlimited(rows, metric, now) || GrantsUnlimited(row, metric, now)
  {
    if SomeUnlimited(rows, metric, now) {
      var k :| 0 <= k < |rows| && GrantsUnlimited(rows[k], metric, now);
      assert (rows + [row])[k] == rows[k];
    }
    if GrantsUnlimited(row, metric, now) {
      assert (rows + [row])[|rows|] == row;
    }
  }

  method GetLimit(tables: Tables, sub: Option<Subscription>, metric: Metric, now: Time) returns (limit: int)
    ensures limit == EffectiveLimit(tables, sub, metric, now)
  {
    if sub.None? || !TemporallyValid(sub.value, now) {
      return 0;
    }
    var base := BaseLimit(tables, sub.value, metric);
    limit := base;
    if limit == UNLIMITED {
      return UNLIMITED;
    }
    var addons := GetActiveTenantAddons(tables.addons, now);
    FilteringIsHarmless(tables.addons, metric, now);
    for i := 0 to |addons|
      invariant limit == base + TotalGrant(addons[..i], metric, now)
      invariant !SomeUnlimited(addons[..i], metric, now)
    {
      assert addons[..i + 1][..i] == addons[..i];
      assert addons[..i + 1] == addons[..i] + [addons[i]];
      SomeUnlimitedAppend(addons[..i], addons[i], metric, now);
      assert addons[i] in addons;
      if metric in addons[i].limits {
        var granted := addons[i].limits[metric];
        if granted == UNLIMITED {
          assert GrantsUnlimited(addons[i], metric, now);
          return UNLIMITED;
        }
        limit := limit + granted;
      }
    }
    assert addons[..|addons|] == addons;
  }

  // ----- Properties of limits -----

  ghost predicate SaneGrants(rows: seq<AddonRow>) {
    forall k, metric :: 0 <= k < |rows| && metric in rows[k].limits ==> rows[k].limits[metric] >= UNLIMITED
  }

  lemma {:induction false} TotalGrantAppend(a: seq<AddonRow>, b: seq<AddonRow>, metric: Metric, now: Time)
    ensures TotalGrant(a + b, metric, now) == TotalGrant(a, metric, now) + TotalGrant(b, metric, now)
  {
    if b == [] {
      assert a + b == a;
    } else {
      var init := b[..|b| - 1];
      assert (a + b)[..|a + b| - 1] == a + init;
      TotalGrantAppend(a, init, metric, now);
    }
  }

  lemma TotalGrantWithout(rows: seq<AddonRow>, k: nat, metric: Metric, now: Time)
    requires k < |rows|
    ensures TotalGrant(rows, metric, now) == TotalGrant(rows[..k] + rows[k + 1..], metric, now) + GrantOf(rows[k], metric, now)
  {
    assert rows == rows[..k] + [rows[k]] + rows[k + 1..];
    TotalGrantAppend(rows[..k], rows[k + 1..], metric, now);
    TotalGrantAppend(rows[..k] + [rows[k]], rows[k + 1..], metric, now);
    assert (rows[..k] + [rows[k]])[..k] == rows[..k];
  }

  lemma SameWithout(a: seq<AddonRow>, b: seq<AddonRow>, k: nat)
    requires a != [] && multiset(a) == multiset(b) && k < |b| && b[k] == a[|a| - 1]
    ensures multiset(a[..|a| - 1]) == multiset(b[..k] + b[k + 1..])
  {
    assert a == a[..|a| - 1] + [a[|a| - 1]];
    assert multiset(a[..|a| - 1]) == multiset(a) - multiset{b[k]};
    assert b == b[..k] + [b[k]] + b[k + 1..];
    assert multiset(b[..k] + b[k + 1..]) == multiset(b) - multiset{b[k]};
  }

  lemma {:induction false} TotalGrantOrder(a: seq<AddonRow>, b: seq<AddonRow>, metric: Metric, now: Time)
    requires multiset(a) == multiset(b)
    ensures TotalGrant(a, metric, now) == TotalGrant(b, metric, now)
    decreases |a|
  {
    assert |a| == |multiset(a)| == |multiset(b)| == |b|;
    if a != [] {
      var last := a[|a| - 1];
      assert last in multiset(a) && last in multiset(b);
      var k :| 0 <= k < |b| && b[k] == last;
      SameWithout(a, b, k);
      TotalGrantOrder(a[..|a| - 1], b[..k] + b[k + 1..], metric, now);
      TotalGrantWithout(b, k, metric, now);
    }
  }

  /** The limit does not depend on the order in which the add-ons come back. */
  lemma OrderDoesNotMatter(tables: Tables, rows: seq<AddonRow>, sub: Option<Subscription>, metric: Metric, now: Time)
    requires multiset(rows) == multiset(tables.addons)
    ensures EffectiveLimit(tables.(addons := rows), sub, metric, now) == EffectiveLimit(tables, sub, metric, now)
  {
    TotalGrantOrder(rows, tables.addons, metric, now);
    SameMembers(rows, tables.addons, metric, now);
    SameMembers(tables.addons, rows, metric, now);
  }

  lemma SameMembers(a: seq<AddonRow>, b: seq<AddonRow>, metric: Metric, now: Time)
    requires multiset(a) == multiset(b)
    ensures SomeUnlimited(a, metric, now) ==> SomeUnlimited(b, metric, now)
  {
    if SomeUnlimited(a, metric, now) {
      var k :| 0 <= k < |a| && GrantsUnlimited(a[k], metric, now);
      assert a[k] in multiset(b);
    }
  }

  lemma {:induction false} GrantsAddUp(rows: seq<AddonRow>, metric: Metric, now: Time)
    requires SaneGrants(rows) && !SomeUnlimited(rows, metric, now)
    ensures TotalGrant(rows, metric, now) >= 0
  {
    if rows != [] {
      var init, last := rows[..|rows| - 1], rows[|rows| - 1];
      assert rows == init + [last];
      SomeUnlimitedAppend(init, last, metric, now);
      GrantsAddUp(init, metric, now);
    }
  }

  /** With grants of -1 or more, a limit is -1 exactly when the plan or an add-on in force is unlimited. */
  lemma UnlimitedExactlyWhen(tables: Tables, sub: Subscription, metric: Metric, now: Time)
    requires SaneGrants(tables.addons) && TemporallyValid(sub, now) && BaseLimit(tables, sub, metric) >= UNLIMITED
    ensures EffectiveLimit(tables, Some(sub), metric, now) == UNLIMITED <==>
              BaseLimit(tables, sub, metric) == UNLIMITED || SomeUnlimited(tables.addons, metric, now)
  {
    if !SomeUnlimited(tables.addons, metric, now) {
      GrantsAddUp(tables.addons, metric, now);
    }
  }

  /** -1 is above every number. */
  predicate AtLeast(limit: int, other: int) {
    limit == UNLIMITED || (other != UNLIMITED && limit >= other)
  }

  lemma AddonsNeverTakeAway(tables: Tables, row: AddonRow, sub: Option<Subscription>, metric: Metric, now: Time)
    requires SaneGrants(tables.addons) && SaneGrants([row])
    requires sub.Some? ==> BaseLimit(tables, sub.value, metric) >= UNLIMITED
    ensures AtLeast(EffectiveLimit(tables.(addons := tables.addons + [row]), sub, metric, now),
                    EffectiveLimit(tables, sub, metric, now))
  {
    SomeUnlimitedAppend(tables.addons, row, metric, now);
    assert (tables.addons + [row])[..|tables.addons|] == tables.addons;
    if metric in row.limits {
      assert [row][0].limits[metric] >= UNLIMITED;
    }
    if !SomeUnlimited(tables.addons, metric, now) {
      GrantsAddUp(tables.addons, metric, now);
    }
  }

  // ----- Features -----

  datatype AccessState = AVAILABLE | ENABLED | LIMITED | BLOCKED
  datatype Refusal = NoSubscription | OutOfPeriod | Restricted | NotIncluded
  datatype Access = Access(allowed: bool, state: AccessState, refusal: Option<Refusal>)

  predicate FeatureIncluded(tables: Tables, sub: Subscription, feature: Feature) {
    if sub.status.TRIALING? then feature in tables.trialFeatures
    else (sub.plan, feature) in tables.planFeatures && tables.planFeatures[(sub.plan, feature)]
  }

  predicate FeatureGranted(rows: seq<AddonRow>, feature: Feature, now: Time) {
    exists k :: 0 <= k < |rows| && InForce(rows[k], now) && feature in rows[k].features
  }

  predicate MayUse(tables: Tables, sub: Option<Subscription>, feature: Feature, now: Time) {
    && sub.Some?
    && TemporallyValid(sub.value, now)
    && (sub.value.status.RESTRICTED? ==> feature in RESTRICTED_FEATURES)
    && (FeatureIncluded(tables, sub.value, feature) || FeatureGranted(tables.addons, feature, now))
  }

  method CanUse(tables: Tables, sub: Option<Subscription>, feature: Feature, now: Time) returns (access: Access)
    ensures access.allowed <==> MayUse(tables, sub, feature, now)
    ensures access.state == if access.allowed then ENABLED else BLOCKED
    ensures access.refusal ==
            if access.allowed then None
            else if sub.None? then Some(NoSubscription)
            else if !TemporallyValid(sub.value, now) then Some(OutOfPeriod)
            else if sub.value.status.RESTRICTED? && feature !in RESTRICTED_FEATURES then Some(Restricted)
            else Some(NotIncluded)
    ensures access.refusal == Some(OutOfPeriod) <==>
              && sub.Some?
              && (sub.value.status in {SUSPENDED, EXPIRED, ARCHIVED} ||
                  now >= if sub.value.status.TRIALING? && sub.value.trialEnd.Some? then sub.value.trialEnd.value else sub.value.periodEnd)
  {
    if sub.None? {
      return Access(false, BLOCKED, Some(NoSubscription));
    }
    if !TemporallyValid(sub.value, now) {
      return Access(false, BLOCKED, Some(OutOfPeriod));
    }
    if sub.value.status.RESTRICTED? && feature !in RESTRICTED_FEATURES {
      return Access(false, BLOCKED, Some(Restricted));
    }
    var enabled := FeatureIncluded(tables, sub.value, feature);
    if !enabled {
      var addons := GetActiveTenantAddons(tables.addons, now);
      FilteringIsHarmless(tables.addons, feature, now);
      for i := 0 to |addons|
        invariant !enabled && forall k :: 0 <= k < i ==> feature !in addons[k].features
      {
        assert addons[i] in addons;
        if feature in addons[i].features {
          enabled := true;
          break;
        }
      }
      assert !enabled ==> forall k :: 0 <= k < |tables.addons| && InForce(tables.addons[k], now) ==> tables.addons[k] in addons;
    }
    if !enabled {
      return Access(false, BLOCKED, Some(NotIncluded));
    }
    return Access(true, ENABLED, None);
  }

  function EvaluateMetricAccess(limit: int, usage: int): Access {
    if limit == UNLIMITED then Access(true, AVAILABLE, None)
    else if limit == 0 then Access(false, BLOCKED, None)
    else if usage >= limit then Access(false, LIMITED, None)
    else Access(true, AVAILABLE, None)
  }

  // ----- What a subscription gives -----

  /** A trial has the trial allowances, whatever its plan; anything else has its plan's, whatever the trial has. */
  function Allowance(tables: Tables, sub: Subscription, metric: Metric): int {
    if sub.status.TRIALING? then if metric in TRIAL_LIMITS then TRIAL_LIMITS[metric] else 0
    else PlanAllowance(tables, sub.plan, metric)
  }

  function PlanAllowance(tables: Tables, plan: PlanCode, metric: Metric): int {
    if (plan, metric) in tables.planLimits then tables.planLimits[(plan, metric)] else 0
  }

  predicate PlanIncludes(tables: Tables, plan: PlanCode, feature: Feature) {
    (plan, feature) in tables.planFeatures && tables.planFeatures[(plan, feature)]
  }

  /** A row that is bought, offered, begun and not over. */
  predicate Running(row: AddonRow, t: Time) {
    row.rowActive && row.addonActive && !(row.start.Some? && t < row.start.value) && !(row.end.Some? && row.end.value <= t)
  }

  /**
    Access ends with SUSPENDED, EXPIRED and ARCHIVED, and in every other status exactly at the end of the
    period, or of the trial for a trial that has one.  Until then the limit is the allowance with what the
    running add-ons grant on top, and a feature is usable if the plan, the trial or a running add-on
    includes it and, in a restricted subscription, if it is one of the three that stay.
   */
  lemma AccessEnds(tables: Tables, sub: Subscription, metric: Metric, feature: Feature, t: Time)
    ensures var end := if sub.status.TRIALING? && sub.trialEnd.Some? then sub.trialEnd.value else sub.periodEnd;
            if sub.status in {SUSPENDED, EXPIRED, ARCHIVED} || t >= end then
              EffectiveLimit(tables, Some(sub), metric, t) == 0 && !MayUse(tables, Some(sub), feature, t)
            else
              && EffectiveLimit(tables, Some(sub), metric, t) ==
                 (if Allowance(tables, sub, metric) == UNLIMITED || SomeUnlimited(tables.addons, metric, t) then UNLIMITED
                  else Allowance(tables, sub, metric) + TotalGrant(tables.addons, metric, t))
              && (MayUse(tables, Some(sub), feature, t) <==>
                    && (sub.status.RESTRICTED? ==> feature in {"admin_inbox", "ai_customer_service", "human_handoff"})
                    && ((if sub.status.TRIALING? then feature in tables.trialFeatures else PlanIncludes(tables, sub.plan, feature)) ||
                        exists k :: 0 <= k < |tables.addons| && Running(tables.addons[k], t) && feature in tables.addons[k].features))
  {
    forall k | 0 <= k < |tables.addons| ensures Running(tables.addons[k], t) <==> InForce(tables.addons[k], t) {
    }
  }

  /** What one more add-on adds to the grants: its own, while it is running, and -1 makes the limit unlimited. */
  lemma OneMoreAddon(rows: seq<AddonRow>, row: AddonRow, metric: Metric, t: Time)
    ensures TotalGrant([], metric, t) == 0 && !SomeUnlimited([], metric, t)
    ensures TotalGrant(rows + [row], metric, t) ==
            TotalGrant(rows, metric, t) + if Running(row, t) && metric in row.limits then row.limits[metric] else 0
    ensures SomeUnlimited(rows + [row], metric, t) <==>
              SomeUnlimited(rows, metric, t) || (Running(row, t) && metric in row.limits && row.limits[metric] == -1)
  {
    assert (rows + [row])[..|rows|] == rows;
    SomeUnlimitedAppend(rows, row, metric, t);
  }

  // ----- Time -----

  /** What a tenant has without a valid subscription. */
  ghost predicate NothingUsable(tables: Tables, sub: Subscription, now: Time) {
    && (forall metric :: EffectiveLimit(tables, Some(sub), metric, now) == 0)
    && (forall feature :: !MayUse(tables, Some(sub), feature, now))
  }

  /** A subscription that has lapsed stays lapsed until its row changes, whatever add-ons are bought. */
  lemma LapseIsFinal(tables: Tables, sub: Subscription, now: Time, later: Time)
    requires !TemporallyValid(sub, now) && now <= later
    ensures NothingUsable(tables, sub, later)
  {
  }
}
