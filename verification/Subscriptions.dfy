/**
  What each subscription operation does to one tenant's account: the subscription row and the
  history rows written beside it.  Times are in seconds, money in cents.
 */
module Subscriptions {
  import opened Results
  import opened BillingStates
  import opened Text

  type Cents = int
  type Time = int
  type PlanCode = string
  type SubscriptionId = nat

  const DAY: Time := 86_400

  /** Stored as given, in capitals; only YEARLY is recognised, anything else is billed by the month. */
  type Cycle = string

  const MONTHLY: Cycle := "MONTHLY"

  predicate IsYearly(cycle: Cycle) {
    Upper(cycle) == "YEARLY"
  }

  datatype Actor = SYSTEM | USER | PAYMENT_PROVIDER

  datatype Subscription = Subscription(
    id: SubscriptionId, plan: PlanCode, status: SubscriptionStatus, cycle: Cycle, amount: Cents,
    periodStart: Time, periodEnd: Time, trialEnd: Option<Time>,
    cancelledAt: Option<Time>, suspendedAt: Option<Time>, expiredAt: Option<Time>)

  /** The pair of columns a history row records before and after a change. */
  datatype View = View(plan: PlanCode, status: SubscriptionStatus)
  datatype HistoryRow = HistoryRow(previous: Option<View>, next: View, actor: Actor)

  datatype Account = Account(sub: Option<Subscription>, history: seq<HistoryRow>)

  const NO_ACCOUNT := Account(None, [])

  datatype SubscriptionError =
    | SubscriptionNotFound
    | PlanNotFound
    | PaymentVerificationRequired
    | InvalidSubscriptionState(from: SubscriptionStatus, to: SubscriptionStatus)

  // ----- Plans -----

  /** Monthly price by plan code, the same throughout a run; missing built-in plans are seeded on first use. */
  type Catalogue = map<PlanCode, Cents>

  const SEED_PRICES: Catalogue :=
    map["starter" := 29_900_000, "pro" := 79_900_000, "business" := 199_900_000, "enterprise" := 0]

  function MonthlyPrice(plans: Catalogue, code: PlanCode): Option<Cents> {
    if Lower(code) in plans then Some(plans[Lower(code)])
    else if Lower(code) in SEED_PRICES then Some(SEED_PRICES[Lower(code)])
    else None
  }

  /** Seeding the plans also resets the stored prices of the built-in ones. */
  function Seeded(plans: Catalogue): Catalogue {
    plans + SEED_PRICES
  }

  /** It changes no price exactly when no built-in plan is stored at another price. */
  lemma SeedingIsNeutralIff(plans: Catalogue)
    ensures (forall code :: MonthlyPrice(Seeded(plans), code) == MonthlyPrice(plans, code)) <==>
            (forall code :: code in plans && code in SEED_PRICES ==> plans[code] == SEED_PRICES[code])
  {
    assert Lower("starter") == "starter" && Lower("pro") == "pro";
    assert Lower("business") == "business" && Lower("enterprise") == "enterprise";
    forall code | code in plans && code in SEED_PRICES
      ensures MonthlyPrice(plans, code) == Some(plans[code]) && MonthlyPrice(Seeded(plans), code) == Some(SEED_PRICES[code])
    {
      assert Lower(code) == code;
    }
  }

  /** A year costs twelve months less 15%, to the nearest cent. */
  function BilledAmount(monthly: Cents, cycle: Cycle): Cents {
    if IsYearly(cycle) then (102 * monthly + 5) / 10 else monthly
  }

  /** How far `cents` is from twelve months less 15%, in tenths of a cent. */
  function Gap(monthly: Cents, cents: Cents): nat {
    var tenths := 102 * monthly - 10 * cents;
    if tenths < 0 then -tenths else tenths
  }

  /** There are no ties: a yearly amount is nearer to the exact price than any other number of cents. */
  lemma BilledAmountIsNearest(monthly: Cents, cycle: Cycle, other: Cents)
    ensures IsYearly(cycle) && other != BilledAmount(monthly, cycle) ==>
              Gap(monthly, BilledAmount(monthly, cycle)) < Gap(monthly, other)
    ensures monthly >= 0 ==> (BilledAmount(monthly, cycle) > 0 <==> monthly > 0)
  {
    var billed := (102 * monthly + 5) / 10;
    assert 10 * billed <= 102 * monthly + 5 < 10 * billed + 10;
    assert (102 * monthly + 5) % 10 != 0;
  }

  // ----- The operations -----

  function CurrentView(acc: Account): Option<View> {
    if acc.sub.None? then None else Some(View(acc.sub.value.plan, acc.sub.value.status))
  }

  /** Replaces the subscription and appends the row that records the change. */
  function Recorded(acc: Account, sub: Subscription, actor: Actor): Account {
    Account(Some(sub), acc.history + [HistoryRow(CurrentView(acc), View(sub.plan, sub.status), actor)])
  }

  function CreateTrial(acc: Account, plans: Catalogue, id: SubscriptionId, now: Time, trialDays: int)
    : Result<Account, SubscriptionError>
  {
    if acc.sub.Some? then Ok(acc)
    else
      match MonthlyPrice(plans, "starter")
      case None => Err(PlanNotFound)
      case Some(price) =>
        var end := now + trialDays * DAY;
        Ok(Recorded(acc, Subscription(id, "starter", TRIALING, MONTHLY, price, now, end, Some(end), None, None, None), SYSTEM))
  }

  function PeriodDays(cycle: Cycle): int {
    if IsYearly(cycle) then 365 else 30
  }

  function Activate(acc: Account, plans: Catalogue, id: SubscriptionId, code: PlanCode, cycle: Cycle,
                    actor: Actor, verified: bool, now: Time): Result<Account, SubscriptionError> {
    match MonthlyPrice(plans, code)
    case None => Err(PlanNotFound)
    case Some(price) =>
      var billed := BilledAmount(price, cycle);
      if billed > 0 && !verified then Err(PaymentVerificationRequired)
      else
        var end := now + PeriodDays(cycle) * DAY;
        if acc.sub.None? then
          Ok(Recorded(acc, Subscription(id, Lower(code), ACTIVE, Upper(cycle), billed, now, end, None, None, None, None), actor))
        else
          var sub := acc.sub.value;
          if !SubscriptionAllowed(sub.status, ACTIVE) then Err(InvalidSubscriptionState(sub.status, ACTIVE))
          else
            Ok(Recorded(acc, sub.(plan := Lower(code), status := ACTIVE, cycle := Upper(cycle), amount := billed,
                                  periodStart := now, periodEnd := end), actor))
  }

  function ChangePlan(acc: Account, plans: Catalogue, code: PlanCode, cycle: Option<Cycle>,
                      actor: Actor, verified: bool): Result<Account, SubscriptionError> {
    if acc.sub.None? then Err(SubscriptionNotFound)
    else
      match MonthlyPrice(plans, code)
      case None => Err(PlanNotFound)
      case Some(price) =>
        var sub := acc.sub.value;
        var newCycle := if cycle.Some? && cycle.value != "" then Upper(cycle.value) else sub.cycle;
        var billed := BilledAmount(price, newCycle);
        if billed > 0 && !verified then Err(PaymentVerificationRequired)
        else Ok(Recorded(acc, sub.(plan := Lower(code), cycle := newCycle, amount := billed), actor))
  }

  function Transition(acc: Account, sub: Subscription, target: SubscriptionStatus, actor: Actor)
    : Result<Account, SubscriptionError>
  {
    if !SubscriptionAllowed(sub.status, target) then Err(InvalidSubscriptionState(sub.status, target))
    else Ok(Recorded(acc, sub.(status := target), actor))
  }

  function Cancel(acc: Account, actor: Actor, now: Time): Result<Account, SubscriptionError> {
    if acc.sub.None? then Err(SubscriptionNotFound)
    else Transition(acc, acc.sub.value.(cancelledAt := Some(now)), CANCELLED_PENDING_EXPIRY, actor)
  }

  function ExpireTrial(acc: Account, now: Time): Result<Account, SubscriptionError> {
    if acc.sub.None? then Err(SubscriptionNotFound)
    else
      var sub := acc.sub.value;
      if sub.status.TRIALING? && sub.trialEnd.Some? && now >= sub.trialEnd.value then Transition(acc, sub, EXPIRED, SYSTEM)
      else Ok(acc)
  }

  /** The rung of the payment-failure ladder for a number of days past due. */
  function Rung(daysPastDue: int): Option<SubscriptionStatus> {
    if daysPastDue >= 30 then Some(EXPIRED)
    else if daysPastDue >= 14 then Some(SUSPENDED)
    else if daysPastDue >= 8 then Some(RESTRICTED)
    else if daysPastDue >= 4 then Some(GRACE_PERIOD)
    else if daysPastDue >= 0 then Some(PAST_DUE)
    else None
  }

  /** Entering the last two rungs also stamps the subscription, even when the status does not change. */
  function Stamped(sub: Subscription, daysPastDue: int, now: Time): Subscription {
    if daysPastDue >= 30 then sub.(expiredAt := Some(now))
    else if daysPastDue >= 14 && sub.suspendedAt.None? then sub.(suspendedAt := Some(now))
    else sub
  }

  function Dun(acc: Account, daysPastDue: int, now: Time): Result<Account, SubscriptionError> {
    if acc.sub.None? then Err(SubscriptionNotFound)
    else
      var sub := Stamped(acc.sub.value, daysPastDue, now);
      var rung := Rung(daysPastDue);
      if rung.None? || rung.value == sub.status then Ok(acc.(sub := Some(sub)))
      else Transition(acc, sub, rung.value, SYSTEM)
  }

  datatype Op =
    | CreateTrialOp(id: SubscriptionId, now: Time, trialDays: int)
    | ActivateOp(id: SubscriptionId, code: PlanCode, cycle: Cycle, actor: Actor, verified: bool, now: Time)
    | ChangePlanOp(code: PlanCode, newCycle: Option<Cycle>, actor: Actor, verified: bool)
    | CancelOp(actor: Actor, now: Time)
    | ExpireTrialOp(now: Time)
    | DunOp(daysPastDue: int, now: Time)

  function Apply(acc: Account, plans: Catalogue, op: Op): Result<Account, SubscriptionError> {
    match op
    case CreateTrialOp(id, now, days) => CreateTrial(acc, plans, id, now, days)
    case ActivateOp(id, code, cycle, actor, verified, now) => Activate(acc, plans, id, code, cycle, actor, verified, now)
    case ChangePlanOp(code, cycle, actor, verified) => ChangePlan(acc, plans, code, cycle, actor, verified)
    case CancelOp(actor, now) => Cancel(acc, actor, now)
    case ExpireTrialOp(now) => ExpireTrial(acc, now)
    case DunOp(days, now) => Dun(acc, days, now)
  }

  /** One request: a refused operation is rolled back. */
  function Request(acc: Account, plans: Catalogue, op: Op): Account {
    match Apply(acc, plans, op)
    case Ok(after) => after
    case Err(_) => acc
  }

  function Run(acc: Account, plans: Catalogue, ops: seq<Op>): Account {
    if ops == [] then acc else Request(Run(acc, plans, ops[..|ops| - 1]), plans, ops[|ops| - 1])
  }

  // ----- What each operation grants -----

  /** The price asked for a plan, whatever the case of its code: the stored one, or else the built-in one. */
  lemma PriceOf(plans: Catalogue, code: PlanCode)
    ensures Lower(code) in plans ==> MonthlyPrice(plans, code) == Some(plans[Lower(code)])
    ensures Lower(code) !in plans ==>
              (MonthlyPrice(plans, code).Some? <==> Lower(code) in {"starter", "pro", "business", "enterprise"})
    ensures forall other :: Lower(other) == Lower(code) ==> MonthlyPrice(plans, other) == MonthlyPrice(plans, code)
  {
  }

  /** The subscription row and history after a change by `actor`. */
  predicate Changed(acc: Account, after: Account, sub: Subscription, actor: Actor) {
    && after.sub == Some(sub)
    && |after.history| == |acc.history| + 1
    && acc.history <= after.history
    && after.history[|acc.history|].actor == actor
    && after.history[|acc.history|].next.status == sub.status
    && after.history[|acc.history|].next.plan == sub.plan
  }

  /**
    An activation is accepted exactly for a known plan that is free or vouched for, unless the subscription
    is archived.  It buys the requested plan and cycle for 365 days if the cycle is YEARLY, in whatever
    case, and for 30 days otherwise, from now on; nothing else about an existing subscription changes.
   */
  lemma ActivationTerms(acc: Account, plans: Catalogue, id: SubscriptionId, code: PlanCode, cycle: Cycle,
                        actor: Actor, verified: bool, now: Time)
    ensures Activate(acc, plans, id, code, cycle, actor, verified, now).Ok? <==>
              && MonthlyPrice(plans, code).Some?
              && (MonthlyPrice(plans, code).value > 0 ==> verified)
              && (acc.sub.Some? ==> !acc.sub.value.status.ARCHIVED?)
    ensures Activate(acc, plans, id, code, cycle, actor, verified, now).Ok? ==>
              var after := Activate(acc, plans, id, code, cycle, actor, verified, now).value;
              && after.sub.Some?
              && var sub := after.sub.value;
              && Changed(acc, after, sub, actor)
              && sub.status.ACTIVE? && sub.plan == Lower(code) && sub.cycle == Upper(cycle)
              && sub.periodStart == now
              && sub.periodEnd == now + (if Upper(cycle) == "YEARLY" then 365 else 30) * 86_400
              && sub.amount == (if Upper(cycle) == "YEARLY" then (102 * MonthlyPrice(plans, code).value + 5) / 10
                                else MonthlyPrice(plans, code).value)
              && (acc.sub.None? ==>
                    && sub.id == id && sub.trialEnd.None? && sub.cancelledAt.None? && sub.suspendedAt.None? && sub.expiredAt.None?)
              && (acc.sub.Some? ==>
                    sub == acc.sub.value.(plan := sub.plan, status := ACTIVE, cycle := sub.cycle, amount := sub.amount,
                                          periodStart := sub.periodStart, periodEnd := sub.periodEnd))
  {
  }

  /** Why an activation or a plan change is refused. */
  lemma RefusedPurchase(acc: Account, plans: Catalogue, id: SubscriptionId, code: PlanCode, cycle: Cycle, actor: Actor,
                        verified: bool, now: Time)
    ensures var reply := Activate(acc, plans, id, code, cycle, actor, verified, now);
            var unpaid := MonthlyPrice(plans, code).Some? && MonthlyPrice(plans, code).value > 0 && !verified;
            && (reply == Err(PlanNotFound) <==> MonthlyPrice(plans, code).None?)
            && (reply == Err(PaymentVerificationRequired) <==> unpaid)
            && (reply.Err? && !unpaid && MonthlyPrice(plans, code).Some? ==>
                  acc.sub.Some? && reply == Err(InvalidSubscriptionState(acc.sub.value.status, ACTIVE)))
    ensures var reply := ChangePlan(acc, plans, code, Some(cycle), actor, verified);
            && (reply == Err(SubscriptionNotFound) <==> acc.sub.None?)
            && (reply == Err(PlanNotFound) <==> acc.sub.Some? && MonthlyPrice(plans, code).None?)
            && (reply.Err? ==> reply.error in {SubscriptionNotFound, PlanNotFound, PaymentVerificationRequired})
  {
  }

  /** A first subscription is a trial of the starter plan for the given days; a tenant that has one keeps it. */
  lemma TrialTerms(acc: Account, plans: Catalogue, id: SubscriptionId, now: Time, trialDays: int)
    ensures CreateTrial(acc, plans, id, now, trialDays).Ok?
    ensures var after := CreateTrial(acc, plans, id, now, trialDays).value;
            && (acc.sub.Some? ==> after == acc)
            && (acc.sub.None? ==>
                  && after.sub.Some?
                  && Changed(acc, after, after.sub.value, SYSTEM)
                  && after.sub.value.status.TRIALING? && after.sub.value.plan == "starter" && after.sub.value.cycle == "MONTHLY"
                  && after.sub.value.periodStart == now
                  && after.sub.value.periodEnd == now + trialDays * 86_400
                  && after.sub.value.trialEnd == Some(now + trialDays * 86_400))
  {
    assert Lower("starter") == "starter";
  }

  /** A plan change is accepted exactly for a known plan that is free or vouched for; status and period stay. */
  lemma PlanChangeTerms(acc: Account, plans: Catalogue, code: PlanCode, cycle: Option<Cycle>, actor: Actor, verified: bool)
    ensures ChangePlan(acc, plans, code, cycle, actor, verified).Ok? <==>
              && acc.sub.Some?
              && MonthlyPrice(plans, code).Some?
              && (MonthlyPrice(plans, code).value > 0 ==> verified)
    ensures ChangePlan(acc, plans, code, cycle, actor, verified).Ok? ==>
              var after := ChangePlan(acc, plans, code, cycle, actor, verified).value;
              && after.sub.Some?
              && var sub := after.sub.value;
              && Changed(acc, after, sub, actor)
              && sub == acc.sub.value.(plan := Lower(code), cycle := sub.cycle, amount := sub.amount)
              && sub.cycle == (if cycle in {None, Some("")} then acc.sub.value.cycle else Upper(cycle.value))
  {
  }

  /** Trials and active subscriptions can be cancelled, and cancelled ones again; plan and period stay. */
  lemma CancellationTerms(acc: Account, actor: Actor, now: Time)
    ensures Cancel(acc, actor, now).Ok? <==>
              acc.sub.Some? && acc.sub.value.status in {TRIALING, ACTIVE, CANCELLED_PENDING_EXPIRY}
    ensures Cancel(acc, actor, now).Ok? ==>
              var after := Cancel(acc, actor, now).value;
              after.sub.Some? &&
              Changed(acc, after, acc.sub.value.(status := CANCELLED_PENDING_EXPIRY, cancelledAt := Some(now)), actor)
  {
  }

  /** A trial with an end expires from that moment on, and only then; anything else stays as it is. */
  lemma ExpiryTerms(acc: Account, now: Time)
    ensures ExpireTrial(acc, now).Ok? <==> acc.sub.Some?
    ensures acc.sub.Some? ==>
              var sub, after := acc.sub.value, ExpireTrial(acc, now).value;
              if sub.status.TRIALING? && sub.trialEnd.Some? && sub.trialEnd.value <= now
              then Changed(acc, after, sub.(status := EXPIRED), SYSTEM)
              else after == acc
  {
  }

  /** The status a dunning call ends with, and what it stamps; plan and period stay. */
  lemma DunningTerms(acc: Account, daysPastDue: int, now: Time)
    requires Dun(acc, daysPastDue, now).Ok?
    ensures acc.sub.Some? && Dun(acc, daysPastDue, now).value.sub.Some?
    ensures var had, has := acc.sub.value, Dun(acc, daysPastDue, now).value.sub.value;
            && has == had.(status := has.status, suspendedAt := has.suspendedAt, expiredAt := has.expiredAt)
            && (daysPastDue < 0 ==> has == had)
            && (0 <= daysPastDue < 4 ==> has.status.PAST_DUE?)
            && (4 <= daysPastDue < 8 ==> has.status.GRACE_PERIOD?)
            && (8 <= daysPastDue < 14 ==> has.status.RESTRICTED?)
            && (14 <= daysPastDue < 30 ==>
                  has.status.SUSPENDED? && has.suspendedAt == if had.suspendedAt.Some? then had.suspendedAt else Some(now))
            && (30 <= daysPastDue ==> has.status.EXPIRED? && has.expiredAt == Some(now))
            && (daysPastDue < 14 || 30 <= daysPastDue ==> has.suspendedAt == had.suspendedAt)
            && (daysPastDue < 30 ==> has.expiredAt == had.expiredAt)
  {
  }

  // ----- The history is a faithful log -----

  predicate RowAllowed(row: HistoryRow) {
    row.previous.Some? ==> SubscriptionAllowed(row.previous.value.status, row.next.status)
  }

  /** Replays the rows; stuck (None) at a row that does not start where the one before it ended, or makes a forbidden step. */
  function Replay(history: seq<HistoryRow>): Option<Option<View>> {
    if history == [] then Some(None)
    else
      var row := history[|history| - 1];
      match Replay(history[..|history| - 1])
      case None => None
      case Some(before) => if row.previous == before && RowAllowed(row) then Some(Some(row.next)) else None
  }

  predicate Faithful(acc: Account) {
    Replay(acc.history) == Some(CurrentView(acc))
  }

  lemma RecordedIsFaithful(acc: Account, sub: Subscription, actor: Actor)
    requires Faithful(acc)
    requires acc.sub.Some? ==> SubscriptionAllowed(acc.sub.value.status, sub.status)
    ensures Faithful(Recorded(acc, sub, actor))
  {
    var after := Recorded(acc, sub, actor);
    assert after.history[..|after.history| - 1] == acc.history;
  }

  /** Every operation keeps the log faithful, never edits an old row, and writes at most one new one. */
  lemma ApplyKeepsLog(acc: Account, plans: Catalogue, op: Op)
    requires Faithful(acc) && Apply(acc, plans, op).Ok?
    ensures var after := Apply(acc, plans, op).value;
            && Faithful(after)
            && acc.history <= after.history
            && |after.history| <= |acc.history| + 1
            && (CurrentView(after) != CurrentView(acc) ==> |after.history| == |acc.history| + 1)
  {
    var after := Apply(acc, plans, op).value;
    if |after.history| == |acc.history| + 1 {
      var actor := after.history[|acc.history|].actor;
      assert after == Recorded(acc, after.sub.value, actor);
      RecordedIsFaithful(acc, after.sub.value, actor);
    }
  }

  /** From no subscription at all, any sequence of operations leaves a log whose replay is the present. */
  lemma {:induction false} HistoryIsFaithful(plans: Catalogue, ops: seq<Op>)
    ensures Faithful(Run(NO_ACCOUNT, plans, ops))
  {
    if ops != [] {
      var before := Run(NO_ACCOUNT, plans, ops[..|ops| - 1]);
      HistoryIsFaithful(plans, ops[..|ops| - 1]);
      if Apply(before, plans, ops[|ops| - 1]).Ok? {
        ApplyKeepsLog(before, plans, ops[|ops| - 1]);
      }
    }
  }

  lemma {:induction false} ReplayChains(history: seq<HistoryRow>, i: nat)
    requires Replay(history).Some? && i < |history|
    ensures RowAllowed(history[i])
    ensures history[i].previous == if i == 0 then None else Some(history[i - 1].next)
  {
    var n := |history| - 1;
    if i < n {
      ReplayChains(history[..n], i);
    } else if n > 0 {
      assert history[..n][n - 1] == history[n - 1];
    }
  }

  predicate NotArchived(acc: Account) {
    acc.sub.Some? ==> !acc.sub.value.status.ARCHIVED?
  }

  lemma ApplyNeverArchives(acc: Account, plans: Catalogue, op: Op)
    requires NotArchived(acc)
    ensures NotArchived(Request(acc, plans, op))
  {
  }

  lemma {:induction false} NeverArchived(plans: Catalogue, ops: seq<Op>)
    ensures NotArchived(Run(NO_ACCOUNT, plans, ops))
  {
    if ops != [] {
      NeverArchived(plans, ops[..|ops| - 1]);
      ApplyNeverArchives(Run(NO_ACCOUNT, plans, ops[..|ops| - 1]), plans, ops[|ops| - 1]);
    }
  }

  // ----- Prices -----

  /** The amount on the subscription is what its own plan and cycle cost. */
  predicate Priced(acc: Account, plans: Catalogue) {
    acc.sub.Some? ==>
      var sub := acc.sub.value;
      MonthlyPrice(plans, sub.plan).Some? && sub.amount == BilledAmount(MonthlyPrice(plans, sub.plan).value, sub.cycle)
  }

  lemma ApplyKeepsPrice(acc: Account, plans: Catalogue, op: Op)
    requires Priced(acc, plans) && Apply(acc, plans, op).Ok?
    ensures Priced(Apply(acc, plans, op).value, plans)
  {
    match op
    case ActivateOp(_, code, cycle, _, _, _) =>
      LowerIsIdempotent(code);
      UpperIsIdempotent(cycle);
    case ChangePlanOp(code, _, _, _) => LowerIsIdempotent(code);
    case CreateTrialOp(_, _, _) => assert Lower("starter") == "starter";
    case _ =>
  }

  /** Whatever is changed in whatever order, the amount stays the price of the current plan and cycle. */
  lemma {:induction false} PriceFollowsPlan(plans: Catalogue, ops: seq<Op>)
    ensures Priced(Run(NO_ACCOUNT, plans, ops), plans)
  {
    if ops != [] {
      PriceFollowsPlan(plans, ops[..|ops| - 1]);
      var before := Run(NO_ACCOUNT, plans, ops[..|ops| - 1]);
      if Apply(before, plans, ops[|ops| - 1]).Ok? {
        ApplyKeepsPrice(before, plans, ops[|ops| - 1]);
      }
    }
  }

  predicate Unverified(op: Op) {
    (op.ActivateOp? || op.ChangePlanOp?) ==> !op.verified
  }

  /** As long as nobody vouches for a payment, a subscription is ACTIVE only on a plan that costs nothing. */
  lemma {:induction false} UnpaidIsActiveOnlyIfFree(plans: Catalogue, ops: seq<Op>)
    requires forall k :: 0 <= k < |ops| ==> Unverified(ops[k])
    ensures var sub := Run(NO_ACCOUNT, plans, ops).sub;
            sub.Some? && sub.value.status.ACTIVE? ==> sub.value.amount <= 0
  {
    if ops != [] {
      UnpaidIsActiveOnlyIfFree(plans, ops[..|ops| - 1]);
      assert Unverified(ops[|ops| - 1]);
    }
  }

  // ----- The payment-failure ladder -----

  predicate OnLadder(status: SubscriptionStatus) {
    status in {PAST_DUE, GRACE_PERIOD, RESTRICTED, SUSPENDED, EXPIRED}
  }

  function Severity(status: SubscriptionStatus): nat {
    match status
    case PAST_DUE => 1
    case GRACE_PERIOD => 2
    case RESTRICTED => 3
    case SUSPENDED => 4
    case EXPIRED => 5
    case ARCHIVED => 6
    case _ => 0
  }

  /** Between rungs a dunning call succeeds exactly when it does not go down. */
  lemma DunSucceedsIffNotDown(acc: Account, daysPastDue: nat, now: Time)
    requires acc.sub.Some? && OnLadder(acc.sub.value.status)
    ensures Dun(acc, daysPastDue, now).Ok? <==> Severity(acc.sub.value.status) <= Severity(Rung(daysPastDue).value)
    ensures Dun(acc, daysPastDue, now).Ok? ==> Dun(acc, daysPastDue, now).value.sub.value.status == Rung(daysPastDue).value
  {
  }

  /**
    A first dunning call can miss the ladder: days 4 to 7 are refused from ACTIVE, days 4 to 29 from a
    trial, and every day before the 30th from a cancelled subscription.
   */
  lemma FirstDunningCall(acc: Account, daysPastDue: nat, now: Time)
    requires acc.sub.Some?
    ensures acc.sub.value.status.ACTIVE? ==> (Dun(acc, daysPastDue, now).Ok? <==> !(4 <= daysPastDue < 8))
    ensures acc.sub.value.status.TRIALING? ==> (Dun(acc, daysPastDue, now).Ok? <==> !(4 <= daysPastDue < 30))
    ensures acc.sub.value.status.CANCELLED_PENDING_EXPIRY? ==> (Dun(acc, daysPastDue, now).Ok? <==> daysPastDue >= 30)
    ensures acc.sub.value.status.ARCHIVED? ==> Dun(acc, daysPastDue, now).Err?
  {
  }

  function DunAll(acc: Account, days: seq<int>, now: Time): Result<Account, SubscriptionError> {
    if days == [] then Ok(acc)
    else
      match DunAll(acc, days[..|days| - 1], now)
      case Err(e) => Err(e)
      case Ok(before) => Dun(before, days[|days| - 1], now)
  }

  /** From PAST_DUE, calls with non-decreasing days all succeed and end on the rung of the last one. */
  lemma {:induction false} DunningClimbs(acc: Account, days: seq<int>, now: Time)
    requires acc.sub.Some? && acc.sub.value.status.PAST_DUE?
    requires forall i :: 0 <= i < |days| ==> 0 <= days[i]
    requires forall i, j :: 0 <= i < j < |days| ==> days[i] <= days[j]
    ensures DunAll(acc, days, now).Ok? && DunAll(acc, days, now).value.sub.Some?
    ensures var status := DunAll(acc, days, now).value.sub.value.status;
            status == if days == [] then PAST_DUE else Rung(days[|days| - 1]).value
  {
    if days != [] {
      var n := |days| - 1;
      DunningClimbs(acc, days[..n], now);
      var before := DunAll(acc, days[..n], now).value;
      if n > 0 {
        assert days[..n][n - 1] == days[n - 1] <= days[n];
      }
      DunSucceedsIffNotDown(before, days[n], now);
    }
  }

  /** In any faithful log, severity does not fall along a stretch that never passes through ACTIVE. */
  lemma {:induction false} SeverityNeverFalls(history: seq<HistoryRow>, i: nat, j: nat)
    requires Replay(history).Some? && i <= j < |history|
    requires OnLadder(history[i].next.status)
    requires forall k :: i < k <= j ==> !history[k].next.status.ACTIVE?
    ensures Severity(history[i].next.status) <= Severity(history[j].next.status)
    decreases j - i
  {
    if i < j {
      SeverityNeverFalls(history, i, j - 1);
      ReplayChains(history, j);
    }
  }
}
