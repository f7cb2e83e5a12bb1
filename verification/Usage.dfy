/**
  Usage metering: one record per accepted increment, checked against the tenant's limit, and an
  event each time a period's usage crosses 70, 85 or 100 percent of it.
 */
module Usage {
  import opened Results
  import opened Subscriptions
  import opened Entitlement

  type Tenant = nat

  datatype Policy = BLOCK | WARN | ALLOW | APPROVED_OVERAGE | DEGRADE | Unsupported(name: string)

  datatype UsageRecord = UsageRecord(tenant: Tenant, metric: Metric, start: Time, end: Time, quantity: int)

  datatype EventKind = LimitWarning | OverageAllowed | Degraded | Crossed(percent: int)
  datatype Event = Event(tenant: Tenant, metric: Metric, kind: EventKind)

  datatype Meter = Meter(records: seq<UsageRecord>, events: seq<Event>)

  datatype UsageError = NoCurrentPeriod | LimitExceeded | UnsupportedPolicy

  /** An increment together with the period and limit in force when it is made. */
  datatype Call = Call(tenant: Tenant, metric: Metric, quantity: int, policy: Policy, start: Time, end: Time, limit: int)

  predicate Counts(record: UsageRecord, tenant: Tenant, metric: Metric, start: Time, end: Time) {
    record.tenant == tenant && record.metric == metric && record.start >= start && record.end <= end
  }

  function CurrentUsage(records: seq<UsageRecord>, tenant: Tenant, metric: Metric, start: Time, end: Time): int {
    if records == [] then 0
    else
      var last := records[|records| - 1];
      CurrentUsage(records[..|records| - 1], tenant, metric, start, end) +
      if Counts(last, tenant, metric, start, end) then last.quantity else 0
  }

  predicate OverLimit(limit: int, projected: int) {
    limit != UNLIMITED && projected > limit
  }

  /** What a policy makes of an increment past the limit: an event to publish, or a refusal. */
  function Overage(policy: Policy): Result<EventKind, UsageError> {
    match policy
    case BLOCK => Err(LimitExceeded)
    case WARN => Ok(LimitWarning)
    case ALLOW => Ok(OverageAllowed)
    case APPROVED_OVERAGE => Ok(OverageAllowed)
    case DEGRADE => Ok(Degraded)
    case Unsupported(_) => Err(UnsupportedPolicy)
  }

  predicate Accepted(call: Call, usage: int) {
    OverLimit(call.limit, usage + call.quantity) ==> Overage(call.policy).Ok?
  }

  predicate Crosses(limit: int, before: int, after: int, percent: int) {
    limit > 0 && 100 * before < percent * limit <= 100 * after
  }

  function CrossingEvent(call: Call, before: int, after: int, percent: int): seq<Event> {
    if Crosses(call.limit, before, after, percent) then [Event(call.tenant, call.metric, Crossed(percent))] else []
  }

  function CrossingEvents(call: Call, before: int, after: int): seq<Event> {
    CrossingEvent(call, before, after, 70) + CrossingEvent(call, before, after, 85) + CrossingEvent(call, before, after, 100)
  }

  function OverageEvents(call: Call, after: int): seq<Event> {
    if OverLimit(call.limit, after) && Overage(call.policy).Ok? then [Event(call.tenant, call.metric, Overage(call.policy).value)]
    else []
  }

  function UsageFor(meter: Meter, call: Call): int {
    CurrentUsage(meter.records, call.tenant, call.metric, call.start, call.end)
  }

  function Increment(meter: Meter, call: Call): Result<Meter, UsageError> {
    var before := UsageFor(meter, call);
    var after := before + call.quantity;
    if !Accepted(call, before) then Err(Overage(call.policy).error)
    else
      Ok(Meter(meter.records + [UsageRecord(call.tenant, call.metric, call.start, call.end, call.quantity)],
               meter.events + OverageEvents(call, after) + CrossingEvents(call, before, after)))
  }

  /** A refused call changes nothing. */
  function After(meter: Meter, call: Call): Meter {
    match Increment(meter, call)
    case Ok(next) => next
    case Err(_) => meter
  }

  function Run(meter: Meter, calls: seq<Call>): Meter
    decreases |calls|
  {
    if calls == [] then meter else Run(After(meter, calls[0]), calls[1..])
  }

  class UsageService {
    var meter: Meter

    constructor ()
      ensures meter == Meter([], [])
    {
      meter := Meter([], []);
    }

    method Publish(event: Event)
      modifies this
      ensures meter == old(meter).(events := old(meter).events + [event])
    {
      meter := meter.(events := meter.events + [event]);
    }

    method CheckAndIncrement(tables: Tables, sub: Option<Subscription>, tenant: Tenant, metric: Metric,
                             quantity: int, policy: Policy, now: Time) returns (result: Result<UsageRecord, UsageError>)
      modifies this
      ensures sub.None? ==> result == Err(NoCurrentPeriod) && meter == old(meter)
      ensures sub.Some? ==>
                var call := Call(tenant, metric, quantity, policy, sub.value.periodStart, sub.value.periodEnd,
                                 EffectiveLimit(tables, sub, metric, now));
                match Increment(old(meter), call)
                case Ok(next) => meter == next && result == Ok(next.records[|next.records| - 1])
                case Err(error) => meter == old(meter) && result == Err(error)
    {
      if sub.None? {
        return Err(NoCurrentPeriod);
      }
      var start, end := sub.value.periodStart, sub.value.periodEnd;
      var limit := GetLimit(tables, sub, metric, now);
      var current := CurrentUsage(meter.records, tenant, metric, start, end);
      var projected := current + quantity;
      if limit != UNLIMITED && projected > limit {
        match policy
        case BLOCK => return Err(LimitExceeded);
        case WARN => Publish(Event(tenant, metric, LimitWarning));
        case ALLOW => Publish(Event(tenant, metric, OverageAllowed));
        case APPROVED_OVERAGE => Publish(Event(tenant, metric, OverageAllowed));
        case DEGRADE => Publish(Event(tenant, metric, Degraded));
        case Unsupported(_) => return Err(UnsupportedPolicy);
      }
      var record := UsageRecord(tenant, metric, start, end, quantity);
      meter := meter.(records := meter.records + [record]);
      PublishCrossings(Call(tenant, metric, quantity, policy, start, end, limit), current, projected);
      return Ok(record);
    }

    method PublishCrossings(call: Call, current: int, projected: int)
      modifies this
      ensures meter == old(meter).(events := old(meter).events + CrossingEvents(call, current, projected))
    {
      var limit := call.limit;
      if limit > 0 {
        if 100 * current < 70 * limit <= 100 * projected {
          Publish(Event(call.tenant, call.metric, Crossed(70)));
        }
        if 100 * current < 85 * limit <= 100 * projected {
          Publish(Event(call.tenant, call.metric, Crossed(85)));
        }
        if 100 * current < 100 * limit <= 100 * projected {
          Publish(Event(call.tenant, call.metric, Crossed(100)));
        }
      }
    }
  }

  // ----- Whole runs -----

  /** One tenant's metric in one period, with the limit that holds throughout. */
  datatype Allowance = Allowance(tenant: Tenant, metric: Metric, start: Time, end: Time, limit: int)

  predicate Concerns(call: Call, allowance: Allowance) {
    call.tenant == allowance.tenant && call.metric == allowance.metric
  }

  predicate Steady(calls: seq<Call>, allowance: Allowance) {
    forall k :: 0 <= k < |calls| && Concerns(calls[k], allowance) ==>
      && calls[k].start == allowance.start
      && calls[k].end == allowance.end
      && calls[k].limit == allowance.limit
  }

  /** No quantity is a correction. */
  predicate OnlyAdds(calls: seq<Call>, allowance: Allowance) {
    forall k :: 0 <= k < |calls| && Concerns(calls[k], allowance) ==> calls[k].quantity >= 0
  }

  predicate AllBlock(calls: seq<Call>, allowance: Allowance) {
    forall k :: 0 <= k < |calls| && Concerns(calls[k], allowance) ==> calls[k].policy.BLOCK?
  }

  function Used(meter: Meter, allowance: Allowance): int {
    CurrentUsage(meter.records, allowance.tenant, allowance.metric, allowance.start, allowance.end)
  }

  /** The quantities of the allowance's calls that were accepted. */
  function AcceptedTotal(meter: Meter, calls: seq<Call>, allowance: Allowance): int
    decreases |calls|
  {
    if calls == [] then 0
    else
      (if Concerns(calls[0], allowance) && Increment(meter, calls[0]).Ok? then calls[0].quantity else 0) +
      AcceptedTotal(After(meter, calls[0]), calls[1..], allowance)
  }

  function Fired(events: seq<Event>, allowance: Allowance, percent: int): nat {
    if events == [] then 0
    else
      Fired(events[..|events| - 1], allowance, percent) +
      if events[|events| - 1] == Event(allowance.tenant, allowance.metric, Crossed(percent)) then 1 else 0
  }

  lemma OneCall(meter: Meter, call: Call, allowance: Allowance)
    requires Steady([call], allowance)
    ensures Used(After(meter, call), allowance) ==
            Used(meter, allowance) + (if Concerns(call, allowance) && Increment(meter, call).Ok? then call.quantity else 0)
    ensures AllBlock([call], allowance) && allowance.limit != UNLIMITED && Used(meter, allowance) <= allowance.limit ==>
              Used(After(meter, call), allowance) <= allowance.limit
  {
    assert Concerns(call, allowance) ==> [call][0].start == allowance.start;
    if Increment(meter, call).Ok? {
      var records := After(meter, call).records;
      assert records[..|records| - 1] == meter.records;
    }
    if AllBlock([call], allowance) && Concerns(call, allowance) {
      assert [call][0].policy.BLOCK?;
    }
  }

  lemma {:induction false} FiredAppend(a: seq<Event>, b: seq<Event>, allowance: Allowance, percent: int)
    ensures Fired(a + b, allowance, percent) == Fired(a, allowance, percent) + Fired(b, allowance, percent)
  {
    if b == [] {
      assert a + b == a;
    } else {
      assert (a + b)[..|a + b| - 1] == a + b[..|b| - 1];
      FiredAppend(a, b[..|b| - 1], allowance, percent);
    }
  }

  lemma OverageIsNoCrossing(call: Call, after: int, allowance: Allowance, percent: int)
    ensures Fired(OverageEvents(call, after), allowance, percent) == 0
  {
    var events := OverageEvents(call, after);
    if events != [] {
      assert events[..|events| - 1] == [];
    }
  }

  lemma EventFires(call: Call, before: int, after: int, at: int, allowance: Allowance, percent: int)
    ensures Fired(CrossingEvent(call, before, after, at), allowance, percent) ==
            if at == percent && Concerns(call, allowance) && Crosses(call.limit, before, after, percent) then 1 else 0
  {
    var events := CrossingEvent(call, before, after, at);
    if events != [] {
      assert events[..|events| - 1] == [];
    }
  }

  lemma CrossingFires(call: Call, before: int, after: int, allowance: Allowance, percent: int)
    requires percent in {70, 85, 100}
    ensures Fired(CrossingEvents(call, before, after), allowance, percent) ==
            if Concerns(call, allowance) && Crosses(call.limit, before, after, percent) then 1 else 0
  {
    var at70, at85 := CrossingEvent(call, before, after, 70), CrossingEvent(call, before, after, 85);
    var at100 := CrossingEvent(call, before, after, 100);
    FiredAppend(at70 + at85, at100, allowance, percent);
    FiredAppend(at70, at85, allowance, percent);
    EventFires(call, before, after, 70, allowance, percent);
    EventFires(call, before, after, 85, allowance, percent);
    EventFires(call, before, after, 100, allowance, percent);
  }

  lemma IncrementFires(meter: Meter, call: Call, allowance: Allowance, percent: int)
    requires Increment(meter, call).Ok? && percent in {70, 85, 100}
    ensures Fired(After(meter, call).events, allowance, percent) ==
            Fired(meter.events, allowance, percent) +
            var before := UsageFor(meter, call);
            if Concerns(call, allowance) && Crosses(call.limit, before, before + call.quantity, percent) then 1 else 0
  {
    var before := UsageFor(meter, call);
    var after := before + call.quantity;
    assert After(meter, call).events == meter.events + OverageEvents(call, after) + CrossingEvents(call, before, after);
    PublishedFires(meter.events, call, before, after, allowance, percent);
  }

  lemma PublishedFires(events: seq<Event>, call: Call, before: int, after: int, allowance: Allowance, percent: int)
    requires percent in {70, 85, 100}
    ensures Fired(events + OverageEvents(call, after) + CrossingEvents(call, before, after), allowance, percent) ==
            Fired(events, allowance, percent) +
            if Concerns(call, allowance) && Crosses(call.limit, before, after, percent) then 1 else 0
  {
    FiredAppend(events + OverageEvents(call, after), CrossingEvents(call, before, after), allowance, percent);
    FiredAppend(events, OverageEvents(call, after), allowance, percent);
    OverageIsNoCrossing(call, after, allowance, percent);
    CrossingFires(call, before, after, allowance, percent);
  }

  predicate Reached(allowance: Allowance, usage: int, percent: int) {
    percent * allowance.limit <= 100 * usage
  }

  function Count(b: bool): nat {
    if b then 1 else 0
  }

  /** The call is accepted and takes usage from a threshold to below it. */
  predicate FallsBack(meter: Meter, call: Call, allowance: Allowance, percent: int) {
    && Concerns(call, allowance) && Increment(meter, call).Ok?
    && Reached(allowance, Used(meter, allowance), percent)
    && !Reached(allowance, Used(meter, allowance) + call.quantity, percent)
  }

  /** How often the calls of a run fall back behind a threshold. */
  function FallBacks(meter: Meter, calls: seq<Call>, allowance: Allowance, percent: int): nat
    decreases |calls|
  {
    if calls == [] then 0
    else
      Count(FallsBack(meter, calls[0], allowance, percent)) +
      FallBacks(After(meter, calls[0]), calls[1..], allowance, percent)
  }

  /** What one call adds to the firings of a threshold, for any quantity. */
  lemma OneCallFires(meter: Meter, call: Call, allowance: Allowance, percent: int)
    requires Steady([call], allowance) && allowance.limit > 0 && percent in {70, 85, 100}
    ensures Fired(After(meter, call).events, allowance, percent) + Count(Reached(allowance, Used(meter, allowance), percent)) ==
            Fired(meter.events, allowance, percent) + Count(Reached(allowance, Used(After(meter, call), allowance), percent)) +
            Count(FallsBack(meter, call, allowance, percent))
  {
    OneCall(meter, call, allowance);
    assert Concerns(call, allowance) ==> [call][0].start == allowance.start;
    if Increment(meter, call).Ok? {
      IncrementFires(meter, call, allowance, percent);
    }
  }

  /** Usage is the sum of what was accepted, over any run that mixes tenants, metrics and policies. */
  lemma {:induction false} UsageIsWhatWasAccepted(meter: Meter, calls: seq<Call>, allowance: Allowance)
    requires Steady(calls, allowance)
    ensures Used(Run(meter, calls), allowance) == Used(meter, allowance) + AcceptedTotal(meter, calls, allowance)
    ensures OnlyAdds(calls, allowance) ==> Used(Run(meter, calls), allowance) >= Used(meter, allowance)
    decreases |calls|
  {
    if calls != [] {
      assert Steady([calls[0]], allowance) && Steady(calls[1..], allowance);
      assert OnlyAdds(calls, allowance) ==> OnlyAdds(calls[1..], allowance);
      OneCall(meter, calls[0], allowance);
      UsageIsWhatWasAccepted(After(meter, calls[0]), calls[1..], allowance);
    }
  }

  /** If every call blocks at the limit, the limit holds at the end of every run. */
  lemma {:induction false} BlockingKeepsTheLimit(meter: Meter, calls: seq<Call>, allowance: Allowance)
    requires Steady(calls, allowance) && AllBlock(calls, allowance)
    requires allowance.limit != UNLIMITED && Used(meter, allowance) <= allowance.limit
    ensures Used(Run(meter, calls), allowance) <= allowance.limit
    decreases |calls|
  {
    if calls != [] {
      assert Steady([calls[0]], allowance) && Steady(calls[1..], allowance);
      assert AllBlock([calls[0]], allowance) && AllBlock(calls[1..], allowance);
      OneCall(meter, calls[0], allowance);
      BlockingKeepsTheLimit(After(meter, calls[0]), calls[1..], allowance);
    }
  }

  /**
    Over any run, corrections included, a threshold fires once for every time usage gets there: as often
    as it fell back behind it, and once more if it ends there without having begun there.
   */
  lemma {:induction false} ThresholdFirings(meter: Meter, calls: seq<Call>, allowance: Allowance, percent: int)
    requires Steady(calls, allowance) && allowance.limit > 0 && percent in {70, 85, 100}
    ensures var end := Run(meter, calls);
            Fired(end.events, allowance, percent) + Count(Reached(allowance, Used(meter, allowance), percent)) ==
            Fired(meter.events, allowance, percent) + Count(Reached(allowance, Used(end, allowance), percent)) +
            FallBacks(meter, calls, allowance, percent)
    decreases |calls|
  {
    if calls != [] {
      assert Steady([calls[0]], allowance) && Steady(calls[1..], allowance);
      OneCallFires(meter, calls[0], allowance, percent);
      ThresholdFirings(After(meter, calls[0]), calls[1..], allowance, percent);
    }
  }

  /** So in a period that begins below it a threshold fires as usage says if and only if no call fell back behind it. */
  lemma EachThresholdFiresOnceIff(meter: Meter, calls: seq<Call>, allowance: Allowance, percent: int)
    requires Steady(calls, allowance) && allowance.limit > 0 && percent in {70, 85, 100}
    requires !Reached(allowance, Used(meter, allowance), percent)
    ensures var end := Run(meter, calls);
            Fired(end.events, allowance, percent) ==
              Fired(meter.events, allowance, percent) + Count(Reached(allowance, Used(end, allowance), percent))
            <==> FallBacks(meter, calls, allowance, percent) == 0
  {
    ThresholdFirings(meter, calls, allowance, percent);
  }

  /** The firings of a threshold agree with usage: none below it, one from it on. */
  predicate Agrees(meter: Meter, allowance: Allowance, percent: int) {
    Fired(meter.events, allowance, percent) == Count(Reached(allowance, Used(meter, allowance), percent))
  }

  /** What a caller can check before a call: it keeps the firings in step with usage if and only if it does not fall back. */
  lemma AgreementSurvivesIff(meter: Meter, call: Call, allowance: Allowance, percent: int)
    requires Steady([call], allowance) && allowance.limit > 0 && percent in {70, 85, 100}
    requires Agrees(meter, allowance, percent)
    ensures Agrees(After(meter, call), allowance, percent) <==> !FallsBack(meter, call, allowance, percent)
  {
    OneCallFires(meter, call, allowance, percent);
  }

  lemma {:induction false} AddingNeverFallsBack(meter: Meter, calls: seq<Call>, allowance: Allowance, percent: int)
    requires OnlyAdds(calls, allowance)
    ensures FallBacks(meter, calls, allowance, percent) == 0
    decreases |calls|
  {
    if calls != [] {
      assert Concerns(calls[0], allowance) ==> calls[0].quantity >= 0;
      assert OnlyAdds(calls[1..], allowance);
      AddingNeverFallsBack(After(meter, calls[0]), calls[1..], allowance, percent);
    }
  }

  /** Without corrections each threshold fires once if usage went from below it to it or past it, and otherwise not at all. */
  lemma EachThresholdFiresOnce(meter: Meter, calls: seq<Call>, allowance: Allowance, percent: int)
    requires Steady(calls, allowance) && OnlyAdds(calls, allowance) && allowance.limit > 0 && percent in {70, 85, 100}
    ensures Fired(Run(meter, calls).events, allowance, percent) ==
            Fired(meter.events, allowance, percent) +
            if Crosses(allowance.limit, Used(meter, allowance), Used(Run(meter, calls), allowance), percent) then 1 else 0
  {
    ThresholdFirings(meter, calls, allowance, percent);
    AddingNeverFallsBack(meter, calls, allowance, percent);
    UsageIsWhatWasAccepted(meter, calls, allowance);
  }

  /** A correction with a negative quantity lets a threshold fire again. */
  lemma CorrectionsRepeatAThreshold(tenant: Tenant, metric: Metric, limit: int)
    requires limit > 0
    ensures var allowance := Allowance(tenant, metric, 0, 1, limit);
            var fill := Call(tenant, metric, limit, BLOCK, 0, 1, limit);
            Fired(Run(Meter([], []), [fill, fill.(quantity := -limit), fill]).events, allowance, 100) == 2
  {
    var allowance := Allowance(tenant, metric, 0, 1, limit);
    var fill := Call(tenant, metric, limit, BLOCK, 0, 1, limit);
    var undo := fill.(quantity := -limit);
    var empty := Meter([], []);
    var full := After(empty, fill);
    Accumulates(empty, fill);
    IncrementFires(empty, fill, allowance, 100);
    var emptied := After(full, undo);
    Accumulates(full, undo);
    IncrementFires(full, undo, allowance, 100);
    IncrementFires(emptied, fill, allowance, 100);
    ThreeCalls(empty, fill, undo, fill);
  }

  lemma Accumulates(meter: Meter, call: Call)
    requires Increment(meter, call).Ok?
    ensures UsageFor(After(meter, call), call) == UsageFor(meter, call) + call.quantity
  {
    var records := After(meter, call).records;
    assert records[..|records| - 1] == meter.records;
  }

  lemma ThreeCalls(meter: Meter, a: Call, b: Call, c: Call)
    ensures Run(meter, [a, b, c]) == After(After(After(meter, a), b), c)
  {
    assert [a, b, c][1..] == [b, c] && [b, c][1..] == [c] && [c][1..] == [];
    assert Run(After(After(meter, a), b), [c]) == Run(After(After(After(meter, a), b), c), []);
    assert Run(After(meter, a), [b, c]) == Run(After(After(meter, a), b), [c]);
  }

  // ----- What a call does -----

  /** Usage is what the tenant's records of the metric inside the period add up to: one more counts exactly if it is one of them. */
  lemma OneMoreRecord(records: seq<UsageRecord>, record: UsageRecord, tenant: Tenant, metric: Metric, start: Time, end: Time)
    ensures CurrentUsage([], tenant, metric, start, end) == 0
    ensures CurrentUsage(records + [record], tenant, metric, start, end) ==
            CurrentUsage(records, tenant, metric, start, end) +
            if record.tenant == tenant && record.metric == metric && start <= record.start && record.end <= end then record.quantity else 0
  {
    assert (records + [record])[..|records|] == records;
  }

  lemma {:induction false} NothingInThePeriod(records: seq<UsageRecord>, tenant: Tenant, metric: Metric, start: Time, end: Time)
    requires forall k :: 0 <= k < |records| && records[k].tenant == tenant && records[k].metric == metric ==>
               records[k].start < start || end < records[k].end
    ensures CurrentUsage(records, tenant, metric, start, end) == 0
  {
    if records != [] {
      NothingInThePeriod(records[..|records| - 1], tenant, metric, start, end);
    }
  }

  predicate PastTheLimit(meter: Meter, call: Call) {
    call.limit != -1 && UsageFor(meter, call) + call.quantity > call.limit
  }

  /**
    Within the limit, or with no limit, every call is accepted; past it BLOCK and unknown policies refuse
    and WARN, ALLOW, APPROVED_OVERAGE and DEGRADE accept.  An accepted call adds one record, of its own
    tenant, metric, period and quantity.
   */
  lemma PolicyDecides(meter: Meter, call: Call)
    ensures Increment(meter, call).Ok? <==>
              !PastTheLimit(meter, call) || call.policy in {WARN, ALLOW, APPROVED_OVERAGE, DEGRADE}
    ensures Increment(meter, call) == Err(LimitExceeded) <==> PastTheLimit(meter, call) && call.policy.BLOCK?
    ensures Increment(meter, call) == Err(UnsupportedPolicy) <==> PastTheLimit(meter, call) && call.policy.Unsupported?
    ensures Increment(meter, call).Ok? ==>
              Increment(meter, call).value.records ==
              meter.records + [UsageRecord(call.tenant, call.metric, call.start, call.end, call.quantity)]
  {
  }

  predicate Published(meter: Meter, call: Call, kind: EventKind)
    requires Increment(meter, call).Ok?
  {
    var events := Increment(meter, call).value.events;
    |meter.events| < |events| && events[|meter.events|] == Event(call.tenant, call.metric, kind)
  }

  /** Crossings are published for the call's own tenant and metric, and only under a positive limit. */
  predicate IsCrossing(call: Call, event: Event) {
    event.kind.Crossed? && event.tenant == call.tenant && event.metric == call.metric && call.limit > 0
  }

  lemma CrossingsOnly(call: Call, before: int, after: int)
    ensures forall event :: event in CrossingEvents(call, before, after) ==> IsCrossing(call, event)
  {
  }

  /** An accepted call past the limit first publishes what its policy is for; everything else it publishes is a crossing. */
  lemma PolicyPublishes(meter: Meter, call: Call)
    requires Increment(meter, call).Ok?
    ensures PastTheLimit(meter, call) ==>
              && (call.policy.WARN? ==> Published(meter, call, LimitWarning))
              && (call.policy in {ALLOW, APPROVED_OVERAGE} ==> Published(meter, call, OverageAllowed))
              && (call.policy.DEGRADE? ==> Published(meter, call, Degraded))
    ensures var events := Increment(meter, call).value.events;
            var own := |meter.events| + Count(PastTheLimit(meter, call));
            && meter.events <= events && own <= |events|
            && forall event :: event in events[own..] ==> IsCrossing(call, event)
  {
    var before := UsageFor(meter, call);
    var after := before + call.quantity;
    var own := |meter.events| + Count(PastTheLimit(meter, call));
    CrossingsOnly(call, before, after);
    assert Increment(meter, call).value.events[own..] == CrossingEvents(call, before, after);
  }

  // ----- The two gates agree -----

  /** A metric is open exactly when a blocking increment of one would pass, except on a zero limit with negative usage. */
  lemma AccessMatchesIncrement(meter: Meter, call: Call)
    requires call.policy.BLOCK? && call.quantity == 1
    ensures (EvaluateMetricAccess(call.limit, UsageFor(meter, call)).allowed <==> Increment(meter, call).Ok?) <==>
            !(call.limit == 0 && UsageFor(meter, call) < 0)
    ensures var state := EvaluateMetricAccess(call.limit, UsageFor(meter, call)).state;
            && (call.limit == 0 ==> state == BLOCKED)
            && (call.limit != 0 ==> state == if Increment(meter, call).Ok? then AVAILABLE else LIMITED)
  {
  }
}
