/**
  Several deliveries of one success notification at the endpoint that records each notification once.

  A delivery looks for the record, locks the payment, confirms it, and commits its record together
  with the activation.  The confirmation commits in the middle, which releases the lock, so another
  delivery can find the payment received and commit its own record first; the activation is then
  rolled back with the record that the unique index refuses.
 */
module DeliveryRace {
  import opened Results
  import opened Text
  import opened BillingStates
  import opened Subscriptions
  import opened BillingDb
  import opened Ledger
  import opened LedgerInvariants
  import opened LedgerResults
  import opened LedgerRuns
  import opened Webhooks
  import opened Activations

  type Worker = nat

  datatype Pc =
    | Arrived
    | Unrecorded              // found no record of the notification
    | Unknown                 // found no payment with its provider id
    | Holding(p: PaymentId)   // holds the lock on the payment
    | Halfway(p: PaymentId)   // committed the first half of the confirmation
    | Received(p: PaymentId)  // found the payment received, and still holds the lock
    | Replied
    | Failed

  /** `confirmer` is the worker that committed the first half, `recorded` the one whose record stands. */
  datatype System = System(
    db: Db,
    locks: map<PaymentId, Worker>,
    confirmer: Option<Worker>,
    recorded: Option<Worker>,
    pcs: map<Worker, Pc>)

  datatype Step =
    | Check(worker: Worker)
    | FindKnown(worker: Worker)
    | FindOpen(worker: Worker)
    | ConfirmFirst(worker: Worker)
    | Finish(worker: Worker, now: Time)

  function PcOf(s: System, k: Worker): Pc {
    if k in s.pcs then s.pcs[k] else Arrived
  }

  function At(s: System, k: Worker, pc: Pc): System {
    s.(pcs := s.pcs[k := pc])
  }

  /** The worker's transaction is over. */
  function Ended(s: System, k: Worker, pc: Pc): System {
    At(s, k, pc).(locks := map p | p in s.locks && s.locks[p] != k :: s.locks[p])
  }

  /** No row of the query is locked by another. */
  predicate Free(s: System, k: Worker, rows: set<PaymentId>) {
    forall p :: p in rows && p in s.locks ==> s.locks[p] == k
  }

  predicate Enabled(s: System, w: Webhook, step: Step) {
    var pc := PcOf(s, step.worker);
    && w.invoice in s.db.invoices
    && match step
       case Check(_) => pc.Arrived?
       case FindKnown(k) => pc.Unrecorded? && Free(s, k, Known(s.db, w))
       case FindOpen(k) => pc.Unknown? && Free(s, k, Waiting(s.db, w))
       case ConfirmFirst(_) => pc.Holding? && OwnPayment(s.db, s.db.invoices[w.invoice].tenant, pc.p)
       case Finish(_, _) =>
         pc.Received? || (pc.Halfway? && pc.p in s.db.payments && s.db.payments[pc.p].invoice in s.db.invoices)
  }

  /** The one row of the query, locked; otherwise `none`, or an error if there are several. */
  ghost function Locked(s: System, k: Worker, rows: set<PaymentId>, none: Pc): System {
    if |rows| == 1 then At(s, k, Holding(TheOne(rows))).(locks := s.locks[TheOne(rows) := k])
    else if rows == {} then At(s, k, none)
    else Ended(s, k, Failed)
  }

  /** The record is added and everything committed, unless the unique index refuses the record. */
  function Concluded(s: System, k: Worker, db: Db): System {
    if s.recorded.Some? then Ended(s, k, Failed)
    else Ended(s, k, Replied).(db := db, recorded := Some(k))
  }

  ghost function Apply(s: System, w: Webhook, step: Step): System
    requires Enabled(s, w, step)
  {
    var pc, tenant := PcOf(s, step.worker), s.db.invoices[w.invoice].tenant;
    match step
    case Check(k) => At(s, k, if s.recorded.Some? then Replied else Unrecorded)
    case FindKnown(k) => Locked(s, k, Known(s.db, w), Unknown)
    case FindOpen(k) => Locked(s, k, Waiting(s.db, w), Failed)
    case ConfirmFirst(k) =>
      if s.db.payments[pc.p].status.SUCCEEDED? then At(s, k, Received(pc.p))
      else
        (match ConfirmFirstHalf(s.db, tenant, pc.p, w.providerId)
         case Err(_) => Ended(s, k, Failed)
         case Ok(mid) => Ended(s, k, Halfway(pc.p)).(db := mid, confirmer := Some(k)))
    case Finish(k, now) =>
      if pc.Received? then Concluded(s, k, s.db)
      else
        match ConfirmSecondHalf(s.db, tenant, s.db.payments[pc.p].invoice, now)
        case Err(_) => Ended(s, k, Failed)
        case Ok(after) => Concluded(s, k, after)
  }

  function Start(db: Db): System {
    System(db, map[], None, None, map[])
  }

  ghost predicate ValidRun(s: System, w: Webhook, steps: seq<Step>)
    decreases |steps|
  {
    steps == [] || (Enabled(s, w, steps[0]) && ValidRun(Apply(s, w, steps[0]), w, steps[1..]))
  }

  ghost function Run(s: System, w: Webhook, steps: seq<Step>): System
    requires ValidRun(s, w, steps)
    decreases |steps|
  {
    if steps == [] then s else Run(Apply(s, w, steps[0]), w, steps[1..])
  }

  // ----- The two halves of the one confirmation -----

  /** A sound ledger, and a success notification for an open payment of a subscription invoice. */
  ghost predicate Awaits(db: Db, w: Webhook, p: PaymentId) {
    && Inv(db) && Matched(db, w) && Announces(w, Success) && w.providerId != ""
    && Resolve(db, w) == Ok(p) && p in db.payments && db.payments[p].status.PENDING? && IsLinked(db, p)
  }

  function TenantOf(db: Db, w: Webhook): TenantId
    requires w.invoice in db.invoices
  {
    db.invoices[w.invoice].tenant
  }

  /** The state between the two commits. */
  function Mid(db: Db, w: Webhook, p: PaymentId): Db
    requires w.invoice in db.invoices && OwnPayment(db, TenantOf(db, w), p)
  {
    match ConfirmFirstHalf(db, TenantOf(db, w), p, w.providerId)
    case Ok(mid) => mid
    case Err(_) => db
  }

  /** The state after both. */
  function Whole(db: Db, w: Webhook, p: PaymentId, now: Time): Db
    requires w.invoice in db.invoices && OwnPayment(db, TenantOf(db, w), p)
  {
    match Confirm(db, TenantOf(db, w), p, w.providerId, now).outcome
    case Ok(after) => after
    case Err(_) => db
  }

  /** What every state after the first half tells a delivery. */
  predicate IsReceived(db: Db, w: Webhook, p: PaymentId, later: Db)
    requires w.invoice in db.invoices
  {
    && w.invoice in later.invoices && TenantOf(later, w) == TenantOf(db, w)
    && OwnPayment(later, TenantOf(db, w), p)
    && later.payments[p].status.SUCCEEDED?
    && later.payments[p].invoice in later.invoices
    && Known(later, w) == {p}
    && (Known(db, w) == {} ==> Waiting(later, w) == {})
  }

  lemma AwaitedPayment(db: Db, w: Webhook, p: PaymentId)
    requires Awaits(db, w, p)
    ensures OwnPayment(db, TenantOf(db, w), p)
    ensures Known(db, w) == {p} || (Known(db, w) == {} && Waiting(db, w) == {p})
    ensures !ProviderIdTaken(db, TenantOf(db, w), p, w.providerId)
  {
    Resolution(db, w);
    forall q | q in db.payments && q != p && db.payments[q].tenant == TenantOf(db, w)
      ensures db.payments[q].providerId != Some(w.providerId)
    {
      assert q !in Known(db, w);
    }
  }

  lemma FirstHalfReceives(db: Db, w: Webhook, p: PaymentId, now: Time)
    requires Awaits(db, w, p)
    ensures OwnPayment(db, TenantOf(db, w), p)
    ensures ConfirmFirstHalf(db, TenantOf(db, w), p, w.providerId) == Ok(Mid(db, w, p))
    ensures IsReceived(db, w, p, Mid(db, w, p))
  {
    AwaitedPayment(db, w, p);
    ConfirmationSucceeds(db, TenantOf(db, w), p, w.providerId, now);
    FirstHalfShape(db, TenantOf(db, w), p, w.providerId);
    ReceivedSets(db, w, p, Mid(db, w, p));
  }

  /** The two queries once `p` is received under the notification's provider id. */
  lemma ReceivedSets(db: Db, w: Webhook, p: PaymentId, later: Db)
    requires w.invoice in db.invoices && p in db.payments && db.payments[p].tenant == TenantOf(db, w)
    requires later.payments.Keys == db.payments.Keys
    requires forall q :: q in db.payments && q != p ==> later.payments[q] == db.payments[q]
    requires later.payments[p].tenant == db.payments[p].tenant && later.payments[p].status.SUCCEEDED?
    requires later.payments[p].providerId == Some(w.providerId)
    requires w.invoice in later.invoices && TenantOf(later, w) == TenantOf(db, w)
    requires Known(db, w) == {p} || (Known(db, w) == {} && Waiting(db, w) == {p})
    ensures Known(later, w) == {p}
    ensures Known(db, w) == {} ==> Waiting(later, w) == {}
  {
    assert Known(later, w) - {p} <= Known(db, w) - {p} == {};
    forall q | q in Waiting(later, w) ensures q != p && q in Waiting(db, w) {
      assert q in later.payments && later.payments[q].status.PENDING?;
      assert later.payments[q] == db.payments[q];
    }
  }

  lemma WholeShape(db: Db, w: Webhook, p: PaymentId, now: Time)
    requires w.invoice in db.invoices && OwnPayment(db, TenantOf(db, w), p) && db.payments[p].status.PENDING?
    requires Confirm(db, TenantOf(db, w), p, w.providerId, now).outcome.Ok?
    ensures Commits(Confirm(db, TenantOf(db, w), p, w.providerId, now)) == [Mid(db, w, p), Whole(db, w, p, now)]
    ensures ConfirmSecondHalf(Mid(db, w, p), TenantOf(db, w), db.payments[p].invoice, now) == Ok(Whole(db, w, p, now))
    ensures Whole(db, w, p, now) == Mid(db, w, p).(accounts := Whole(db, w, p, now).accounts)
  {
    FirstHalfShape(db, TenantOf(db, w), p, w.providerId);
  }

  lemma BothHalves(db: Db, w: Webhook, p: PaymentId, now: Time)
    requires Awaits(db, w, p)
    ensures OwnPayment(db, TenantOf(db, w), p) && IsReceived(db, w, p, Mid(db, w, p))
    ensures ConfirmSecondHalf(Mid(db, w, p), TenantOf(db, w), Mid(db, w, p).payments[p].invoice, now) == Ok(Whole(db, w, p, now))
    ensures IsReceived(db, w, p, Whole(db, w, p, now))
    ensures Commits(Confirm(db, TenantOf(db, w), p, w.providerId, now)) == [Mid(db, w, p), Whole(db, w, p, now)]
  {
    FirstHalfReceives(db, w, p, now);
    ConfirmationSucceeds(db, TenantOf(db, w), p, w.providerId, now);
    FirstHalfShape(db, TenantOf(db, w), p, w.providerId);
    WholeShape(db, w, p, now);
  }

  /** Only the second half activates. */
  lemma SecondHalfActivates(db: Db, w: Webhook, p: PaymentId, now: Time)
    requires Awaits(db, w, p)
    ensures OwnPayment(db, TenantOf(db, w), p)
    ensures RowsOf(Mid(db, w, p), TenantOf(db, w)) == RowsOf(db, TenantOf(db, w))
    ensures RowsOf(Whole(db, w, p, now), TenantOf(db, w)) == RowsOf(db, TenantOf(db, w)) + 1
  {
    BothHalves(db, w, p, now);
    ConfirmWrites(db, TenantOf(db, w), p, w.providerId, now);
  }

  /** All that the race asks of the ledger. */
  ghost predicate Halves(db: Db, w: Webhook, p: PaymentId) {
    && w.invoice in db.invoices && OwnPayment(db, TenantOf(db, w), p) && db.payments[p].status.PENDING?
    && (Known(db, w) == {p} || (Known(db, w) == {} && Waiting(db, w) == {p}))
    && ConfirmFirstHalf(db, TenantOf(db, w), p, w.providerId) == Ok(Mid(db, w, p))
    && IsReceived(db, w, p, Mid(db, w, p))
    && forall now :: SecondHalf(db, w, p, now)
  }

  predicate SecondHalf(db: Db, w: Webhook, p: PaymentId, now: Time)
    requires w.invoice in db.invoices && OwnPayment(db, TenantOf(db, w), p)
    requires IsReceived(db, w, p, Mid(db, w, p))
  {
    var mid := Mid(db, w, p);
    && ConfirmSecondHalf(mid, TenantOf(db, w), mid.payments[p].invoice, now) == Ok(Whole(db, w, p, now))
    && IsReceived(db, w, p, Whole(db, w, p, now))
  }

  lemma AwaitsHalves(db: Db, w: Webhook, p: PaymentId)
    requires Awaits(db, w, p)
    ensures Halves(db, w, p)
  {
    AwaitedPayment(db, w, p);
    FirstHalfReceives(db, w, p, 0);
    forall now ensures SecondHalf(db, w, p, now) {
      BothHalves(db, w, p, now);
    }
  }

  // ----- The invariant -----

  predicate PlaceInv(db: Db, w: Webhook, p: PaymentId, s: System, k: Worker, pc: Pc)
    requires w.invoice in db.invoices
  {
    match pc
    case Unknown => Known(db, w) == {}
    case Holding(q) => q == p
    case Received(q) => q == p && s.confirmer.Some?
    case Halfway(q) => q == p && s.confirmer == Some(k) && s.recorded != Some(k)
    case Replied => s.recorded.Some?
    case _ => true
  }

  /** The ledger is as the notification found it, or between the two commits, or after both. */
  ghost predicate DbInv(db: Db, w: Webhook, p: PaymentId, s: System)
    requires w.invoice in db.invoices && OwnPayment(db, TenantOf(db, w), p)
  {
    if s.confirmer.None? then s.db == db && s.recorded.None?
    else if s.recorded == s.confirmer then exists now :: s.db == Whole(db, w, p, now)
    else s.db == Mid(db, w, p)
  }

  /** The worker that confirmed is between its commits, or done after some record came to stand. */
  predicate ConfirmerInv(s: System) {
    s.confirmer.Some? ==>
      var pc := PcOf(s, s.confirmer.value);
      pc.Halfway? || (s.recorded.Some? && (pc.Replied? || pc.Failed?))
  }

  ghost predicate RaceInv(db: Db, w: Webhook, p: PaymentId, s: System) {
    && Halves(db, w, p)
    && DbInv(db, w, p, s)
    && ConfirmerInv(s)
    && (forall k :: k in s.pcs ==> PlaceInv(db, w, p, s, k, s.pcs[k]))
  }

  /** Before the confirmation the ledger is the one found; after it, it says that the payment is received. */
  lemma WhatTheLedgerSays(db: Db, w: Webhook, p: PaymentId, s: System)
    requires Halves(db, w, p) && DbInv(db, w, p, s)
    ensures if s.confirmer.None? then s.db == db else IsReceived(db, w, p, s.db)
  {
    if s.confirmer.Some? && s.recorded == s.confirmer {
      var now :| s.db == Whole(db, w, p, now);
      assert SecondHalf(db, w, p, now);
    }
  }

  /** A worker that has not confirmed moves on. */
  lemma MoveKeepsInv(db: Db, w: Webhook, p: PaymentId, s: System, s': System, k: Worker, pc: Pc)
    requires RaceInv(db, w, p, s) && s.confirmer != Some(k) && PlaceInv(db, w, p, s, k, pc)
    requires s' == At(s, k, pc).(locks := s'.locks)
    ensures RaceInv(db, w, p, s')
  {
  }

  lemma FindKeepsInv(db: Db, w: Webhook, p: PaymentId, s: System, k: Worker, rows: set<PaymentId>, none: Pc)
    requires RaceInv(db, w, p, s) && s.confirmer != Some(k) && rows <= {p}
    requires w.invoice in db.invoices && (rows == {} ==> PlaceInv(db, w, p, s, k, none))
    ensures RaceInv(db, w, p, Locked(s, k, rows, none))
  {
    if p in rows {
      assert rows == {p};
      OnlyOne(rows, p);
      MoveKeepsInv(db, w, p, s, Locked(s, k, rows, none), k, Holding(p));
    } else {
      assert rows == {};
      MoveKeepsInv(db, w, p, s, Locked(s, k, rows, none), k, none);
    }
  }

  lemma QueryFinds(db: Db, w: Webhook, p: PaymentId, s: System)
    requires RaceInv(db, w, p, s) && w.invoice in s.db.invoices
    ensures Known(s.db, w) <= {p} && (Known(s.db, w) == {} ==> Known(db, w) == {})
    ensures Known(db, w) == {} ==> Waiting(s.db, w) <= {p}
  {
    WhatTheLedgerSays(db, w, p, s);
  }

  lemma HalfKeepsInv(db: Db, w: Webhook, p: PaymentId, s: System, k: Worker)
    requires RaceInv(db, w, p, s) && s.confirmer.None?
    ensures RaceInv(db, w, p, Ended(s, k, Halfway(p)).(db := Mid(db, w, p), confirmer := Some(k)))
  {
  }

  lemma ConfirmKeepsRaceInv(db: Db, w: Webhook, p: PaymentId, s: System, k: Worker)
    requires RaceInv(db, w, p, s) && Enabled(s, w, ConfirmFirst(k))
    ensures RaceInv(db, w, p, Apply(s, w, ConfirmFirst(k)))
  {
    WhatTheLedgerSays(db, w, p, s);
    assert PlaceInv(db, w, p, s, k, s.pcs[k]);
    if s.confirmer.None? {
      HalfKeepsInv(db, w, p, s, k);
    } else {
      MoveKeepsInv(db, w, p, s, Apply(s, w, ConfirmFirst(k)), k, Received(p));
    }
  }

  lemma RecordKeepsInv(db: Db, w: Webhook, p: PaymentId, s: System, k: Worker)
    requires RaceInv(db, w, p, s) && s.confirmer.Some? && s.confirmer != Some(k)
    ensures RaceInv(db, w, p, Concluded(s, k, s.db))
  {
    if s.recorded.Some? {
      MoveKeepsInv(db, w, p, s, Concluded(s, k, s.db), k, Failed);
    }
  }

  lemma SecondHalfKeepsInv(db: Db, w: Webhook, p: PaymentId, s: System, k: Worker, now: Time)
    requires RaceInv(db, w, p, s) && s.confirmer == Some(k) && PcOf(s, k) == Halfway(p)
    ensures RaceInv(db, w, p, Concluded(s, k, Whole(db, w, p, now)))
  {
    assert PlaceInv(db, w, p, s, k, s.pcs[k]);
    var s' := Concluded(s, k, Whole(db, w, p, now));
    if s.recorded.None? {
      assert s'.db == Whole(db, w, p, now);
    }
  }

  lemma FinishKeepsInv(db: Db, w: Webhook, p: PaymentId, s: System, k: Worker, now: Time)
    requires RaceInv(db, w, p, s) && Enabled(s, w, Finish(k, now))
    ensures RaceInv(db, w, p, Apply(s, w, Finish(k, now)))
  {
    assert PlaceInv(db, w, p, s, k, s.pcs[k]);
    if s.pcs[k].Halfway? {
      assert SecondHalf(db, w, p, now);
      SecondHalfKeepsInv(db, w, p, s, k, now);
    } else {
      RecordKeepsInv(db, w, p, s, k);
    }
  }

  lemma StepKeepsInv(db: Db, w: Webhook, p: PaymentId, s: System, step: Step)
    requires RaceInv(db, w, p, s) && Enabled(s, w, step)
    ensures RaceInv(db, w, p, Apply(s, w, step))
  {
    match step
    case Check(k) => MoveKeepsInv(db, w, p, s, Apply(s, w, step), k, if s.recorded.Some? then Replied else Unrecorded);
    case FindKnown(k) =>
      QueryFinds(db, w, p, s);
      FindKeepsInv(db, w, p, s, k, Known(s.db, w), Unknown);
    case FindOpen(k) =>
      assert PlaceInv(db, w, p, s, k, s.pcs[k]);
      QueryFinds(db, w, p, s);
      FindKeepsInv(db, w, p, s, k, Waiting(s.db, w), Failed);
    case ConfirmFirst(k) => ConfirmKeepsRaceInv(db, w, p, s, k);
    case Finish(k, now) => FinishKeepsInv(db, w, p, s, k, now);
  }

  lemma {:induction false} RunKeepsInv(db: Db, w: Webhook, p: PaymentId, s: System, steps: seq<Step>)
    requires RaceInv(db, w, p, s) && ValidRun(s, w, steps)
    ensures RaceInv(db, w, p, Run(s, w, steps))
    decreases |steps|
  {
    if steps != [] {
      StepKeepsInv(db, w, p, s, steps[0]);
      RunKeepsInv(db, w, p, Apply(s, w, steps[0]), steps[1..]);
    }
  }

  lemma StartInv(db: Db, w: Webhook, p: PaymentId)
    requires Awaits(db, w, p)
    ensures RaceInv(db, w, p, Start(db))
  {
    AwaitsHalves(db, w, p);
  }

  // ----- Main results -----

  /** However many deliveries there are and however they interleave, the ledger is where a single one would have taken it. */
  lemma LedgerIsOneDelivery(db: Db, w: Webhook, p: PaymentId, steps: seq<Step>)
    requires Awaits(db, w, p) && ValidRun(Start(db), w, steps)
    ensures var s := Run(Start(db), w, steps);
            s.db == db || exists now :: s.db in Commits(Confirm(db, TenantOf(db, w), p, w.providerId, now))
  {
    StartInv(db, w, p);
    RunKeepsInv(db, w, p, Start(db), steps);
    var s := Run(Start(db), w, steps);
    if s.confirmer.Some? {
      var now :| s.recorded == s.confirmer ==> s.db == Whole(db, w, p, now);
      BothHalves(db, w, p, now);
      var commits := Commits(Confirm(db, TenantOf(db, w), p, w.providerId, now));
      assert s.db == commits[0] || s.db == commits[1];
    }
  }

  /** The record stands, but not with the activation. */
  predicate Lost(s: System) {
    s.recorded.Some? && s.recorded != s.confirmer
  }

  /**
    Once the worker that confirmed is done, the activation is there if and only if its own record is the
    one that stands; if another's is, the payment is received and the invoice PAID all the same.
   */
  lemma ActivatedIffOwnRecord(db: Db, w: Webhook, p: PaymentId, steps: seq<Step>)
    requires Awaits(db, w, p) && ValidRun(Start(db), w, steps)
    requires var s := Run(Start(db), w, steps);
             s.confirmer.Some? && !PcOf(s, s.confirmer.value).Halfway?
    ensures var s := Run(Start(db), w, steps);
            && s.recorded.Some?
            && RowsOf(s.db, TenantOf(db, w)) == RowsOf(db, TenantOf(db, w)) + (if s.recorded == s.confirmer then 1 else 0)
            && LinkedPaid(s.db, p)
  {
    StartInv(db, w, p);
    RunKeepsInv(db, w, p, Start(db), steps);
    var s := Run(Start(db), w, steps);
    var now :| s.recorded == s.confirmer ==> s.db == Whole(db, w, p, now);
    SecondHalfActivates(db, w, p, now);
    BothHalves(db, w, p, now);
    ConfirmWrites(db, TenantOf(db, w), p, w.providerId, now);
  }

  lemma RecordedStep(db: Db, w: Webhook, p: PaymentId, s: System, step: Step)
    requires RaceInv(db, w, p, s) && Enabled(s, w, step)
    requires s.recorded.Some?
    ensures var s' := Apply(s, w, step);
            s'.db == s.db && s'.recorded == s.recorded && s'.confirmer == s.confirmer
  {
    WhatTheLedgerSays(db, w, p, s);
    assert step.worker in s.pcs ==> PlaceInv(db, w, p, s, step.worker, s.pcs[step.worker]);
  }

  lemma {:induction false} RecordStands(db: Db, w: Webhook, p: PaymentId, s: System, steps: seq<Step>)
    requires RaceInv(db, w, p, s) && ValidRun(s, w, steps)
    requires s.recorded.Some?
    ensures var s' := Run(s, w, steps);
            s'.db == s.db && s'.recorded == s.recorded && s'.confirmer == s.confirmer
    decreases |steps|
  {
    if steps != [] {
      RecordedStep(db, w, p, s, steps[0]);
      StepKeepsInv(db, w, p, s, steps[0]);
      RecordStands(db, w, p, Apply(s, w, steps[0]), steps[1..]);
    }
  }

  /** Whatever is delivered after a record stands, the ledger stays as it is: a lost activation stays lost. */
  lemma RecordSettlesAll(db: Db, w: Webhook, p: PaymentId, first: seq<Step>, second: seq<Step>)
    requires Awaits(db, w, p) && ValidRun(Start(db), w, first) && ValidRun(Run(Start(db), w, first), w, second)
    requires Run(Start(db), w, first).recorded.Some?
    ensures var s, s' := Run(Start(db), w, first), Run(Run(Start(db), w, first), w, second);
            s'.db == s.db && (Lost(s') <==> Lost(s))
  {
    StartInv(db, w, p);
    RunKeepsInv(db, w, p, Start(db), first);
    RecordStands(db, w, p, Run(Start(db), w, first), second);
  }

  // ----- When it can be lost -----

  ghost predicate NeverLost(db: Db, w: Webhook, workers: nat) {
    forall steps :: ValidRun(Start(db), w, steps) && AllBelow(steps, workers) ==> !Lost(Run(Start(db), w, steps))
  }

  predicate MadeBy(s: System, workers: nat) {
    (s.confirmer.Some? ==> s.confirmer.value < workers) && (s.recorded.Some? ==> s.recorded.value < workers)
  }

  lemma StepIsMadeBy(s: System, w: Webhook, step: Step, workers: nat)
    requires MadeBy(s, workers) && Enabled(s, w, step) && step.worker < workers
    ensures MadeBy(Apply(s, w, step), workers)
  {
  }

  predicate AllBelow(steps: seq<Step>, workers: nat) {
    forall i :: 0 <= i < |steps| ==> steps[i].worker < workers
  }

  lemma {:induction false} RunIsMadeBy(s: System, w: Webhook, steps: seq<Step>, workers: nat)
    requires MadeBy(s, workers) && ValidRun(s, w, steps) && AllBelow(steps, workers)
    ensures MadeBy(Run(s, w, steps), workers)
    decreases |steps|
  {
    if steps != [] {
      StepIsMadeBy(s, w, steps[0], workers);
      RunIsMadeBy(Apply(s, w, steps[0]), w, steps[1..], workers);
    }
  }

  lemma Prepend(s: System, w: Webhook, step: Step, s': System, rest: seq<Step>)
    requires Enabled(s, w, step) && Apply(s, w, step) == s' && ValidRun(s', w, rest)
    ensures ValidRun(s, w, [step] + rest) && Run(s, w, [step] + rest) == Run(s', w, rest)
  {
    assert ([step] + rest)[1..] == rest;
  }

  /** Two workers, the first of which may have confirmed. */
  function Pair(db: Db, locks: map<PaymentId, Worker>, confirmer: Option<Worker>, first: Pc, second: Pc): System {
    System(db, locks, confirmer, None, map[0 := first, 1 := second])
  }

  /** The first locks the payment. */
  ghost function FirstLocks(db: Db, w: Webhook, rest: seq<Step>): seq<Step>
    requires w.invoice in db.invoices
  {
    if Known(db, w) == {} then [FindKnown(0)] + ([FindOpen(0)] + rest) else [FindKnown(0)] + rest
  }

  lemma FirstLocksRuns(db: Db, w: Webhook, p: PaymentId, rest: seq<Step>)
    requires Halves(db, w, p) && ValidRun(Pair(db, map[p := 0], None, Holding(p), Unrecorded), w, rest)
    ensures var s := Pair(db, map[], None, Unrecorded, Unrecorded);
            && ValidRun(s, w, FirstLocks(db, w, rest))
            && Run(s, w, FirstLocks(db, w, rest)) == Run(Pair(db, map[p := 0], None, Holding(p), Unrecorded), w, rest)
  {
    var s, locked := Pair(db, map[], None, Unrecorded, Unrecorded), Pair(db, map[p := 0], None, Holding(p), Unrecorded);
    if Known(db, w) == {} {
      var unknown := Pair(db, map[], None, Unknown, Unrecorded);
      OnlyOne(Waiting(db, w), p);
      Prepend(unknown, w, FindOpen(0), locked, rest);
      Prepend(s, w, FindKnown(0), unknown, [FindOpen(0)] + rest);
    } else {
      OnlyOne(Known(db, w), p);
      Prepend(s, w, FindKnown(0), locked, rest);
    }
  }

  /** The first commits the first half; the second finds the payment received and records. */
  function SecondRecords(now: Time): seq<Step> {
    [ConfirmFirst(0)] + ([FindKnown(1)] + ([ConfirmFirst(1)] + ([Finish(1, now)] + [])))
  }

  /** A worker that holds an open payment commits the first half, which ends its transaction. */
  lemma ConfirmStep(s: System, w: Webhook, k: Worker, p: PaymentId, mid: Db)
    requires Enabled(s, w, ConfirmFirst(k)) && PcOf(s, k) == Holding(p) && s.db.payments[p].status.PENDING?
    requires ConfirmFirstHalf(s.db, TenantOf(s.db, w), p, w.providerId) == Ok(mid)
    ensures Apply(s, w, ConfirmFirst(k)) == Ended(s, k, Halfway(p)).(db := mid, confirmer := Some(k))
  {
  }

  lemma FirstUnlocks(db: Db, p: PaymentId, mid: Db)
    ensures Ended(Pair(db, map[p := 0], None, Holding(p), Unrecorded), 0, Halfway(p)).(db := mid, confirmer := Some(0)) ==
            Pair(mid, map[], Some(0), Halfway(p), Unrecorded)
  {
    assert Ended(Pair(db, map[p := 0], None, Holding(p), Unrecorded), 0, Halfway(p)).locks == map[];
  }

  lemma SecondReceives(mid: Db, w: Webhook, p: PaymentId)
    requires w.invoice in mid.invoices && Known(mid, w) == {p} && OwnPayment(mid, TenantOf(mid, w), p)
    requires mid.payments[p].status.SUCCEEDED?
    ensures var s := Pair(mid, map[], Some(0), Halfway(p), Unrecorded);
            && Enabled(s, w, FindKnown(1))
            && Apply(s, w, FindKnown(1)) == Pair(mid, map[p := 1], Some(0), Halfway(p), Holding(p))
    ensures var s := Pair(mid, map[p := 1], Some(0), Halfway(p), Holding(p));
            && Enabled(s, w, ConfirmFirst(1))
            && Apply(s, w, ConfirmFirst(1)) == Pair(mid, map[p := 1], Some(0), Halfway(p), Received(p))
  {
    OnlyOne(Known(mid, w), p);
  }

  lemma SecondRecordsRuns(db: Db, w: Webhook, p: PaymentId, now: Time)
    requires Halves(db, w, p)
    ensures var s := Pair(db, map[p := 0], None, Holding(p), Unrecorded);
            && ValidRun(s, w, SecondRecords(now))
            && Lost(Run(s, w, SecondRecords(now)))
  {
    var mid := Mid(db, w, p);
    var half := Pair(mid, map[], Some(0), Halfway(p), Unrecorded);
    var held := Pair(mid, map[p := 1], Some(0), Halfway(p), Holding(p));
    var seen := Pair(mid, map[p := 1], Some(0), Halfway(p), Received(p));
    ConfirmStep(Pair(db, map[p := 0], None, Holding(p), Unrecorded), w, 0, p, mid);
    FirstUnlocks(db, p, mid);
    SecondReceives(mid, w, p);
    Prepend(seen, w, Finish(1, now), Apply(seen, w, Finish(1, now)), []);
    Prepend(held, w, ConfirmFirst(1), seen, [Finish(1, now)] + []);
    Prepend(half, w, FindKnown(1), held, [ConfirmFirst(1)] + ([Finish(1, now)] + []));
    Prepend(Pair(db, map[p := 0], None, Holding(p), Unrecorded), w, ConfirmFirst(0), half,
            [FindKnown(1)] + ([ConfirmFirst(1)] + ([Finish(1, now)] + [])));
  }

  /** Both look for the record and the first locks the payment. */
  ghost function TwoArrive(db: Db, w: Webhook, rest: seq<Step>): seq<Step>
    requires w.invoice in db.invoices
  {
    [Check(0)] + ([Check(1)] + FirstLocks(db, w, rest))
  }

  lemma TwoArriveRuns(db: Db, w: Webhook, p: PaymentId, rest: seq<Step>)
    requires Halves(db, w, p) && ValidRun(Pair(db, map[p := 0], None, Holding(p), Unrecorded), w, rest)
    ensures ValidRun(Start(db), w, TwoArrive(db, w, rest))
    ensures Run(Start(db), w, TwoArrive(db, w, rest)) == Run(Pair(db, map[p := 0], None, Holding(p), Unrecorded), w, rest)
  {
    FirstLocksRuns(db, w, p, rest);
    var one := System(db, map[], None, None, map[0 := Unrecorded]);
    Prepend(one, w, Check(1), Pair(db, map[], None, Unrecorded, Unrecorded), FirstLocks(db, w, rest));
    Prepend(Start(db), w, Check(0), one, [Check(1)] + FirstLocks(db, w, rest));
  }

  lemma FinishStep(s: System, w: Webhook, k: Worker, p: PaymentId, whole: Db, now: Time)
    requires Enabled(s, w, Finish(k, now)) && PcOf(s, k) == Halfway(p) && s.recorded.None?
    requires ConfirmSecondHalf(s.db, TenantOf(s.db, w), s.db.payments[p].invoice, now) == Ok(whole)
    ensures Apply(s, w, Finish(k, now)).db == whole && Apply(s, w, Finish(k, now)).recorded == Some(k)
  {
  }

  function Through(now: Time): seq<Step> {
    [ConfirmFirst(0)] + ([Finish(0, now)] + [])
  }

  lemma ThroughRuns(db: Db, w: Webhook, p: PaymentId, now: Time)
    requires Halves(db, w, p)
    ensures var s := Pair(db, map[p := 0], None, Holding(p), Unrecorded);
            && ValidRun(s, w, Through(now))
            && Run(s, w, Through(now)).db == Whole(db, w, p, now) && Run(s, w, Through(now)).recorded == Some(0)
  {
    var locked := Pair(db, map[p := 0], None, Holding(p), Unrecorded);
    var half := Pair(Mid(db, w, p), map[], Some(0), Halfway(p), Unrecorded);
    ConfirmStep(locked, w, 0, p, Mid(db, w, p));
    FirstUnlocks(db, p, Mid(db, w, p));
    assert SecondHalf(db, w, p, now);
    FinishStep(half, w, 0, p, Whole(db, w, p, now), now);
    Prepend(half, w, Finish(0, now), Apply(half, w, Finish(0, now)), []);
    Prepend(locked, w, ConfirmFirst(0), half, [Finish(0, now)] + []);
  }

  /** The first goes through before the second gets any further: it records, and the activation is there. */
  lemma FirstFinishes(db: Db, w: Webhook, p: PaymentId, now: Time)
    requires Awaits(db, w, p)
    ensures OwnPayment(db, TenantOf(db, w), p)
    ensures var steps := TwoArrive(db, w, Through(now));
            && ValidRun(Start(db), w, steps)
            && Run(Start(db), w, steps).recorded == Some(0)
            && Run(Start(db), w, steps).db == Whole(db, w, p, now)
  {
    AwaitsHalves(db, w, p);
    ThroughRuns(db, w, p, now);
    TwoArriveRuns(db, w, p, Through(now));
  }

  /** Two deliveries at once, none of which stops on the way. */
  ghost function LosingRun(db: Db, w: Webhook, now: Time): seq<Step>
    requires w.invoice in db.invoices
  {
    TwoArrive(db, w, SecondRecords(now))
  }

  lemma TwoDeliveriesLose(db: Db, w: Webhook, p: PaymentId, now: Time)
    requires Awaits(db, w, p)
    ensures ValidRun(Start(db), w, LosingRun(db, w, now)) && Lost(Run(Start(db), w, LosingRun(db, w, now)))
  {
    AwaitsHalves(db, w, p);
    SecondRecordsRuns(db, w, p, now);
    TwoArriveRuns(db, w, p, SecondRecords(now));
  }

  lemma LosingRunIsBelow(db: Db, w: Webhook, now: Time, workers: nat)
    requires w.invoice in db.invoices && workers >= 2
    ensures AllBelow(LosingRun(db, w, now), workers)
  {
  }

  lemma AloneNeverLoses(db: Db, w: Webhook, p: PaymentId, steps: seq<Step>)
    requires RaceInv(db, w, p, Start(db)) && ValidRun(Start(db), w, steps) && AllBelow(steps, 1)
    ensures !Lost(Run(Start(db), w, steps))
  {
    RunIsMadeBy(Start(db), w, steps, 1);
    RunKeepsInv(db, w, p, Start(db), steps);
  }

  /** The activation survives every interleaving of this many deliveries if and only if there is at most one. */
  lemma NeverLostIffAlone(db: Db, w: Webhook, p: PaymentId, workers: nat)
    requires Awaits(db, w, p)
    ensures NeverLost(db, w, workers) <==> workers <= 1
  {
    StartInv(db, w, p);
    if workers <= 1 {
      forall steps | ValidRun(Start(db), w, steps) && AllBelow(steps, workers) ensures !Lost(Run(Start(db), w, steps)) {
        assert AllBelow(steps, 1);
        AloneNeverLoses(db, w, p, steps);
      }
    } else {
      TwoDeliveriesLose(db, w, p, 0);
      LosingRunIsBelow(db, w, 0, workers);
    }
  }
}
