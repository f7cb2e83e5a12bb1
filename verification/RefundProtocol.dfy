/**
  Refund execution by many workers at once.

  A worker locks the approval row, then the payment row, then calls the provider, then commits;
  its transaction keeps both locks until it ends.  Requests and decisions interleave freely.
 */
module RefundProtocol {
  import opened Results
  import opened BillingStates
  import opened Subscriptions
  import opened BillingDb
  import opened Ledger
  import opened LedgerInvariants

  type WorkerId = nat

  datatype Pc =
    | Idle
    | Seeking(tenant: TenantId, a: ApprovalId)
    | Holding(a: ApprovalId)                                          // approval locked and APPROVED
    | Ready(a: ApprovalId, total: Cents, target: PaymentStatus)       // payment locked and assessed
    | Charged(a: ApprovalId, total: Cents, target: PaymentStatus)     // the provider has paid out

  /** `charged` and `lost` are per payment: paid out by the provider, and paid out by workers that then died. */
  datatype System = System(
    db: Db,
    approvalLocks: map<ApprovalId, WorkerId>,
    paymentLocks: map<PaymentId, WorkerId>,
    workers: map<WorkerId, Pc>,
    charged: map<PaymentId, Cents>,
    lost: map<PaymentId, Cents>)

  datatype Step =
    | Request(tenant: TenantId, p: PaymentId, amount: Cents)
    | Decision(a: ApprovalId, approve: bool)
    | Start(w: WorkerId, tenant: TenantId, a: ApprovalId)
    | LockApproval(w: WorkerId)
    | LockPayment(w: WorkerId)
    | CallProvider(w: WorkerId, reply: RefundReply)
    | Finish(w: WorkerId)
    | Crash(w: WorkerId)

  function PcOf(s: System, w: WorkerId): Pc {
    if w in s.workers then s.workers[w] else Idle
  }

  function Amount(m: map<PaymentId, Cents>, p: PaymentId): Cents {
    if p in m then m[p] else 0
  }

  function PaymentOf(s: System, a: ApprovalId): PaymentId
    requires a < |s.db.approvals|
  {
    s.db.approvals[a].payment
  }

  predicate HasApproval(s: System, pc: Pc) {
    (pc.Holding? || pc.Ready? || pc.Charged?) ==> pc.a < |s.db.approvals|
  }

  predicate Enabled(s: System, step: Step) {
    match step
    case Request(tenant, p, amount) => RequestRefund(s.db, tenant, p, amount).outcome.Ok?
    case Decision(a, approve) => Decide(s.db, a, approve).outcome.Ok?
    case Start(w, _, _) => PcOf(s, w).Idle?
    case LockApproval(w) => PcOf(s, w).Seeking? && PcOf(s, w).a !in s.approvalLocks
    case LockPayment(w) =>
      var pc := PcOf(s, w);
      pc.Holding? && pc.a < |s.db.approvals| && PaymentOf(s, pc.a) !in s.paymentLocks
    case CallProvider(w, _) => PcOf(s, w).Ready? && PcOf(s, w).a < |s.db.approvals|
    case Finish(w) =>
      var pc := PcOf(s, w);
      pc.Charged? && pc.a < |s.db.approvals| && PaymentOf(s, pc.a) in s.db.payments
    case Crash(w) => !PcOf(s, w).Idle? && HasApproval(s, PcOf(s, w))
  }

  /** The end of a worker's transaction: its locks are gone. */
  function Ended(s: System, w: WorkerId): System {
    s.(approvalLocks := map a | a in s.approvalLocks && s.approvalLocks[a] != w :: s.approvalLocks[a],
       paymentLocks := map p | p in s.paymentLocks && s.paymentLocks[p] != w :: s.paymentLocks[p],
       workers := s.workers[w := Idle])
  }

  function Apply(s: System, step: Step): System
    requires Enabled(s, step)
  {
    match step
    case Request(tenant, p, amount) => s.(db := RequestRefund(s.db, tenant, p, amount).outcome.value)
    case Decision(a, approve) => s.(db := Decide(s.db, a, approve).outcome.value)
    case Start(w, tenant, a) => s.(workers := s.workers[w := Seeking(tenant, a)])
    case LockApproval(w) =>
      var pc := PcOf(s, w);
      if pc.a < |s.db.approvals| && s.db.approvals[pc.a].tenant == pc.tenant && s.db.approvals[pc.a].status.APPROVED? then
        s.(approvalLocks := s.approvalLocks[pc.a := w], workers := s.workers[w := Holding(pc.a)])
      else Ended(s, w)
    case LockPayment(w) =>
      var a := PcOf(s, w).a;
      var p := PaymentOf(s, a);
      if !OwnPayment(s.db, s.db.approvals[a].tenant, p) then Ended(s, w)
      else
        (match Assess(s.db.payments[p], s.db.approvals[a].amount)
         case Err(RefundTooLarge) => Ended(s, w).(db := SetApproval(s.db, a, EXECUTION_FAILED))
         case Err(_) => Ended(s, w)
         case Ok((total, target)) =>
           s.(paymentLocks := s.paymentLocks[p := w], workers := s.workers[w := Ready(a, total, target)]))
    case CallProvider(w, reply) =>
      var pc := PcOf(s, w);
      var p, amount := PaymentOf(s, pc.a), s.db.approvals[pc.a].amount;
      (match reply
       case Raised => Ended(s, w)
       case Declined => Ended(s, w).(db := SetApproval(s.db, pc.a, EXECUTION_FAILED))
       case Done => s.(charged := s.charged[p := Amount(s.charged, p) + amount],
                       workers := s.workers[w := Charged(pc.a, pc.total, pc.target)]))
    case Finish(w) =>
      var pc := PcOf(s, w);
      Ended(s, w).(db := Refund(s.db, pc.a, pc.total, pc.target))
    case Crash(w) =>
      var pc := PcOf(s, w);
      if pc.Charged? then
        var p := PaymentOf(s, pc.a);
        Ended(s, w).(lost := s.lost[p := Amount(s.lost, p) + s.db.approvals[pc.a].amount])
      else Ended(s, w)
  }

  predicate ValidRun(s: System, steps: seq<Step>)
    decreases |steps|
  {
    steps == [] || (Enabled(s, steps[0]) && ValidRun(Apply(s, steps[0]), steps[1..]))
  }

  function Run(s: System, steps: seq<Step>): System
    requires ValidRun(s, steps)
    decreases |steps|
  {
    if steps == [] then s else Run(Apply(s, steps[0]), steps[1..])
  }

  // ----- The invariant -----

  predicate WorkerInv(s: System, w: WorkerId) {
    var pc := PcOf(s, w);
    match pc
    case Idle => true
    case Seeking(_, _) => true
    case Holding(a) => HoldsApproval(s, w, a)
    case Ready(a, total, target) => HoldsApproval(s, w, a) && HoldsPayment(s, w, a, total, target)
    case Charged(a, total, target) => HoldsApproval(s, w, a) && HoldsPayment(s, w, a, total, target)
  }

  predicate HoldsApproval(s: System, w: WorkerId, a: ApprovalId) {
    && a < |s.db.approvals|
    && s.db.approvals[a].status.APPROVED?
    && a in s.approvalLocks
    && s.approvalLocks[a] == w
  }

  predicate HoldsPayment(s: System, w: WorkerId, a: ApprovalId, total: Cents, target: PaymentStatus)
    requires a < |s.db.approvals|
  {
    var p := PaymentOf(s, a);
    && p in s.db.payments
    && p in s.paymentLocks
    && s.paymentLocks[p] == w
    && Assess(s.db.payments[p], s.db.approvals[a].amount) == Ok((total, target))
  }

  predicate LocksInv(s: System) {
    && (forall a :: a in s.approvalLocks ==>
          var pc := PcOf(s, s.approvalLocks[a]);
          (pc.Holding? || pc.Ready? || pc.Charged?) && pc.a == a)
    && (forall p :: p in s.paymentLocks ==>
          var pc := PcOf(s, s.paymentLocks[p]);
          (pc.Ready? || pc.Charged?) && pc.a < |s.db.approvals| && PaymentOf(s, pc.a) == p)
  }

  predicate ApprovalsInv(db: Db) {
    forall a :: 0 <= a < |db.approvals| ==>
      && OwnPayment(db, db.approvals[a].tenant, db.approvals[a].payment)
      && Paid(db.payments[db.approvals[a].payment].status)
  }

  predicate PaymentsInv(db: Db) {
    forall p :: p in db.payments ==>
      Settled(db.payments[p], ExecutedCount(db.approvals, p)) && db.payments[p].refunded == Executed(db.approvals, p)
  }

  /** What the provider has paid out on `p` for a worker that has not committed yet. */
  function InFlight(s: System, p: PaymentId): Cents {
    if p in s.paymentLocks then
      var pc := PcOf(s, s.paymentLocks[p]);
      if pc.Charged? && pc.a < |s.db.approvals| then s.db.approvals[pc.a].amount else 0
    else 0
  }

  predicate MoneyInv(s: System) {
    forall p :: p in s.db.payments ==>
      Amount(s.charged, p) == s.db.payments[p].refunded + InFlight(s, p) + Amount(s.lost, p)
  }

  predicate Inv(s: System) {
    && (forall w :: w in s.workers ==> WorkerInv(s, w))
    && LocksInv(s)
    && ApprovalsInv(s.db)
    && PaymentsInv(s.db)
    && MoneyInv(s)
  }

  // ----- Each step -----

  lemma EndedKeepsWorker(s: System, w: WorkerId, u: WorkerId)
    requires WorkerInv(s, u)
    ensures WorkerInv(Ended(s, w), u)
  {
  }

  lemma EndedKeepsWorkers(s: System, w: WorkerId)
    requires forall u :: u in s.workers ==> WorkerInv(s, u)
    ensures forall u :: u in Ended(s, w).workers ==> WorkerInv(Ended(s, w), u)
  {
    forall u | u in Ended(s, w).workers ensures WorkerInv(Ended(s, w), u) {
      if u != w {
        EndedKeepsWorker(s, w, u);
      }
    }
  }

  lemma EndedKeepsLocks(s: System, w: WorkerId)
    requires LocksInv(s)
    ensures LocksInv(Ended(s, w))
  {
  }

  lemma EndedKeepsInFlight(s: System, w: WorkerId, p: PaymentId)
    requires !PcOf(s, w).Charged?
    ensures InFlight(Ended(s, w), p) == InFlight(s, p)
  {
  }

  lemma EndedKeepsInv(s: System, w: WorkerId)
    requires Inv(s) && !PcOf(s, w).Charged?
    ensures Inv(Ended(s, w))
  {
    EndedKeepsLocks(s, w);
    EndedKeepsWorkers(s, w);
    var s' := Ended(s, w);
    forall p ensures InFlight(s', p) == InFlight(s, p) {
      EndedKeepsInFlight(s, w, p);
    }
    SameMoney(s, s');
  }

  lemma SameMoney(s: System, s': System)
    requires MoneyInv(s) && s'.db.payments == s.db.payments && s'.charged == s.charged && s'.lost == s.lost
    requires forall p :: p in s.db.payments ==> InFlight(s', p) == InFlight(s, p)
    ensures MoneyInv(s')
  {
  }

  lemma FreeApprovalKeepsWorker(s: System, a: ApprovalId, status: ApprovalStatus, w: WorkerId)
    requires WorkerInv(s, w) && a < |s.db.approvals| && a !in s.approvalLocks
    ensures WorkerInv(s.(db := SetApproval(s.db, a, status)), w)
  {
  }

  lemma FreeApprovalKeepsTables(db: Db, a: ApprovalId, status: ApprovalStatus)
    requires ApprovalsInv(db) && PaymentsInv(db) && a < |db.approvals|
    requires !db.approvals[a].status.EXECUTED? && !status.EXECUTED?
    ensures ApprovalsInv(SetApproval(db, a, status)) && PaymentsInv(SetApproval(db, a, status))
  {
    var after := SetApproval(db, a, status);
    forall p | p in after.payments
      ensures Settled(after.payments[p], ExecutedCount(after.approvals, p)) && after.payments[p].refunded == Executed(after.approvals, p)
    {
      ExecutedFrame(db.approvals, after.approvals, a, p);
    }
  }

  lemma MarkingMovesNoMoney(s: System, a: ApprovalId, status: ApprovalStatus)
    requires a < |s.db.approvals| && LocksInv(s) && MoneyInv(s)
    ensures LocksInv(s.(db := SetApproval(s.db, a, status))) && MoneyInv(s.(db := SetApproval(s.db, a, status)))
  {
    var s' := s.(db := SetApproval(s.db, a, status));
    forall p ensures InFlight(s', p) == InFlight(s, p) {
    }
  }

  /** Marking an approval that no worker holds. */
  lemma FreeApprovalKeepsInv(s: System, a: ApprovalId, status: ApprovalStatus)
    requires Inv(s) && a < |s.db.approvals| && a !in s.approvalLocks
    requires !s.db.approvals[a].status.EXECUTED? && !status.EXECUTED?
    ensures Inv(s.(db := SetApproval(s.db, a, status)))
  {
    forall w | w in s.workers ensures WorkerInv(s.(db := SetApproval(s.db, a, status)), w) {
      FreeApprovalKeepsWorker(s, a, status, w);
    }
    FreeApprovalKeepsTables(s.db, a, status);
    MarkingMovesNoMoney(s, a, status);
  }

  lemma NotHeldAfterEnd(s: System, w: WorkerId, a: ApprovalId)
    requires HoldsApproval(s, w, a)
    ensures a !in Ended(s, w).approvalLocks
  {
  }

  lemma RequestMovesNoMoney(s: System, tenant: TenantId, p: PaymentId, amount: Cents)
    requires LocksInv(s) && MoneyInv(s) && Enabled(s, Request(tenant, p, amount))
    ensures LocksInv(Apply(s, Request(tenant, p, amount))) && MoneyInv(Apply(s, Request(tenant, p, amount)))
  {
    var s' := Apply(s, Request(tenant, p, amount));
    forall q | q in s'.db.payments ensures InFlight(s', q) == InFlight(s, q) {
      if q in s.paymentLocks {
        assert PcOf(s, s.paymentLocks[q]).a < |s.db.approvals|;
      }
    }
  }

  lemma RequestKeepsTables(db: Db, tenant: TenantId, p: PaymentId, amount: Cents)
    requires ApprovalsInv(db) && PaymentsInv(db) && RequestRefund(db, tenant, p, amount).outcome.Ok?
    ensures ApprovalsInv(RequestRefund(db, tenant, p, amount).outcome.value)
    ensures PaymentsInv(RequestRefund(db, tenant, p, amount).outcome.value)
  {
    var after := RequestRefund(db, tenant, p, amount).outcome.value;
    assert after.approvals[..|after.approvals| - 1] == db.approvals;
  }

  lemma RequestKeepsInv(s: System, tenant: TenantId, p: PaymentId, amount: Cents)
    requires Inv(s) && Enabled(s, Request(tenant, p, amount))
    ensures Inv(Apply(s, Request(tenant, p, amount)))
  {
    var s' := Apply(s, Request(tenant, p, amount));
    forall w | w in s'.workers ensures WorkerInv(s', w) {
      assert WorkerInv(s, w);
    }
    RequestKeepsTables(s.db, tenant, p, amount);
    RequestMovesNoMoney(s, tenant, p, amount);
  }

  lemma LockApprovalKeepsWorker(s: System, w: WorkerId, u: WorkerId)
    requires WorkerInv(s, u) && Enabled(s, LockApproval(w)) && PcOf(Apply(s, LockApproval(w)), w).Holding?
    ensures WorkerInv(Apply(s, LockApproval(w)), u)
  {
  }

  lemma LockApprovalKeepsLocks(s: System, w: WorkerId)
    requires LocksInv(s) && Enabled(s, LockApproval(w)) && PcOf(Apply(s, LockApproval(w)), w).Holding?
    ensures LocksInv(Apply(s, LockApproval(w)))
    ensures forall p :: InFlight(Apply(s, LockApproval(w)), p) == InFlight(s, p)
  {
  }

  lemma LockApprovalKeepsInv(s: System, w: WorkerId)
    requires Inv(s) && Enabled(s, LockApproval(w))
    ensures Inv(Apply(s, LockApproval(w)))
  {
    var s' := Apply(s, LockApproval(w));
    if PcOf(s', w).Idle? {
      EndedKeepsInv(s, w);
    } else {
      LockApprovalKeepsLocks(s, w);
      forall u | u in s'.workers ensures WorkerInv(s', u) {
        assert WorkerInv(s, u);
        LockApprovalKeepsWorker(s, w, u);
      }
      SameMoney(s, s');
    }
  }

  lemma LockPaymentKeepsWorker(s: System, w: WorkerId, u: WorkerId)
    requires WorkerInv(s, w) && WorkerInv(s, u) && Enabled(s, LockPayment(w)) && PcOf(Apply(s, LockPayment(w)), w).Ready?
    ensures WorkerInv(Apply(s, LockPayment(w)), u)
  {
  }

  lemma LockPaymentKeepsLocks(s: System, w: WorkerId)
    requires LocksInv(s) && Enabled(s, LockPayment(w)) && PcOf(Apply(s, LockPayment(w)), w).Ready?
    ensures LocksInv(Apply(s, LockPayment(w)))
  {
  }

  lemma LockPaymentKeepsInFlight(s: System, w: WorkerId, p: PaymentId)
    requires LocksInv(s) && Enabled(s, LockPayment(w)) && PcOf(Apply(s, LockPayment(w)), w).Ready?
    ensures InFlight(Apply(s, LockPayment(w)), p) == InFlight(s, p)
  {
  }

  lemma LockPaymentKeepsInv(s: System, w: WorkerId)
    requires Inv(s) && Enabled(s, LockPayment(w))
    ensures Inv(Apply(s, LockPayment(w)))
  {
    var s' := Apply(s, LockPayment(w));
    var a := PcOf(s, w).a;
    assert WorkerInv(s, w);
    if PcOf(s', w).Idle? {
      EndedKeepsInv(s, w);
      NotHeldAfterEnd(s, w, a);
      if s'.db != s.db {
        FreeApprovalKeepsInv(Ended(s, w), a, EXECUTION_FAILED);
      }
    } else {
      LockPaymentKeepsLocks(s, w);
      forall u | u in s'.workers ensures WorkerInv(s', u) {
        assert WorkerInv(s, u);
        LockPaymentKeepsWorker(s, w, u);
      }
      forall p ensures InFlight(s', p) == InFlight(s, p) {
        LockPaymentKeepsInFlight(s, w, p);
      }
      SameMoney(s, s');
    }
  }

  lemma PayoutKeepsWorkers(s: System, w: WorkerId, u: WorkerId)
    requires WorkerInv(s, w) && WorkerInv(s, u) && Enabled(s, CallProvider(w, Done))
    ensures WorkerInv(Apply(s, CallProvider(w, Done)), u)
  {
  }

  lemma PayoutKeepsLocks(s: System, w: WorkerId)
    requires LocksInv(s) && Enabled(s, CallProvider(w, Done))
    ensures LocksInv(Apply(s, CallProvider(w, Done)))
  {
  }

  lemma PayoutKeepsMoney(s: System, w: WorkerId)
    requires WorkerInv(s, w) && Enabled(s, CallProvider(w, Done)) && LocksInv(s) && MoneyInv(s)
    ensures MoneyInv(Apply(s, CallProvider(w, Done)))
  {
    var s' := Apply(s, CallProvider(w, Done));
    forall p | p in s'.db.payments
      ensures Amount(s'.charged, p) == s'.db.payments[p].refunded + InFlight(s', p) + Amount(s'.lost, p)
    {
      if p != PaymentOf(s, PcOf(s, w).a) {
        assert InFlight(s', p) == InFlight(s, p);
      }
    }
  }

  lemma CallProviderKeepsInv(s: System, w: WorkerId, reply: RefundReply)
    requires Inv(s) && Enabled(s, CallProvider(w, reply))
    ensures Inv(Apply(s, CallProvider(w, reply)))
  {
    assert WorkerInv(s, w);
    match reply
    case Raised => EndedKeepsInv(s, w);
    case Declined =>
      EndedKeepsInv(s, w);
      NotHeldAfterEnd(s, w, PcOf(s, w).a);
      FreeApprovalKeepsInv(Ended(s, w), PcOf(s, w).a, EXECUTION_FAILED);
    case Done =>
      var s' := Apply(s, CallProvider(w, reply));
      forall u | u in s'.workers ensures WorkerInv(s', u) {
        assert WorkerInv(s, u);
        PayoutKeepsWorkers(s, w, u);
      }
      PayoutKeepsLocks(s, w);
      PayoutKeepsMoney(s, w);
  }

  lemma FinishKeepsOthers(s: System, w: WorkerId, u: WorkerId)
    requires WorkerInv(s, w) && WorkerInv(s, u) && u != w && Enabled(s, Finish(w))
    ensures WorkerInv(Apply(s, Finish(w)), u)
  {
  }

  lemma FinishKeepsTables(s: System, w: WorkerId)
    requires WorkerInv(s, w) && Enabled(s, Finish(w)) && ApprovalsInv(s.db) && PaymentsInv(s.db)
    ensures ApprovalsInv(Apply(s, Finish(w)).db) && PaymentsInv(Apply(s, Finish(w)).db)
  {
    var s' := Apply(s, Finish(w));
    var pc := PcOf(s, w);
    var p := PaymentOf(s, pc.a);
    AssessSettles(s.db.payments[p], ExecutedCount(s.db.approvals, p), s.db.approvals[pc.a].amount);
    forall q | q in s'.db.payments
      ensures Settled(s'.db.payments[q], ExecutedCount(s'.db.approvals, q))
      ensures s'.db.payments[q].refunded == Executed(s'.db.approvals, q)
    {
      ExecutedFrame(s.db.approvals, s'.db.approvals, pc.a, q);
    }
  }

  lemma FinishKeepsMoney(s: System, w: WorkerId)
    requires WorkerInv(s, w) && Enabled(s, Finish(w)) && LocksInv(s) && MoneyInv(s)
    ensures LocksInv(Apply(s, Finish(w))) && MoneyInv(Apply(s, Finish(w)))
  {
    var s' := Apply(s, Finish(w));
    var p := PaymentOf(s, PcOf(s, w).a);
    forall q | q in s'.db.payments
      ensures Amount(s'.charged, q) == s'.db.payments[q].refunded + InFlight(s', q) + Amount(s'.lost, q)
    {
      if q != p {
        assert InFlight(s', q) == InFlight(s, q);
      }
    }
  }

  lemma FinishKeepsInv(s: System, w: WorkerId)
    requires Inv(s) && Enabled(s, Finish(w))
    ensures Inv(Apply(s, Finish(w)))
  {
    var s' := Apply(s, Finish(w));
    assert WorkerInv(s, w);
    FinishKeepsTables(s, w);
    FinishKeepsMoney(s, w);
    forall u | u in s'.workers ensures WorkerInv(s', u) {
      if u != w {
        FinishKeepsOthers(s, w, u);
      }
    }
  }

  lemma LateCrashKeepsMoney(s: System, w: WorkerId)
    requires WorkerInv(s, w) && Enabled(s, Crash(w)) && PcOf(s, w).Charged? && LocksInv(s) && MoneyInv(s) && ApprovalsInv(s.db)
    ensures MoneyInv(Apply(s, Crash(w)))
  {
    var s' := Apply(s, Crash(w));
    forall q | q in s'.db.payments
      ensures Amount(s'.charged, q) == s'.db.payments[q].refunded + InFlight(s', q) + Amount(s'.lost, q)
    {
      if q != PaymentOf(s, PcOf(s, w).a) {
        assert InFlight(s', q) == InFlight(s, q);
      }
    }
  }

  lemma LostMoneyHoldsNoLock(s: System, lost: map<PaymentId, Cents>)
    requires LocksInv(s) && forall u :: u in s.workers ==> WorkerInv(s, u)
    ensures LocksInv(s.(lost := lost))
    ensures forall u :: u in s.workers ==> WorkerInv(s.(lost := lost), u)
  {
    forall u | u in s.workers ensures WorkerInv(s.(lost := lost), u) {
      assert WorkerInv(s, u);
    }
  }

  lemma CrashKeepsInv(s: System, w: WorkerId)
    requires Inv(s) && Enabled(s, Crash(w))
    ensures Inv(Apply(s, Crash(w)))
  {
    if !PcOf(s, w).Charged? {
      EndedKeepsInv(s, w);
    } else {
      assert WorkerInv(s, w);
      LateCrashKeepsMoney(s, w);
      EndedKeepsLocks(s, w);
      EndedKeepsWorkers(s, w);
      LostMoneyHoldsNoLock(Ended(s, w), Apply(s, Crash(w)).lost);
    }
  }

  lemma StartKeepsLocks(s: System, w: WorkerId, tenant: TenantId, a: ApprovalId)
    requires LocksInv(s) && Enabled(s, Start(w, tenant, a))
    ensures LocksInv(Apply(s, Start(w, tenant, a)))
    ensures forall p :: InFlight(Apply(s, Start(w, tenant, a)), p) == InFlight(s, p)
  {
  }

  lemma StartKeepsInv(s: System, w: WorkerId, tenant: TenantId, a: ApprovalId)
    requires Inv(s) && Enabled(s, Start(w, tenant, a))
    ensures Inv(Apply(s, Start(w, tenant, a)))
  {
    var s' := Apply(s, Start(w, tenant, a));
    StartKeepsLocks(s, w, tenant, a);
    forall u | u in s'.workers ensures WorkerInv(s', u) {
      if u != w {
        assert WorkerInv(s, u);
      }
    }
    SameMoney(s, s');
  }

  lemma DecidedApprovalIsFree(s: System, a: ApprovalId)
    requires LocksInv(s) && (forall w :: w in s.workers ==> WorkerInv(s, w))
    requires a < |s.db.approvals| && s.db.approvals[a].status.AWAITING?
    ensures a !in s.approvalLocks
  {
    assert a in s.approvalLocks ==> WorkerInv(s, s.approvalLocks[a]);
  }

  lemma StepKeepsInv(s: System, step: Step)
    requires Inv(s) && Enabled(s, step)
    ensures Inv(Apply(s, step))
  {
    match step
    case Request(tenant, p, amount) => RequestKeepsInv(s, tenant, p, amount);
    case Decision(a, approve) =>
      DecidedApprovalIsFree(s, a);
      FreeApprovalKeepsInv(s, a, if approve then APPROVED else CLOSED);
    case Start(w, tenant, a) => StartKeepsInv(s, w, tenant, a);
    case LockApproval(w) => LockApprovalKeepsInv(s, w);
    case LockPayment(w) => LockPaymentKeepsInv(s, w);
    case CallProvider(w, reply) => CallProviderKeepsInv(s, w, reply);
    case Finish(w) => FinishKeepsInv(s, w);
    case Crash(w) => CrashKeepsInv(s, w);
  }

  lemma {:induction false} RunKeepsInv(s: System, steps: seq<Step>)
    requires Inv(s) && ValidRun(s, steps)
    ensures Inv(Run(s, steps))
    decreases |steps|
  {
    if steps != [] {
      StepKeepsInv(s, steps[0]);
      RunKeepsInv(Apply(s, steps[0]), steps[1..]);
    }
  }

  // ----- Main results -----

  /** Payments with nothing refunded yet, no approvals, no workers. */
  predicate Initial(s: System) {
    && s.db.approvals == []
    && (forall p :: p in s.db.payments ==>
          s.db.payments[p].refunded == 0 && s.db.payments[p].status !in {REFUNDED, PARTIALLY_REFUNDED})
    && s == System(s.db, map[], map[], map[], map[], map[])
  }

  lemma InitialInv(s: System)
    requires Initial(s)
    ensures Inv(s)
  {
  }

  /**
    Over every interleaving, for every payment and refunds of any amounts: the refunded total is the
    sum of the executed approvals, never exceeds the payment, and decides the status.
   */
  lemma RefundsAddUp(s: System, steps: seq<Step>, p: PaymentId)
    requires Initial(s) && ValidRun(s, steps) && p in Run(s, steps).db.payments
    ensures var end := Run(s, steps);
            var payment := end.db.payments[p];
            var refunds := ExecutedCount(end.db.approvals, p);
            && payment.refunded == Executed(end.db.approvals, p)
            && (refunds > 0 ==> payment.refunded <= payment.amount)
            && (payment.status.REFUNDED? <==> refunds > 0 && payment.refunded == payment.amount)
            && (payment.status.PARTIALLY_REFUNDED? <==> refunds > 0 && payment.refunded < payment.amount)
            && Amount(end.charged, p) == payment.refunded + InFlight(end, p) + Amount(end.lost, p)
  {
    InitialInv(s);
    RunKeepsInv(s, steps);
  }

  /** The status says truly how much was refunded exactly when nothing was or the refunded total is positive. */
  lemma StatusTrueIff(s: System, steps: seq<Step>, p: PaymentId)
    requires Initial(s) && ValidRun(s, steps) && p in Run(s, steps).db.payments
    ensures var end := Run(s, steps).db;
            RefundOk(end.payments[p]) <==> ExecutedCount(end.approvals, p) == 0 || end.payments[p].refunded > 0
  {
    InitialInv(s);
    RunKeepsInv(s, steps);
  }

  /** Approval `a` was recorded by this request, which fitted what executed refunds then left of the payment. */
  predicate FittedWhenRequested(s: System, step: Step, a: ApprovalId, approval: Approval) {
    && step == Request(approval.tenant, approval.payment, approval.amount)
    && a == |s.db.approvals|
    && approval.payment in s.db.payments && s.db.payments[approval.payment].tenant == approval.tenant
    && s.db.payments[approval.payment].status in {SUCCEEDED, PARTIALLY_REFUNDED}
    && approval.amount <= s.db.payments[approval.payment].amount - Executed(s.db.approvals, approval.payment)
  }

  predicate SomeoneRequested(s: System, steps: seq<Step>, a: ApprovalId, approval: Approval)
    requires ValidRun(s, steps)
    decreases |steps|
  {
    steps != [] && (FittedWhenRequested(s, steps[0], a, approval) || SomeoneRequested(Apply(s, steps[0]), steps[1..], a, approval))
  }

  /** What was asked for: an approval without its status. */
  function Asked(approval: Approval): Approval {
    approval.(status := AWAITING)
  }

  lemma AskedStaysOneStep(s: System, step: Step, a: ApprovalId)
    requires Enabled(s, step) && a < |s.db.approvals|
    ensures a < |Apply(s, step).db.approvals| && Asked(Apply(s, step).db.approvals[a]) == Asked(s.db.approvals[a])
  {
  }

  lemma {:induction false} AskedStays(s: System, steps: seq<Step>, a: ApprovalId)
    requires ValidRun(s, steps) && a < |s.db.approvals|
    ensures a < |Run(s, steps).db.approvals| && Asked(Run(s, steps).db.approvals[a]) == Asked(s.db.approvals[a])
    decreases |steps|
  {
    if steps != [] {
      AskedStaysOneStep(s, steps[0], a);
      AskedStays(Apply(s, steps[0]), steps[1..], a);
    }
  }

  lemma OnlyRequestsAdd(s: System, step: Step, a: ApprovalId)
    requires Enabled(s, step) && |s.db.approvals| <= a < |Apply(s, step).db.approvals|
    ensures step.Request?
  {
  }

  lemma RequestFits(s: System, step: Step, a: ApprovalId)
    requires PaymentsInv(s.db) && Enabled(s, step) && step.Request? && |s.db.approvals| <= a < |Apply(s, step).db.approvals|
    ensures FittedWhenRequested(s, step, a, Asked(Apply(s, step).db.approvals[a]))
  {
  }

  /** Every approval that a run adds was asked for in it, within what was left of the payment then, and is as it was asked for. */
  lemma {:induction false} EveryApprovalFitted(s: System, steps: seq<Step>, a: ApprovalId)
    requires Inv(s) && ValidRun(s, steps) && |s.db.approvals| <= a < |Run(s, steps).db.approvals|
    ensures SomeoneRequested(s, steps, a, Asked(Run(s, steps).db.approvals[a]))
    decreases |steps|
  {
    if a < |Apply(s, steps[0]).db.approvals| {
      OnlyRequestsAdd(s, steps[0], a);
      RequestFits(s, steps[0], a);
      AskedStays(Apply(s, steps[0]), steps[1..], a);
    } else {
      StepKeepsInv(s, steps[0]);
      EveryApprovalFitted(Apply(s, steps[0]), steps[1..], a);
    }
  }

  /** In a reachable state an assessment finds a refund too large exactly if it exceeds what executed refunds leave. */
  lemma TooLargeIff(s: System, steps: seq<Step>, w: WorkerId)
    requires Initial(s) && ValidRun(s, steps) && Enabled(Run(s, steps), LockPayment(w))
    ensures var db := Run(s, steps).db;
            var approval := db.approvals[PcOf(Run(s, steps), w).a];
            && approval.payment in db.payments
            && (Assess(db.payments[approval.payment], approval.amount) == Err(RefundTooLarge) <==>
                  approval.amount > db.payments[approval.payment].amount - Executed(db.approvals, approval.payment))
  {
    InitialInv(s);
    RunKeepsInv(s, steps);
  }

  /** So a refund that is approved and executed first thing after its request fits. */
  lemma FreshRefundFits(db: Db, tenant: TenantId, p: PaymentId, amount: Cents, reply: RefundReply)
    requires RequestRefund(db, tenant, p, amount).outcome.Ok?
    ensures var asked := RequestRefund(db, tenant, p, amount).outcome.value;
            && Decide(asked, |db.approvals|, true).outcome.Ok?
            && ExecuteRefund(Decide(asked, |db.approvals|, true).outcome.value, tenant, |db.approvals|, reply).outcome !=
               Err(RefundTooLarge)
  {
  }

  predicate Positive(steps: seq<Step>) {
    forall k :: 0 <= k < |steps| && steps[k].Request? ==> steps[k].amount > 0
  }

  predicate PositiveApprovals(approvals: seq<Approval>) {
    forall a :: 0 <= a < |approvals| ==> approvals[a].amount > 0
  }

  lemma {:induction false} PositiveSum(approvals: seq<Approval>, p: PaymentId)
    requires PositiveApprovals(approvals)
    ensures Executed(approvals, p) >= ExecutedCount(approvals, p)
  {
    if approvals != [] {
      PositiveSum(approvals[..|approvals| - 1], p);
    }
  }

  /** Approvals keep their amounts, and only a request adds one. */
  lemma ApprovalsAfter(s: System, step: Step, a: ApprovalId)
    requires Enabled(s, step) && a < |Apply(s, step).db.approvals|
    ensures a < |s.db.approvals| ==> Apply(s, step).db.approvals[a].amount == s.db.approvals[a].amount
    ensures a >= |s.db.approvals| ==> step.Request? && Apply(s, step).db.approvals[a].amount == step.amount
  {
  }

  lemma PositiveStep(s: System, step: Step)
    requires Enabled(s, step) && PositiveApprovals(s.db.approvals) && (step.Request? ==> step.amount > 0)
    ensures PositiveApprovals(Apply(s, step).db.approvals)
  {
    forall a | 0 <= a < |Apply(s, step).db.approvals| ensures Apply(s, step).db.approvals[a].amount > 0 {
      ApprovalsAfter(s, step, a);
    }
  }

  lemma {:induction false} PositiveRun(s: System, steps: seq<Step>)
    requires ValidRun(s, steps) && Positive(steps) && PositiveApprovals(s.db.approvals)
    ensures PositiveApprovals(Run(s, steps).db.approvals)
    decreases |steps|
  {
    if steps != [] {
      PositiveStep(s, steps[0]);
      PositiveRun(Apply(s, steps[0]), steps[1..]);
    }
  }

  /** If only positive refunds are requested, every status is true. */
  lemma PositiveRefundsKeepTheStatusTrue(s: System, steps: seq<Step>, p: PaymentId)
    requires Initial(s) && ValidRun(s, steps) && Positive(steps) && p in Run(s, steps).db.payments
    ensures RefundOk(Run(s, steps).db.payments[p])
  {
    PositiveRun(s, steps);
    PositiveSum(Run(s, steps).db.approvals, p);
    StatusTrueIff(s, steps, p);
    RefundsAddUp(s, steps, p);
  }

  /** In a reachable state the transition check fails exactly on a negative refund of a payment refunded in full. */
  lemma BadStatusIff(s: System, steps: seq<Step>, w: WorkerId)
    requires Initial(s) && ValidRun(s, steps) && Enabled(Run(s, steps), LockPayment(w))
    ensures var end := Run(s, steps);
            var approval := end.db.approvals[PcOf(end, w).a];
            && OwnPayment(end.db, approval.tenant, approval.payment)
            && (Assess(end.db.payments[approval.payment], approval.amount) == Err(InvalidPaymentState) <==>
                  end.db.payments[approval.payment].status.REFUNDED? && approval.amount < 0)
  {
    InitialInv(s);
    RunKeepsInv(s, steps);
    var end := Run(s, steps);
    var approval := end.db.approvals[PcOf(end, w).a];
    assert Settled(end.db.payments[approval.payment], ExecutedCount(end.db.approvals, approval.payment));
  }

  /** So with positive amounts it never fails. */
  lemma AssessmentNeverMeetsABadStatus(s: System, steps: seq<Step>, w: WorkerId)
    requires Initial(s) && ValidRun(s, steps) && Positive(steps) && Enabled(Run(s, steps), LockPayment(w))
    ensures var end := Run(s, steps);
            var approval := end.db.approvals[PcOf(end, w).a];
            && OwnPayment(end.db, approval.tenant, approval.payment)
            && Assess(end.db.payments[approval.payment], approval.amount) != Err(InvalidPaymentState)
  {
    BadStatusIff(s, steps, w);
    PositiveRun(s, steps);
  }

  /** A worker dies between the provider's payout on `p` and its own commit. */
  predicate LateCrash(s: System, step: Step, p: PaymentId) {
    && step.Crash?
    && PcOf(s, step.w).Charged?
    && PcOf(s, step.w).a < |s.db.approvals|
    && PaymentOf(s, PcOf(s, step.w).a) == p
  }

  /** What the late crashes of a run have cost. */
  function LateLoss(s: System, steps: seq<Step>, p: PaymentId): Cents
    requires ValidRun(s, steps)
    decreases |steps|
  {
    if steps == [] then 0
    else
      (if LateCrash(s, steps[0], p) then s.db.approvals[PcOf(s, steps[0].w).a].amount else 0) +
      LateLoss(Apply(s, steps[0]), steps[1..], p)
  }

  lemma LossIsLateCrash(s: System, step: Step, p: PaymentId)
    requires Enabled(s, step)
    ensures Amount(Apply(s, step).lost, p) ==
            Amount(s.lost, p) + if LateCrash(s, step, p) then s.db.approvals[PcOf(s, step.w).a].amount else 0
  {
    if !(step.Crash? && PcOf(s, step.w).Charged?) {
      assert Apply(s, step).lost == s.lost;
    }
  }

  lemma {:induction false} LossesAreLateCrashes(s: System, steps: seq<Step>, p: PaymentId)
    requires ValidRun(s, steps)
    ensures Amount(Run(s, steps).lost, p) == Amount(s.lost, p) + LateLoss(s, steps, p)
    decreases |steps|
  {
    if steps != [] {
      LossIsLateCrash(s, steps[0], p);
      LossesAreLateCrashes(Apply(s, steps[0]), steps[1..], p);
    }
  }

  /**
    Conservation, for refunds of any amounts: what the provider has paid out on `p` is what is recorded,
    what one worker may have in flight, and the amounts of the late crashes.
   */
  lemma ProviderTotal(s: System, steps: seq<Step>, p: PaymentId)
    requires Initial(s) && ValidRun(s, steps) && p in Run(s, steps).db.payments
    ensures Amount(Run(s, steps).charged, p) ==
            Run(s, steps).db.payments[p].refunded + InFlight(Run(s, steps), p) + LateLoss(s, steps, p)
  {
    RefundsAddUp(s, steps, p);
    LossesAreLateCrashes(s, steps, p);
  }

  predicate SomeLateCrash(s: System, steps: seq<Step>, p: PaymentId)
    requires ValidRun(s, steps)
    decreases |steps|
  {
    steps != [] && (LateCrash(s, steps[0], p) || SomeLateCrash(Apply(s, steps[0]), steps[1..], p))
  }

  lemma {:induction false} PositiveLoss(s: System, steps: seq<Step>, p: PaymentId)
    requires ValidRun(s, steps) && Positive(steps) && PositiveApprovals(s.db.approvals)
    ensures LateLoss(s, steps, p) >= 0 && (LateLoss(s, steps, p) > 0 <==> SomeLateCrash(s, steps, p))
    decreases |steps|
  {
    if steps != [] {
      PositiveStep(s, steps[0]);
      PositiveLoss(Apply(s, steps[0]), steps[1..], p);
    }
  }

  /**
    With positive amounts and no refund of `p` between payout and commit, the provider's total equals
    the recorded one if and only if no worker ever died in that window.
   */
  lemma ProviderAgreesIffNoLateCrash(s: System, steps: seq<Step>, p: PaymentId)
    requires Initial(s) && ValidRun(s, steps) && Positive(steps) && p in Run(s, steps).db.payments
    requires InFlight(Run(s, steps), p) == 0
    ensures Amount(Run(s, steps).charged, p) == Run(s, steps).db.payments[p].refunded <==> !SomeLateCrash(s, steps, p)
  {
    ProviderTotal(s, steps, p);
    PositiveLoss(s, steps, p);
  }

  lemma {:induction false} RunsAppend(s: System, first: seq<Step>, second: seq<Step>)
    requires ValidRun(s, first) && ValidRun(Run(s, first), second)
    ensures ValidRun(s, first + second) && Run(s, first + second) == Run(Run(s, first), second)
    decreases |first|
  {
    if first == [] {
      assert first + second == second;
    } else {
      assert (first + second)[1..] == first[1..] + second;
      RunsAppend(Apply(s, first[0]), first[1..], second);
    }
  }

  lemma OneStep(s: System, step: Step)
    requires Enabled(s, step)
    ensures ValidRun(s, [step]) && Run(s, [step]) == Apply(s, step)
  {
    assert [step][1..] == [];
  }

  /** A worker's steps up to the payout. */
  function PayOut(w: WorkerId, tenant: TenantId, a: ApprovalId): seq<Step> {
    LockOwn(w, tenant, a) + TakeMoney(w)
  }

  function LockOwn(w: WorkerId, tenant: TenantId, a: ApprovalId): seq<Step> {
    [Start(w, tenant, a)] + [LockApproval(w)]
  }

  function TakeMoney(w: WorkerId): seq<Step> {
    [LockPayment(w)] + [CallProvider(w, Done)]
  }

  /** The tenant has this approval and it is APPROVED. */
  predicate Approved(s: System, tenant: TenantId, a: ApprovalId) {
    a < |s.db.approvals| && s.db.approvals[a].tenant == tenant && s.db.approvals[a].status.APPROVED?
  }

  predicate CanPayOut(s: System, w: WorkerId, tenant: TenantId, a: ApprovalId) {
    && PcOf(s, w).Idle?
    && a !in s.approvalLocks
    && Approved(s, tenant, a)
    && OwnPayment(s.db, tenant, PaymentOf(s, a))
    && PaymentOf(s, a) !in s.paymentLocks
    && Assess(s.db.payments[PaymentOf(s, a)], s.db.approvals[a].amount).Ok?
  }

  predicate Steps(s: System, step: Step, s': System) {
    Enabled(s, step) && Apply(s, step) == s'
  }

  lemma ApprovalLocked(s: System, w: WorkerId, tenant: TenantId, a: ApprovalId)
    requires PcOf(s, w) == Seeking(tenant, a) && a !in s.approvalLocks
    requires a < |s.db.approvals| && s.db.approvals[a].tenant == tenant && s.db.approvals[a].status.APPROVED?
    ensures Steps(s, LockApproval(w), s.(approvalLocks := s.approvalLocks[a := w], workers := s.workers[w := Holding(a)]))
  {
  }

  lemma PaymentLocked(s: System, w: WorkerId, a: ApprovalId)
    requires PcOf(s, w) == Holding(a) && a < |s.db.approvals| && OwnPayment(s.db, s.db.approvals[a].tenant, PaymentOf(s, a))
    requires PaymentOf(s, a) !in s.paymentLocks && Assess(s.db.payments[PaymentOf(s, a)], s.db.approvals[a].amount).Ok?
    ensures var (total, target) := Assess(s.db.payments[PaymentOf(s, a)], s.db.approvals[a].amount).value;
            Steps(s, LockPayment(w), s.(paymentLocks := s.paymentLocks[PaymentOf(s, a) := w],
                                        workers := s.workers[w := Ready(a, total, target)]))
  {
  }

  lemma PaidOut(s: System, w: WorkerId, a: ApprovalId, total: Cents, target: PaymentStatus)
    requires PcOf(s, w) == Ready(a, total, target) && a < |s.db.approvals|
    ensures var p := PaymentOf(s, a);
            Steps(s, CallProvider(w, Done), s.(workers := s.workers[w := Charged(a, total, target)],
                                               charged := s.charged[p := Amount(s.charged, p) + s.db.approvals[a].amount]))
  {
  }

  /** The worker holds the approval. */
  function Held(s: System, w: WorkerId, a: ApprovalId): System {
    s.(approvalLocks := s.approvalLocks[a := w], workers := s.workers[w := Holding(a)])
  }

  /** The provider has paid the worker's refund. */
  function PaidOutBy(s: System, w: WorkerId, a: ApprovalId): System
    requires a < |s.db.approvals| && PaymentOf(s, a) in s.db.payments
    requires Assess(s.db.payments[PaymentOf(s, a)], s.db.approvals[a].amount).Ok?
  {
    var p, amount := PaymentOf(s, a), s.db.approvals[a].amount;
    var (total, target) := Assess(s.db.payments[p], amount).value;
    s.(approvalLocks := s.approvalLocks[a := w], paymentLocks := s.paymentLocks[p := w],
       workers := s.workers[w := Charged(a, total, target)],
       charged := s.charged[p := Amount(s.charged, p) + amount])
  }

  lemma PayOutRuns(s: System, w: WorkerId, tenant: TenantId, a: ApprovalId)
    requires CanPayOut(s, w, tenant, a)
    ensures ValidRun(s, PayOut(w, tenant, a)) && Run(s, PayOut(w, tenant, a)) == PaidOutBy(s, w, a)
  {
    FirstHalf(s, w, tenant, a);
    SecondHalf(s, w, tenant, a);
    JoinRuns(s, LockOwn(w, tenant, a), Held(s, w, a), TakeMoney(w));
  }

  lemma Overwritten(workers: map<WorkerId, Pc>, w: WorkerId, before: Pc, after: Pc)
    ensures workers[w := before][w := after] == workers[w := after]
  {
  }

  lemma JoinRuns(s: System, first: seq<Step>, mid: System, second: seq<Step>)
    requires ValidRun(s, first) && Run(s, first) == mid && ValidRun(mid, second)
    ensures ValidRun(s, first + second) && Run(s, first + second) == Run(mid, second)
  {
    RunsAppend(s, first, second);
  }

  lemma FirstHalf(s: System, w: WorkerId, tenant: TenantId, a: ApprovalId)
    requires PcOf(s, w).Idle? && a !in s.approvalLocks && Approved(s, tenant, a)
    ensures ValidRun(s, LockOwn(w, tenant, a))
    ensures Run(s, LockOwn(w, tenant, a)) == Held(s, w, a)
  {
    var s1 := s.(workers := s.workers[w := Seeking(tenant, a)]);
    var s2 := s.(approvalLocks := s.approvalLocks[a := w], workers := s1.workers[w := Holding(a)]);
    ApprovalLocked(s1, w, tenant, a);
    TwoSteps(s, Start(w, tenant, a), s1, LockApproval(w), s2);
    assert s1.workers[w := Holding(a)] == s.workers[w := Holding(a)];
  }

  lemma SecondHalf(s: System, w: WorkerId, tenant: TenantId, a: ApprovalId)
    requires CanPayOut(s, w, tenant, a)
    ensures ValidRun(Held(s, w, a), TakeMoney(w)) && Run(Held(s, w, a), TakeMoney(w)) == PaidOutBy(s, w, a)
  {
    var p := PaymentOf(s, a);
    var (total, target) := Assess(s.db.payments[p], s.db.approvals[a].amount).value;
    var held := Held(s, w, a);
    var ready := held.(paymentLocks := s.paymentLocks[p := w], workers := held.workers[w := Ready(a, total, target)]);
    Overwritten(s.workers, w, Holding(a), Ready(a, total, target));
    Overwritten(s.workers, w, Ready(a, total, target), Charged(a, total, target));
    PaymentLocked(held, w, a);
    PaidOut(ready, w, a, total, target);
    TwoSteps(held, LockPayment(w), ready, CallProvider(w, Done), PaidOutBy(s, w, a));
  }

  lemma TwoSteps(s: System, a: Step, s1: System, b: Step, s2: System)
    requires Steps(s, a, s1) && Steps(s1, b, s2)
    ensures ValidRun(s, [a] + [b]) && Run(s, [a] + [b]) == s2
  {
    OneStep(s, a);
    OneStep(s1, b);
    RunsAppend(s, [a], [b]);
  }

  /** A worker that is never interrupted does what the service call does. */
  lemma UninterruptedRefund(s: System, w: WorkerId, tenant: TenantId, a: ApprovalId)
    requires CanPayOut(s, w, tenant, a)
    ensures ValidRun(s, PayOut(w, tenant, a) + [Finish(w)])
    ensures Run(s, PayOut(w, tenant, a) + [Finish(w)]).db == Final(s.db, ExecuteRefund(s.db, tenant, a, Done))
  {
    PayOutRuns(s, w, tenant, a);
    var charged := Run(s, PayOut(w, tenant, a));
    OneStep(charged, Finish(w));
    RunsAppend(s, PayOut(w, tenant, a), [Finish(w)]);
  }

  /** So does one that the provider refuses or fails. */
  lemma UnpaidRefund(s: System, w: WorkerId, tenant: TenantId, a: ApprovalId, reply: RefundReply)
    requires CanPayOut(s, w, tenant, a) && !reply.Done?
    ensures var steps := LockOwn(w, tenant, a) + ([LockPayment(w)] + [CallProvider(w, reply)]);
            ValidRun(s, steps) && Run(s, steps).db == Final(s.db, ExecuteRefund(s.db, tenant, a, reply))
  {
    var p := PaymentOf(s, a);
    var (total, target) := Assess(s.db.payments[p], s.db.approvals[a].amount).value;
    var held := Held(s, w, a);
    var ready := held.(paymentLocks := s.paymentLocks[p := w], workers := held.workers[w := Ready(a, total, target)]);
    FirstHalf(s, w, tenant, a);
    PaymentLocked(held, w, a);
    TwoSteps(held, LockPayment(w), ready, CallProvider(w, reply), Apply(ready, CallProvider(w, reply)));
    RunsAppend(s, LockOwn(w, tenant, a), [LockPayment(w)] + [CallProvider(w, reply)]);
  }

  /** So does one whose approval is not the tenant's or not APPROVED. */
  lemma RefusedRefund(s: System, w: WorkerId, tenant: TenantId, a: ApprovalId, reply: RefundReply)
    requires PcOf(s, w).Idle? && a !in s.approvalLocks && !Approved(s, tenant, a)
    ensures var steps := LockOwn(w, tenant, a);
            && ValidRun(s, steps)
            && PcOf(Run(s, steps), w).Idle?
            && Run(s, steps).db == Final(s.db, ExecuteRefund(s.db, tenant, a, reply))
  {
    var seeking := Apply(s, Start(w, tenant, a));
    TwoSteps(s, Start(w, tenant, a), seeking, LockApproval(w), Ended(seeking, w));
  }

  /** And one whose payment is gone, has too little left, or may not be refunded. */
  lemma UnassessedRefund(s: System, w: WorkerId, tenant: TenantId, a: ApprovalId, reply: RefundReply)
    requires PcOf(s, w).Idle? && a !in s.approvalLocks && Approved(s, tenant, a)
    requires PaymentOf(s, a) !in s.paymentLocks && !CanPayOut(s, w, tenant, a)
    ensures var steps := LockOwn(w, tenant, a) + [LockPayment(w)];
            && ValidRun(s, steps)
            && PcOf(Run(s, steps), w).Idle?
            && Run(s, steps).db == Final(s.db, ExecuteRefund(s.db, tenant, a, reply))
  {
    FirstHalf(s, w, tenant, a);
    OneStep(Held(s, w, a), LockPayment(w));
    RunsAppend(s, LockOwn(w, tenant, a), [LockPayment(w)]);
  }

  /** With a late crash the approval is still APPROVED, and running it again pays out a second time. */
  lemma LateCrashPaysTwice(s: System, w: WorkerId, tenant: TenantId, a: ApprovalId)
    requires CanPayOut(s, w, tenant, a)
    ensures var steps := PayOut(w, tenant, a) + [Crash(w)] + PayOut(w, tenant, a);
            var p := PaymentOf(s, a);
            && ValidRun(s, steps)
            && Run(s, steps).db == s.db
            && Amount(Run(s, steps).charged, p) == Amount(s.charged, p) + 2 * s.db.approvals[a].amount
  {
    PayOutRuns(s, w, tenant, a);
    var charged := Run(s, PayOut(w, tenant, a));
    OneStep(charged, Crash(w));
    RunsAppend(s, PayOut(w, tenant, a), [Crash(w)]);
    var crashed := Apply(charged, Crash(w));
    PayOutRuns(crashed, w, tenant, a);
    RunsAppend(s, PayOut(w, tenant, a) + [Crash(w)], PayOut(w, tenant, a));
  }

  /** The worker's own next step, when neither lock it wants is taken. */
  predicate CanMove(s: System, w: WorkerId) {
    Enabled(s, LockApproval(w)) || Enabled(s, LockPayment(w)) || Enabled(s, CallProvider(w, Done)) || Enabled(s, Finish(w))
  }

  lemma HolderCanMove(s: System, w: WorkerId) returns (u: WorkerId)
    requires LocksInv(s) && (forall v :: v in s.workers ==> WorkerInv(s, v))
    requires PcOf(s, w).Holding? || PcOf(s, w).Ready? || PcOf(s, w).Charged?
    ensures CanMove(s, u)
  {
    u := w;
    assert WorkerInv(s, w);
    if PcOf(s, w).Holding? && PaymentOf(s, PcOf(s, w).a) in s.paymentLocks {
      u := s.paymentLocks[PaymentOf(s, PcOf(s, w).a)];
      assert WorkerInv(s, u);
    }
  }

  /** Locks are always taken approval first, payment second: while some worker is busy, some worker can move. */
  lemma NoDeadlock(s: System, steps: seq<Step>, w: WorkerId)
    requires Initial(s) && ValidRun(s, steps) && !PcOf(Run(s, steps), w).Idle?
    ensures exists u :: CanMove(Run(s, steps), u)
  {
    InitialInv(s);
    RunKeepsInv(s, steps);
    var end := Run(s, steps);
    if PcOf(end, w).Seeking? && PcOf(end, w).a !in end.approvalLocks {
      assert CanMove(end, w);
    } else {
      var holder := if PcOf(end, w).Seeking? then end.approvalLocks[PcOf(end, w).a] else w;
      var u := HolderCanMove(end, holder);
    }
  }

  /**
    Refunds of an amount that is not positive: exactly when an executed refund leaves a consistent
    payment consistent.
   */
  lemma RefundConsistentIff(payment: Payment, amount: Cents)
    requires RefundOk(payment) && Paid(payment.status) && Assess(payment, amount).Ok?
    ensures var (total, target) := Assess(payment, amount).value;
            RefundOk(payment.(refunded := total, status := target)) <==> payment.refunded + amount > 0
  {
  }

  /** A refund of nothing, asked for, approved and executed, leaves a payment PARTIALLY_REFUNDED with nothing refunded. */
  lemma ZeroRefundBreaksTheStatus(s: System, w: WorkerId, tenant: TenantId, p: PaymentId)
    requires Initial(s) && OwnPayment(s.db, tenant, p) && s.db.payments[p].status.SUCCEEDED? && s.db.payments[p].amount > 0
    ensures var steps := [Request(tenant, p, 0)] + [Decision(0, true)] + (PayOut(w, tenant, 0) + [Finish(w)]);
            && ValidRun(s, steps)
            && p in Run(s, steps).db.payments
            && Run(s, steps).db.payments[p].status.PARTIALLY_REFUNDED?
            && Run(s, steps).db.payments[p].refunded == 0
  {
    var s1 := s.(db := RequestRefund(s.db, tenant, p, 0).outcome.value);
    var s2 := s1.(db := Decide(s1.db, 0, true).outcome.value);
    TwoSteps(s, Request(tenant, p, 0), s1, Decision(0, true), s2);
    assert s2.db.approvals == [Approval(tenant, p, 0, APPROVED)];
    UninterruptedRefund(s2, w, tenant, 0);
    JoinRuns(s, [Request(tenant, p, 0)] + [Decision(0, true)], s2, PayOut(w, tenant, 0) + [Finish(w)]);
    FullRefundRecorded(s2.db, tenant, 0);
  }

  lemma FullRefundRecorded(db: Db, tenant: TenantId, a: ApprovalId)
    requires a < |db.approvals| && db.approvals[a].tenant == tenant && db.approvals[a].status.APPROVED?
    requires OwnPayment(db, tenant, db.approvals[a].payment)
    requires Assess(db.payments[db.approvals[a].payment], db.approvals[a].amount).Ok?
    ensures var (total, target) := Assess(db.payments[db.approvals[a].payment], db.approvals[a].amount).value;
            Final(db, ExecuteRefund(db, tenant, a, Done)) == Refund(db, a, total, target)
  {
  }
}
