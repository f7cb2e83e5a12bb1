/** What holds in every committed state of the billing tables, crashes between commits included. */
module LedgerInvariants {
  import opened Results
  import opened Text
  import opened BillingStates
  import opened Subscriptions
  import opened BillingDb
  import opened Ledger

  /** Money was received, whether or not some of it has been returned. */
  predicate Paid(status: PaymentStatus) {
    status in {SUCCEEDED, PARTIALLY_REFUNDED, REFUNDED}
  }

  ghost predicate HasPaid(db: Db, i: InvoiceId) {
    exists p :: p in db.payments && db.payments[p].invoice == i && Paid(db.payments[p].status)
  }

  /** An invoice is PAID exactly when some payment of it was received. */
  ghost predicate InvoiceInv(db: Db, i: InvoiceId)
    requires i in db.invoices
  {
    && db.invoices[i].status in {ISSUED, PAID}
    && (db.invoices[i].status.PAID? <==> HasPaid(db, i))
    && (db.invoices[i].subscription.Some? ==>
          var acc := AccountOf(db, db.invoices[i].tenant);
          acc.sub.Some? && acc.sub.value.id == db.invoices[i].subscription.value)
  }

  /** The status of a payment says truly how much of it has been refunded. */
  predicate RefundOk(payment: Payment) {
    && (!Paid(payment.status) || payment.status.SUCCEEDED? ==> payment.refunded == 0)
    && (payment.status.PARTIALLY_REFUNDED? ==> 0 < payment.refunded < payment.amount)
    && (payment.status.REFUNDED? ==> 0 < payment.refunded == payment.amount)
  }

  /** The sum of the executed approvals of payment `p`. */
  function Executed(approvals: seq<Approval>, p: PaymentId): Cents {
    if approvals == [] then 0
    else
      var last := approvals[|approvals| - 1];
      Executed(approvals[..|approvals| - 1], p) + (if last.payment == p && last.status.EXECUTED? then last.amount else 0)
  }

  function ExecutedCount(approvals: seq<Approval>, p: PaymentId): nat {
    if approvals == [] then 0
    else
      var last := approvals[|approvals| - 1];
      ExecutedCount(approvals[..|approvals| - 1], p) + (if last.payment == p && last.status.EXECUTED? then 1 else 0)
  }

  /** What `count` executed refunds, of whatever amounts, have made of a payment. */
  predicate Settled(payment: Payment, count: nat) {
    if count == 0 then payment.refunded == 0 && payment.status !in {REFUNDED, PARTIALLY_REFUNDED}
    else
      && payment.refunded <= payment.amount
      && payment.status == if payment.refunded == payment.amount then REFUNDED else PARTIALLY_REFUNDED
  }

  predicate PaymentInv(db: Db, p: PaymentId)
    requires p in db.payments
  {
    var payment := db.payments[p];
    && payment.invoice in db.invoices
    && payment.tenant == db.invoices[payment.invoice].tenant
    && payment.amount == db.invoices[payment.invoice].total
    && payment.currency == db.invoices[payment.invoice].currency
    && Settled(payment, ExecutedCount(db.approvals, p))
    && payment.refunded == Executed(db.approvals, p)
  }

  predicate AccountInv(db: Db, acc: Account) {
    && Faithful(acc)
    && NotArchived(acc)
    && (acc.sub.Some? ==> MonthlyPrice(db.plans, acc.sub.value.plan).Some?)
  }

  predicate ApprovalInv(db: Db, a: ApprovalId)
    requires a < |db.approvals|
  {
    OwnPayment(db, db.approvals[a].tenant, db.approvals[a].payment)
  }

  ghost predicate Inv(db: Db) {
    && (forall i :: i in db.invoices ==> InvoiceInv(db, i))
    && (forall p :: p in db.payments ==> PaymentInv(db, p))
    && (forall t :: t in db.accounts ==> AccountInv(db, db.accounts[t]))
    && (forall a :: 0 <= a < |db.approvals| ==> ApprovalInv(db, a))
    && UniqueProviderIds(db)
  }

  /** Nothing was received, or nothing was refunded and something else was received for the invoice. */
  predicate CancelHarmless(db: Db, p: PaymentId)
    requires p in db.payments
  {
    || !Paid(db.payments[p].status)
    || (db.payments[p].status.SUCCEEDED? &&
        exists q :: q in db.payments && q != p && db.payments[q].invoice == db.payments[p].invoice && Paid(db.payments[q].status))
  }

  /** What callers of the services guarantee: fresh ids, and invoices issued for the tenant's own subscription or for none. */
  predicate CallerOk(db: Db, op: Ledger.Op) {
    match op
    case CreateInvoiceOp(i, invoice) =>
      && i !in db.invoices
      && (forall p :: p in db.payments ==> db.payments[p].invoice != i)
      && invoice.status.ISSUED?
      && (invoice.subscription.Some? ==>
            var acc := AccountOf(db, invoice.tenant);
            acc.sub.Some? && acc.sub.value.id == invoice.subscription.value)
    case CreateIntentOp(_, _, p, _, _, _) =>
      p !in db.payments && forall a :: 0 <= a < |db.approvals| ==> db.approvals[a].payment != p
    case _ => true
  }

  /** The request cancels a payment that the ledger cannot do without. */
  predicate IsHarmful(db: Db, op: Ledger.Op) {
    op.CancelOp? && op.confirmed && OwnPayment(db, op.tenant, op.p) && !CancelHarmless(db, op.p)
  }

  predicate OpOk(db: Db, op: Ledger.Op) {
    CallerOk(db, op) && !IsHarmful(db, op)
  }

  // ----- Small facts about one write -----

  lemma {:induction false} ExecutedFrame(before: seq<Approval>, after: seq<Approval>, a: ApprovalId, p: PaymentId)
    requires |before| == |after| && a < |before|
    requires forall k :: 0 <= k < |before| && k != a ==> before[k] == after[k]
    ensures Executed(after, p) - Executed(before, p) ==
            (if after[a].payment == p && after[a].status.EXECUTED? then after[a].amount else 0) -
            (if before[a].payment == p && before[a].status.EXECUTED? then before[a].amount else 0)
    ensures ExecutedCount(after, p) - ExecutedCount(before, p) ==
            (if after[a].payment == p && after[a].status.EXECUTED? then 1 else 0) -
            (if before[a].payment == p && before[a].status.EXECUTED? then 1 else 0)
  {
    var n := |before| - 1;
    if a < n {
      ExecutedFrame(before[..n], after[..n], a, p);
    } else {
      assert before[..n] == after[..n];
    }
  }

  lemma {:induction false} ExecutedNone(approvals: seq<Approval>, p: PaymentId)
    requires forall a :: 0 <= a < |approvals| ==> approvals[a].payment != p
    ensures Executed(approvals, p) == 0 && ExecutedCount(approvals, p) == 0
  {
    if approvals != [] {
      ExecutedNone(approvals[..|approvals| - 1], p);
    }
  }

  lemma AccountOfInv(db: Db, t: TenantId)
    requires Inv(db)
    ensures AccountInv(db, AccountOf(db, t))
  {
  }

  lemma ApplyKeepsPlan(plans: Catalogue, acc: Account, op: Subscriptions.Op)
    requires acc.sub.Some? ==> MonthlyPrice(plans, acc.sub.value.plan).Some?
    requires Apply(acc, plans, op).Ok?
    ensures var after := Apply(acc, plans, op).value;
            && (after.sub.Some? ==> MonthlyPrice(plans, after.sub.value.plan).Some?)
            && (acc.sub.Some? ==> after.sub.Some? && after.sub.value.id == acc.sub.value.id)
  {
    match op
    case ActivateOp(_, code, _, _, _, _) => LowerIsIdempotent(code);
    case ChangePlanOp(code, _, _, _) => LowerIsIdempotent(code);
    case CreateTrialOp(_, _, _) => assert Lower("starter") == "starter";
    case _ =>
  }

  /** A subscription operation keeps the account sound and the subscription's identity. */
  lemma ApplyKeepsAccount(db: Db, acc: Account, op: Subscriptions.Op)
    requires AccountInv(db, acc) && Apply(acc, db.plans, op).Ok?
    ensures var after := Apply(acc, db.plans, op).value;
            && AccountInv(db, after)
            && (acc.sub.Some? ==> after.sub.Some? && after.sub.value.id == acc.sub.value.id)
  {
    ApplyKeepsLog(acc, db.plans, op);
    ApplyNeverArchives(acc, db.plans, op);
    ApplyKeepsPlan(db.plans, acc, op);
  }

  lemma WithAccountKeepsInv(db: Db, t: TenantId, acc: Account)
    requires Inv(db) && AccountInv(db, acc)
    requires AccountOf(db, t).sub.Some? ==> acc.sub.Some? && acc.sub.value.id == AccountOf(db, t).sub.value.id
    ensures Inv(WithAccount(db, t, acc))
  {
    var after := WithAccount(db, t, acc);
    forall i | i in after.invoices ensures InvoiceInv(after, i) {
      assert InvoiceInv(db, i);
      assert HasPaid(after, i) <==> HasPaid(db, i);
    }
    forall p | p in after.payments ensures PaymentInv(after, p) {
      assert PaymentInv(db, p);
    }
    forall u | u in after.accounts ensures AccountInv(after, after.accounts[u]) {
      assert u != t ==> AccountInv(db, db.accounts[u]);
    }
    forall a | 0 <= a < |after.approvals| ensures ApprovalInv(after, a) {
      assert ApprovalInv(db, a);
    }
  }

  /** `after` differs from `db` in payment `p` only, and `p` still belongs to the same invoice. */
  predicate OnlyPayment(db: Db, after: Db, p: PaymentId) {
    && p in db.payments
    && after.payments.Keys == db.payments.Keys
    && (forall q :: q in db.payments && q != p ==> after.payments[q] == db.payments[q])
    && after.payments[p].invoice == db.payments[p].invoice
    && after.payments[p].tenant == db.payments[p].tenant
  }

  lemma HasPaidKept(db: Db, after: Db, p: PaymentId, i: InvoiceId)
    requires OnlyPayment(db, after, p)
    requires db.payments[p].invoice != i || Paid(after.payments[p].status) == Paid(db.payments[p].status)
    ensures HasPaid(after, i) <==> HasPaid(db, i)
  {
    if HasPaid(db, i) {
      var q :| q in db.payments && db.payments[q].invoice == i && Paid(db.payments[q].status);
      assert q in after.payments && after.payments[q].invoice == i && Paid(after.payments[q].status);
    }
    if HasPaid(after, i) {
      var q :| q in after.payments && after.payments[q].invoice == i && Paid(after.payments[q].status);
      assert q in db.payments && db.payments[q].invoice == i && Paid(db.payments[q].status);
    }
  }

  lemma InvoiceKept(db: Db, after: Db, i: InvoiceId)
    requires i in db.invoices && InvoiceInv(db, i)
    requires i in after.invoices && after.invoices[i] == db.invoices[i] && after.accounts == db.accounts
    requires HasPaid(after, i) <==> HasPaid(db, i)
    ensures InvoiceInv(after, i)
  {
  }

  lemma ApprovalKept(db: Db, after: Db, p: PaymentId, a: ApprovalId)
    requires OnlyPayment(db, after, p) && a < |db.approvals| && ApprovalInv(db, a)
    requires |after.approvals| == |db.approvals|
    requires after.approvals[a].amount == db.approvals[a].amount && after.approvals[a].payment == db.approvals[a].payment
    requires after.approvals[a].tenant == db.approvals[a].tenant
    ensures ApprovalInv(after, a)
  {
  }

  lemma AccountsKept(db: Db, after: Db, t: TenantId)
    requires t in db.accounts && AccountInv(db, db.accounts[t])
    requires after.accounts == db.accounts && after.plans == db.plans
    ensures AccountInv(after, after.accounts[t])
  {
  }

  lemma UniqueKept(db: Db, after: Db)
    requires UniqueProviderIds(db) && after.payments.Keys == db.payments.Keys
    requires forall q :: q in db.payments ==>
               after.payments[q].providerId == db.payments[q].providerId && after.payments[q].tenant == db.payments[q].tenant
    ensures UniqueProviderIds(after)
  {
    forall q, r | q in after.payments && r in after.payments && SameProviderId(after.payments[q], after.payments[r])
      ensures q == r
    {
      assert SameProviderId(db.payments[q], db.payments[r]);
    }
  }

  /** Rewriting payment `p` without moving it across the received/not received line leaves the rest alone. */
  lemma PaymentWriteKeepsInv(db: Db, after: Db, p: PaymentId)
    requires Inv(db) && OnlyPayment(db, after, p)
    requires after.invoices == db.invoices && after.accounts == db.accounts && after.plans == db.plans
    requires after.payments[p].providerId == db.payments[p].providerId
    requires Paid(after.payments[p].status) == Paid(db.payments[p].status)
    requires |after.approvals| == |db.approvals|
    requires forall a :: 0 <= a < |db.approvals| ==>
               after.approvals[a] == db.approvals[a].(status := after.approvals[a].status)
    requires forall q :: q in after.payments ==> PaymentInv(after, q)
    ensures Inv(after)
  {
    forall i | i in after.invoices ensures InvoiceInv(after, i) {
      HasPaidKept(db, after, p, i);
      InvoiceKept(db, after, i);
    }
    OthersKept(db, after, p);
    UniqueKept(db, after);
  }

  // ----- Each operation -----

  lemma CreateInvoiceKeepsInv(db: Db, i: InvoiceId, invoice: Invoice)
    requires Inv(db) && OpOk(db, CreateInvoiceOp(i, invoice))
    ensures Inv(db.(invoices := db.invoices[i := invoice]))
  {
    var after := db.(invoices := db.invoices[i := invoice]);
    forall k | k in after.invoices ensures InvoiceInv(after, k) {
      assert HasPaid(after, k) <==> HasPaid(db, k);
      assert k != i ==> InvoiceInv(db, k);
    }
    forall p | p in after.payments ensures PaymentInv(after, p) {
      assert PaymentInv(db, p);
    }
    forall t | t in after.accounts ensures AccountInv(after, after.accounts[t]) {
      assert AccountInv(db, db.accounts[t]);
    }
    forall a | 0 <= a < |after.approvals| ensures ApprovalInv(after, a) {
      assert ApprovalInv(db, a);
    }
  }

  lemma CreateIntentKeepsInv(db: Db, tenant: TenantId, i: InvoiceId, p: PaymentId, amount: Option<Cents>,
                             currency: Option<string>, reply: ProviderReply)
    requires Inv(db) && OpOk(db, CreateIntentOp(tenant, i, p, amount, currency, reply))
    requires CreateIntent(db, tenant, i, p, amount, currency, reply).outcome.Ok?
    ensures Inv(CreateIntent(db, tenant, i, p, amount, currency, reply).outcome.value)
  {
    var after := CreateIntent(db, tenant, i, p, amount, currency, reply).outcome.value;
    ExecutedNone(db.approvals, p);
    forall k | k in after.invoices ensures InvoiceInv(after, k) {
      PendingIsNotPaid(db, after, p, k);
      InvoiceKept(db, after, k);
    }
    forall q | q in after.payments ensures PaymentInv(after, q) {
      assert q != p ==> PaymentInv(db, q);
    }
    forall t | t in after.accounts ensures AccountInv(after, after.accounts[t]) {
      AccountsKept(db, after, t);
    }
    forall a | 0 <= a < |after.approvals| ensures ApprovalInv(after, a) {
      assert ApprovalInv(db, a);
    }
    NewPaymentKeepsUnique(db, after, p);
  }

  lemma PendingIsNotPaid(db: Db, after: Db, p: PaymentId, i: InvoiceId)
    requires p !in db.payments && p in after.payments && after.payments == db.payments[p := after.payments[p]]
    requires after.payments[p].status.PENDING?
    ensures HasPaid(after, i) <==> HasPaid(db, i)
  {
    if HasPaid(db, i) {
      var q :| q in db.payments && db.payments[q].invoice == i && Paid(db.payments[q].status);
      assert q in after.payments && after.payments[q].invoice == i && Paid(after.payments[q].status);
    }
    if HasPaid(after, i) {
      var q :| q in after.payments && after.payments[q].invoice == i && Paid(after.payments[q].status);
      assert q in db.payments && db.payments[q].invoice == i && Paid(db.payments[q].status);
    }
  }

  lemma NewPaymentKeepsUnique(db: Db, after: Db, p: PaymentId)
    requires UniqueProviderIds(db) && p !in db.payments && p in after.payments
    requires after.payments == db.payments[p := after.payments[p]] && after.payments[p].providerId.Some?
    requires !ProviderIdTaken(db, after.payments[p].tenant, p, after.payments[p].providerId.value)
    ensures UniqueProviderIds(after)
  {
    forall q, r | q in after.payments && r in after.payments && SameProviderId(after.payments[q], after.payments[r])
      ensures q == r
    {
      if q != p && r != p {
        assert SameProviderId(db.payments[q], db.payments[r]);
      }
    }
  }

  lemma FirstHalfShape(db: Db, tenant: TenantId, p: PaymentId, providerId: string)
    requires OwnPayment(db, tenant, p) && !db.payments[p].status.SUCCEEDED?
    requires ConfirmFirstHalf(db, tenant, p, providerId).Ok?
    ensures var mid := ConfirmFirstHalf(db, tenant, p, providerId).value;
            var i := db.payments[p].invoice;
            && db.payments[p].status.PENDING?
            && OnlyPayment(db, mid, p)
            && mid == db.(payments := mid.payments, invoices := mid.invoices)
            && mid.payments[p] == db.payments[p].(status := SUCCEEDED, providerId := mid.payments[p].providerId)
            && (mid.payments[p].providerId == db.payments[p].providerId
                || (mid.payments[p].providerId == Some(providerId) && !ProviderIdTaken(db, tenant, p, providerId)))
            && mid.invoices == db.invoices[i := db.invoices[i].(status := PAID)]
  {
  }

  /** Accounts and approvals do not notice a change of payment `p`. */
  lemma OthersKept(db: Db, after: Db, p: PaymentId)
    requires OnlyPayment(db, after, p) && after.accounts == db.accounts && after.plans == db.plans
    requires |after.approvals| == |db.approvals|
    requires forall a :: 0 <= a < |db.approvals| ==> after.approvals[a] == db.approvals[a].(status := after.approvals[a].status)
    requires forall t :: t in db.accounts ==> AccountInv(db, db.accounts[t])
    requires forall a :: 0 <= a < |db.approvals| ==> ApprovalInv(db, a)
    ensures forall t :: t in after.accounts ==> AccountInv(after, after.accounts[t])
    ensures forall a :: 0 <= a < |after.approvals| ==> ApprovalInv(after, a)
  {
    forall t | t in after.accounts ensures AccountInv(after, after.accounts[t]) {
      AccountsKept(db, after, t);
    }
    forall a | 0 <= a < |after.approvals| ensures ApprovalInv(after, a) {
      ApprovalKept(db, after, p, a);
    }
  }

  lemma FirstHalfInvoice(db: Db, tenant: TenantId, p: PaymentId, providerId: string, k: InvoiceId)
    requires OwnPayment(db, tenant, p) && !db.payments[p].status.SUCCEEDED?
    requires ConfirmFirstHalf(db, tenant, p, providerId).Ok?
    requires k in db.invoices && InvoiceInv(db, k)
    ensures InvoiceInv(ConfirmFirstHalf(db, tenant, p, providerId).value, k)
  {
    var mid := ConfirmFirstHalf(db, tenant, p, providerId).value;
    FirstHalfShape(db, tenant, p, providerId);
    if k == db.payments[p].invoice {
      assert p in mid.payments && mid.payments[p].invoice == k && Paid(mid.payments[p].status);
    } else {
      HasPaidKept(db, mid, p, k);
      InvoiceKept(db, mid, k);
    }
  }

  /** The state the invoice service commits in the middle of a confirmation already satisfies everything. */
  lemma FirstHalfKeepsInv(db: Db, tenant: TenantId, p: PaymentId, providerId: string)
    requires Inv(db) && OwnPayment(db, tenant, p) && !db.payments[p].status.SUCCEEDED?
    requires ConfirmFirstHalf(db, tenant, p, providerId).Ok?
    ensures Inv(ConfirmFirstHalf(db, tenant, p, providerId).value)
  {
    var mid := ConfirmFirstHalf(db, tenant, p, providerId).value;
    FirstHalfShape(db, tenant, p, providerId);
    forall k | k in mid.invoices ensures InvoiceInv(mid, k) {
      FirstHalfInvoice(db, tenant, p, providerId, k);
    }
    forall q | q in mid.payments ensures PaymentInv(mid, q) {
      assert PaymentInv(db, q);
    }
    OthersKept(db, mid, p);
    FirstHalfKeepsUnique(db, tenant, p, providerId);
  }

  lemma FirstHalfKeepsUnique(db: Db, tenant: TenantId, p: PaymentId, providerId: string)
    requires UniqueProviderIds(db) && OwnPayment(db, tenant, p) && !db.payments[p].status.SUCCEEDED?
    requires ConfirmFirstHalf(db, tenant, p, providerId).Ok?
    ensures UniqueProviderIds(ConfirmFirstHalf(db, tenant, p, providerId).value)
  {
    var mid := ConfirmFirstHalf(db, tenant, p, providerId).value;
    FirstHalfShape(db, tenant, p, providerId);
    forall q, r | q in mid.payments && r in mid.payments && SameProviderId(mid.payments[q], mid.payments[r])
      ensures q == r
    {
      if mid.payments[p].providerId == db.payments[p].providerId || (q != p && r != p) {
        assert SameProviderId(db.payments[q], db.payments[r]);
      }
    }
  }

  lemma SecondHalfKeepsInv(mid: Db, tenant: TenantId, i: InvoiceId, now: Time)
    requires Inv(mid) && i in mid.invoices && ConfirmSecondHalf(mid, tenant, i, now).Ok?
    ensures Inv(ConfirmSecondHalf(mid, tenant, i, now).value)
  {
    if mid.invoices[i].subscription.Some? {
      var acc := AccountOf(mid, tenant);
      AccountOfInv(mid, tenant);
      var sub := acc.sub.value;
      var op := ActivateOp(sub.id, sub.plan, sub.cycle, PAYMENT_PROVIDER, true, now);
      ApplyKeepsAccount(mid, acc, op);
      WithAccountKeepsInv(mid, tenant, Apply(acc, mid.plans, op).value);
    }
  }

  lemma SubscriptionKeepsInv(db: Db, tenant: TenantId, op: Subscriptions.Op)
    requires Inv(db) && Apply(AccountOf(db, tenant), db.plans, op).Ok?
    ensures Inv(WithAccount(db, tenant, Apply(AccountOf(db, tenant), db.plans, op).value))
  {
    AccountOfInv(db, tenant);
    ApplyKeepsAccount(db, AccountOf(db, tenant), op);
    WithAccountKeepsInv(db, tenant, Apply(AccountOf(db, tenant), db.plans, op).value);
  }

  lemma MarkFailedKeepsInv(db: Db, p: PaymentId)
    requires Inv(db) && p in db.payments && db.payments[p].status.PENDING?
    ensures Inv(MarkFailed(db, p))
  {
    var failed := MarkFailed(db, p);
    forall q | q in failed.payments ensures PaymentInv(failed, q) {
      assert PaymentInv(db, q);
    }
    PaymentWriteKeepsInv(db, failed, p);
  }

  function MarkFailed(db: Db, p: PaymentId): Db
    requires p in db.payments
  {
    db.(payments := db.payments[p := db.payments[p].(status := FAILED)])
  }

  /** A recorded failure is two writes: the payment, then one rung of the ladder. */
  lemma FailureShape(db: Db, tenant: TenantId, p: PaymentId, now: Time)
    requires OwnPayment(db, tenant, p) && RecordFailure(db, tenant, p, now).outcome.Ok? && !db.payments[p].status.FAILED?
    ensures db.payments[p].status.PENDING?
    ensures var failed := MarkFailed(db, p);
            var dunned := Apply(AccountOf(failed, tenant), failed.plans, DunOp(0, now));
            dunned.Ok? && RecordFailure(db, tenant, p, now).outcome.value == WithAccount(failed, tenant, dunned.value)
  {
  }

  lemma RecordFailureKeepsInv(db: Db, tenant: TenantId, p: PaymentId, now: Time)
    requires Inv(db) && OwnPayment(db, tenant, p) && RecordFailure(db, tenant, p, now).outcome.Ok?
    ensures Inv(RecordFailure(db, tenant, p, now).outcome.value)
  {
    if db.payments[p].status.FAILED? {
      assert RecordFailure(db, tenant, p, now).outcome.value == db;
    } else {
      FailureShape(db, tenant, p, now);
      MarkFailedKeepsInv(db, p);
      SubscriptionKeepsInv(MarkFailed(db, p), tenant, DunOp(0, now));
    }
  }

  lemma CancelledPayments(db: Db, p: PaymentId)
    requires p in db.payments && CancelHarmless(db, p) && forall q :: q in db.payments ==> PaymentInv(db, q)
    ensures forall q :: q in Cancelled(db, p).payments ==> PaymentInv(Cancelled(db, p), q)
  {
    forall q | q in Cancelled(db, p).payments ensures PaymentInv(Cancelled(db, p), q) {
      assert PaymentInv(db, q);
    }
  }

  lemma CancelledInvoice(db: Db, p: PaymentId, i: InvoiceId)
    requires p in db.payments && i in db.invoices && InvoiceInv(db, i) && CancelHarmless(db, p)
    ensures InvoiceInv(Cancelled(db, p), i)
  {
    var after := Cancelled(db, p);
    if HasPaid(db, i) {
      var q :| q in db.payments && db.payments[q].invoice == i && Paid(db.payments[q].status);
      if q == p {
        q :| q in db.payments && q != p && db.payments[q].invoice == i && Paid(db.payments[q].status);
      }
      assert q in after.payments && after.payments[q].invoice == i && Paid(after.payments[q].status);
    }
    if HasPaid(after, i) {
      var q :| q in after.payments && after.payments[q].invoice == i && Paid(after.payments[q].status);
      assert q in db.payments && db.payments[q].invoice == i && Paid(db.payments[q].status);
    }
    InvoiceKept(db, after, i);
  }

  lemma CancelledInvoices(db: Db, p: PaymentId)
    requires p in db.payments && CancelHarmless(db, p) && forall i :: i in db.invoices ==> InvoiceInv(db, i)
    ensures forall i :: i in Cancelled(db, p).invoices ==> InvoiceInv(Cancelled(db, p), i)
  {
    forall i | i in Cancelled(db, p).invoices ensures InvoiceInv(Cancelled(db, p), i) {
      CancelledInvoice(db, p, i);
    }
  }

  lemma CancelShape(db: Db, p: PaymentId)
    requires p in db.payments && UniqueProviderIds(db)
    ensures OnlyPayment(db, Cancelled(db, p), p) && Cancelled(db, p) == db.(payments := Cancelled(db, p).payments)
    ensures UniqueProviderIds(Cancelled(db, p))
  {
    UniqueKept(db, Cancelled(db, p));
  }

  lemma CancelKeepsInv(db: Db, p: PaymentId)
    requires Inv(db) && p in db.payments && CancelHarmless(db, p)
    ensures Inv(Cancelled(db, p))
  {
    CancelledPayments(db, p);
    CancelledInvoices(db, p);
    CancelShape(db, p);
    OthersKept(db, Cancelled(db, p), p);
  }

  /**
    The cancel endpoint writes CANCELLED over any status.  The ledger survives exactly when the payment
    was not received, or it was not refunded and the invoice has another received payment.
   */
  lemma CancelKeepsInvIff(db: Db, p: PaymentId)
    requires Inv(db) && p in db.payments
    ensures Inv(Cancelled(db, p)) <==> CancelHarmless(db, p)
  {
    if CancelHarmless(db, p) {
      CancelKeepsInv(db, p);
    } else {
      CancelBreaks(db, p);
    }
  }

  lemma CancelBreaks(db: Db, p: PaymentId)
    requires p in db.payments && PaymentInv(db, p) && InvoiceInv(db, db.payments[p].invoice) && !CancelHarmless(db, p)
    ensures !PaymentInv(Cancelled(db, p), p) || !InvoiceInv(Cancelled(db, p), db.payments[p].invoice)
  {
    var after, i := Cancelled(db, p), db.payments[p].invoice;
    assert HasPaid(db, i);
    if db.payments[p].status.SUCCEEDED? {
      forall q | q in after.payments && after.payments[q].invoice == i ensures !Paid(after.payments[q].status) {
        assert q != p ==> q in db.payments && db.payments[q].invoice == i;
      }
      assert !HasPaid(after, i);
    }
  }

  lemma SetApprovalKeepsInv(db: Db, a: ApprovalId, status: ApprovalStatus)
    requires Inv(db) && a < |db.approvals| && !db.approvals[a].status.EXECUTED? && !status.EXECUTED?
    ensures Inv(SetApproval(db, a, status))
  {
    var after := SetApproval(db, a, status);
    forall i | i in after.invoices ensures InvoiceInv(after, i) {
      assert InvoiceInv(db, i);
      assert HasPaid(after, i) <==> HasPaid(db, i);
    }
    forall p | p in after.payments ensures PaymentInv(after, p) {
      assert PaymentInv(db, p);
      ExecutedFrame(db.approvals, after.approvals, a, p);
    }
    forall t | t in after.accounts ensures AccountInv(after, after.accounts[t]) {
      assert AccountInv(db, db.accounts[t]);
    }
    forall b | 0 <= b < |after.approvals| ensures ApprovalInv(after, b) {
      assert ApprovalInv(db, b);
    }
  }

  lemma RequestRefundKeepsInv(db: Db, tenant: TenantId, p: PaymentId, refund: Cents)
    requires Inv(db) && RequestRefund(db, tenant, p, refund).outcome.Ok?
    ensures Inv(RequestRefund(db, tenant, p, refund).outcome.value)
  {
    var after := RequestRefund(db, tenant, p, refund).outcome.value;
    assert after.approvals[..|after.approvals| - 1] == db.approvals;
    forall i | i in after.invoices ensures InvoiceInv(after, i) {
      assert InvoiceInv(db, i);
      assert HasPaid(after, i) <==> HasPaid(db, i);
    }
    forall q | q in after.payments ensures PaymentInv(after, q) {
      assert PaymentInv(db, q);
    }
    forall t | t in after.accounts ensures AccountInv(after, after.accounts[t]) {
      assert AccountInv(db, db.accounts[t]);
    }
    forall b | 0 <= b < |after.approvals| ensures ApprovalInv(after, b) {
      assert b < |db.approvals| ==> ApprovalInv(db, b);
    }
  }

  /** A refund that is let through leaves a received payment settled, whatever its amount. */
  lemma AssessSettles(payment: Payment, count: nat, amount: Cents)
    requires Settled(payment, count) && Assess(payment, amount).Ok?
    ensures Paid(payment.status)
    ensures var (total, target) := Assess(payment, amount).value;
            && Paid(target)
            && total == payment.refunded + amount
            && Settled(payment.(refunded := total, status := target), count + 1)
  {
  }

  lemma RefundKeepsPayment(db: Db, a: ApprovalId, q: PaymentId)
    requires a < |db.approvals| && db.approvals[a].status.APPROVED?
    requires db.approvals[a].payment in db.payments && q in db.payments
    requires Assess(db.payments[db.approvals[a].payment], db.approvals[a].amount).Ok? && PaymentInv(db, q)
    ensures var (total, target) := Assess(db.payments[db.approvals[a].payment], db.approvals[a].amount).value;
            PaymentInv(Refund(db, a, total, target), q)
  {
    var (total, target) := Assess(db.payments[db.approvals[a].payment], db.approvals[a].amount).value;
    ExecutedFrame(db.approvals, Refund(db, a, total, target).approvals, a, q);
    if q == db.approvals[a].payment {
      AssessSettles(db.payments[q], ExecutedCount(db.approvals, q), db.approvals[a].amount);
    }
  }

  lemma RefundKeepsPayments(db: Db, a: ApprovalId)
    requires a < |db.approvals| && db.approvals[a].status.APPROVED? && db.approvals[a].payment in db.payments
    requires Assess(db.payments[db.approvals[a].payment], db.approvals[a].amount).Ok?
    requires forall q :: q in db.payments ==> PaymentInv(db, q)
    ensures var (total, target) := Assess(db.payments[db.approvals[a].payment], db.approvals[a].amount).value;
            forall q :: q in Refund(db, a, total, target).payments ==> PaymentInv(Refund(db, a, total, target), q)
  {
    var (total, target) := Assess(db.payments[db.approvals[a].payment], db.approvals[a].amount).value;
    forall q | q in Refund(db, a, total, target).payments ensures PaymentInv(Refund(db, a, total, target), q) {
      RefundKeepsPayment(db, a, q);
    }
  }

  lemma RefundShape(db: Db, a: ApprovalId)
    requires a < |db.approvals| && db.approvals[a].status.APPROVED? && db.approvals[a].payment in db.payments
    requires Assess(db.payments[db.approvals[a].payment], db.approvals[a].amount).Ok? && PaymentInv(db, db.approvals[a].payment)
    ensures var p := db.approvals[a].payment;
            var (total, target) := Assess(db.payments[p], db.approvals[a].amount).value;
            var after := Refund(db, a, total, target);
            && OnlyPayment(db, after, p)
            && after == db.(payments := after.payments, approvals := after.approvals)
            && after.payments[p].providerId == db.payments[p].providerId
            && Paid(after.payments[p].status) && Paid(db.payments[p].status)
            && after.approvals == db.approvals[a := db.approvals[a].(status := EXECUTED)]
  {
    var p := db.approvals[a].payment;
    AssessSettles(db.payments[p], ExecutedCount(db.approvals, p), db.approvals[a].amount);
  }

  lemma RefundKeepsInv(db: Db, a: ApprovalId)
    requires Inv(db) && a < |db.approvals| && db.approvals[a].status.APPROVED?
    requires db.approvals[a].payment in db.payments
    requires Assess(db.payments[db.approvals[a].payment], db.approvals[a].amount).Ok?
    ensures var (total, target) := Assess(db.payments[db.approvals[a].payment], db.approvals[a].amount).value;
            Inv(Refund(db, a, total, target))
  {
    var p := db.approvals[a].payment;
    var (total, target) := Assess(db.payments[p], db.approvals[a].amount).value;
    assert PaymentInv(db, p);
    RefundShape(db, a);
    RefundKeepsPayments(db, a);
    PaymentWriteKeepsInv(db, Refund(db, a, total, target), p);
  }

  // ----- Every request, every commit -----

  ghost predicate AllInv(states: seq<Db>) {
    forall k :: 0 <= k < |states| ==> Inv(states[k])
  }

  lemma ConfirmKeepsInv(db: Db, tenant: TenantId, p: PaymentId, providerId: string, now: Time)
    requires Inv(db)
    ensures AllInv(Commits(Confirm(db, tenant, p, providerId, now)))
  {
    if OwnPayment(db, tenant, p) && !db.payments[p].status.SUCCEEDED? && ConfirmFirstHalf(db, tenant, p, providerId).Ok? {
      var mid := ConfirmFirstHalf(db, tenant, p, providerId).value;
      FirstHalfKeepsInv(db, tenant, p, providerId);
      var second := ConfirmSecondHalf(mid, tenant, db.payments[p].invoice, now);
      if second.Ok? {
        SecondHalfKeepsInv(mid, tenant, db.payments[p].invoice, now);
      }
      CommitsInv(Effect([mid], second));
    }
  }

  lemma CommitsInv(e: Effect)
    requires AllInv(e.saved) && (e.outcome.Ok? ==> Inv(e.outcome.value))
    ensures AllInv(Commits(e))
  {
  }

  lemma FailureKeepsInv(db: Db, tenant: TenantId, p: PaymentId, now: Time)
    requires Inv(db)
    ensures AllInv(Commits(RecordFailure(db, tenant, p, now)))
  {
    if OwnPayment(db, tenant, p) && RecordFailure(db, tenant, p, now).outcome.Ok? {
      RecordFailureKeepsInv(db, tenant, p, now);
    }
  }

  /** A refund call commits nothing, the database as it was, a failed approval, or the whole refund. */
  lemma RefundCommits(db: Db, tenant: TenantId, a: ApprovalId, reply: RefundReply, k: nat)
    requires k < |Commits(ExecuteRefund(db, tenant, a, reply))|
    ensures var state := Commits(ExecuteRefund(db, tenant, a, reply))[k];
            || state == db
            || (a < |db.approvals| && db.approvals[a].status.APPROVED? &&
                (state == SetApproval(db, a, EXECUTION_FAILED) ||
                 (OwnPayment(db, tenant, db.approvals[a].payment) &&
                  Assess(db.payments[db.approvals[a].payment], db.approvals[a].amount).Ok? &&
                  var (total, target) := Assess(db.payments[db.approvals[a].payment], db.approvals[a].amount).value;
                  state == Refund(db, a, total, target))))
  {
  }

  lemma ExecuteRefundKeepsInv(db: Db, tenant: TenantId, a: ApprovalId, reply: RefundReply)
    requires Inv(db)
    ensures AllInv(Commits(ExecuteRefund(db, tenant, a, reply)))
  {
    var states := Commits(ExecuteRefund(db, tenant, a, reply));
    forall k | 0 <= k < |states| ensures Inv(states[k]) {
      RefundCommits(db, tenant, a, reply, k);
      if states[k] != db {
        if states[k] == SetApproval(db, a, EXECUTION_FAILED) {
          SetApprovalKeepsInv(db, a, EXECUTION_FAILED);
        } else {
          RefundKeepsInv(db, a);
        }
      }
    }
  }

  lemma WebhookKeepsInv(db: Db, w: Webhook, now: Time)
    requires Inv(db)
    ensures AllInv(Commits(HandleWebhook(db, w, now)))
  {
    if Resolve(db, w).Ok? {
      var tenant := db.invoices[w.invoice].tenant;
      if Announces(w, Success) {
        ConfirmKeepsInv(db, tenant, Resolve(db, w).value, w.providerId, now);
      } else if Announces(w, Failure) {
        FailureKeepsInv(db, tenant, Resolve(db, w).value, now);
      }
    }
  }

  /** Requests that commit once, at the end. */
  lemma SingleCommitKeepsInv(db: Db, op: Ledger.Op)
    requires Inv(db) && OpOk(db, op) && Perform(db, op).outcome.Ok?
    requires op.CreateIntentOp? || op.RequestRefundOp? || op.DecideOp? || op.SubscriptionOp?
    ensures Inv(Perform(db, op).outcome.value)
  {
    match op
    case CreateIntentOp(tenant, i, p, amount, currency, provider) =>
      CreateIntentKeepsInv(db, tenant, i, p, amount, currency, provider);
    case RequestRefundOp(tenant, p, refund) => RequestRefundKeepsInv(db, tenant, p, refund);
    case DecideOp(a, approve) => SetApprovalKeepsInv(db, a, if approve then APPROVED else CLOSED);
    case SubscriptionOp(tenant, subOp) => SubscriptionKeepsInv(db, tenant, subOp);
  }

  /** Every state any request commits, in the middle or at the end, satisfies the invariant. */
  lemma EveryCommitKeepsInv(db: Db, op: Ledger.Op)
    requires Inv(db) && OpOk(db, op)
    ensures AllInv(Commits(Perform(db, op)))
  {
    match op
    case CreateInvoiceOp(i, invoice) =>
      CreateInvoiceKeepsInv(db, i, invoice);
      CommitsInv(CreateInvoice(db, i, invoice));
    case ConfirmOp(tenant, p, providerId, now) => ConfirmKeepsInv(db, tenant, p, providerId, now);
    case FailureOp(tenant, p, now) => FailureKeepsInv(db, tenant, p, now);
    case WebhookOp(w, now) => WebhookKeepsInv(db, w, now);
    case ExecuteRefundOp(tenant, a, reply) => ExecuteRefundKeepsInv(db, tenant, a, reply);
    case CancelOp(tenant, p, confirmed) =>
      if OwnPayment(db, tenant, p) && confirmed {
        CancelKeepsInv(db, p);
      }
      CommitsInv(Perform(db, op));
    case _ =>
      assert Perform(db, op).saved == [];
      if Perform(db, op).outcome.Ok? {
        SingleCommitKeepsInv(db, op);
      }
      CommitsInv(Perform(db, op));
  }

  /** One request of which the first `survived` commits reach the database before the process stops. */
  datatype Event = Event(op: Ledger.Op, survived: nat)

  ghost function After(db: Db, e: Event): Db {
    Latest(db, Commits(Perform(db, e.op)), e.survived)
  }

  ghost predicate ValidRun(db: Db, events: seq<Event>)
    decreases |events|
  {
    events == [] || (OpOk(db, events[0].op) && ValidRun(After(db, events[0]), events[1..]))
  }

  ghost function Run(db: Db, events: seq<Event>): Db
    decreases |events|
  {
    if events == [] then db else Run(After(db, events[0]), events[1..])
  }

  /** The ledger invariant over whole runs, with a crash possible after any commit of any request. */
  lemma {:induction false} RunKeepsInv(db: Db, events: seq<Event>)
    requires Inv(db) && ValidRun(db, events)
    ensures Inv(Run(db, events))
    decreases |events|
  {
    if events != [] {
      EveryCommitKeepsInv(db, events[0].op);
      RunKeepsInv(After(db, events[0]), events[1..]);
    }
  }

  /** The cancellation is harmful and reaches the database. */
  ghost predicate DoesHarm(db: Db, e: Event) {
    IsHarmful(db, e.op) && e.survived > 0
  }

  /** Exactly the harmful cancellations break the invariant: no other request does, and no crash. */
  lemma EventKeepsInvIff(db: Db, e: Event)
    requires Inv(db) && CallerOk(db, e.op)
    ensures Inv(After(db, e)) <==> !DoesHarm(db, e)
  {
    if IsHarmful(db, e.op) {
      CancelKeepsInvIff(db, e.op.p);
    } else {
      EveryCommitKeepsInv(db, e.op);
    }
  }

  ghost predicate CalledRun(db: Db, events: seq<Event>)
    decreases |events|
  {
    events == [] || (CallerOk(db, events[0].op) && CalledRun(After(db, events[0]), events[1..]))
  }

  /** The ledger is sound at every point of the run. */
  ghost predicate SoundThroughout(db: Db, events: seq<Event>)
    decreases |events|
  {
    Inv(db) && (events == [] || SoundThroughout(After(db, events[0]), events[1..]))
  }

  ghost predicate SomethingHarms(db: Db, events: seq<Event>)
    decreases |events|
  {
    events != [] && (DoesHarm(db, events[0]) || SomethingHarms(After(db, events[0]), events[1..]))
  }

  /** Over any run of requests and crashes, cancellations of any kind included: exactly when the ledger stays sound. */
  lemma {:induction false} SoundThroughoutIff(db: Db, events: seq<Event>)
    requires Inv(db) && CalledRun(db, events)
    ensures SoundThroughout(db, events) <==> !SomethingHarms(db, events)
    decreases |events|
  {
    if events != [] {
      EventKeepsInvIff(db, events[0]);
      if Inv(After(db, events[0])) {
        SoundThroughoutIff(After(db, events[0]), events[1..]);
      }
    }
  }

  function EmptyTables(plans: Catalogue): Db {
    Db(plans, map[], map[], map[], [])
  }

  /** The same from empty tables, spelled out: the claims a reader of the committed tables may rely on. */
  lemma CommittedTables(plans: Catalogue, events: seq<Event>)
    requires ValidRun(EmptyTables(plans), events)
    ensures var db := Run(EmptyTables(plans), events);
            && (forall i :: i in db.invoices ==> (db.invoices[i].status.PAID? <==>
                  exists p :: p in db.payments && db.payments[p].invoice == i
                              && db.payments[p].status in {SUCCEEDED, PARTIALLY_REFUNDED, REFUNDED}))
            && (forall p :: p in db.payments ==>
                  && db.payments[p].invoice in db.invoices
                  && db.payments[p].tenant == db.invoices[db.payments[p].invoice].tenant
                  && db.payments[p].amount == db.invoices[db.payments[p].invoice].total
                  && db.payments[p].currency == db.invoices[db.payments[p].invoice].currency
                  && db.payments[p].refunded == Executed(db.approvals, p)
                  && Settled(db.payments[p], ExecutedCount(db.approvals, p)))
            && (forall t :: t in db.accounts ==> Faithful(db.accounts[t]) && NotArchived(db.accounts[t]))
  {
    RunKeepsInv(EmptyTables(plans), events);
    var db := Run(EmptyTables(plans), events);
    forall i | i in db.invoices
      ensures db.invoices[i].status.PAID? <==>
              exists p :: p in db.payments && db.payments[p].invoice == i
                          && db.payments[p].status in {SUCCEEDED, PARTIALLY_REFUNDED, REFUNDED}
    {
      assert InvoiceInv(db, i);
    }
    forall p | p in db.payments ensures PaymentInv(db, p) {
    }
  }

  /** The status tells the truth about the refunded total exactly when nothing was refunded or that total is positive. */
  lemma StatusTrueIff(db: Db, p: PaymentId)
    requires Inv(db) && p in db.payments
    ensures RefundOk(db.payments[p]) <==> ExecutedCount(db.approvals, p) == 0 || db.payments[p].refunded > 0
  {
    assert PaymentInv(db, p);
  }
}
