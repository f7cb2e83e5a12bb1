/** What no request and no crash undoes: invoices keep their terms, payments their identity and their decision. */
module LedgerRuns {
  import opened Results
  import opened BillingStates
  import opened Subscriptions
  import opened BillingDb
  import opened Ledger
  import opened LedgerInvariants

  predicate Decided(db: Db, p: PaymentId) {
    p in db.payments && !db.payments[p].status.PENDING?
  }

  /** An invoice without its status, which is all that ever changes. */
  function Terms(invoice: Invoice): Invoice {
    invoice.(status := ISSUED)
  }

  predicate InvoiceContinues(db: Db, after: Db, i: InvoiceId)
    requires i in db.invoices
  {
    i in after.invoices && Terms(after.invoices[i]) == Terms(db.invoices[i])
  }

  predicate PaymentContinues(db: Db, after: Db, p: PaymentId)
    requires p in db.payments
  {
    && p in after.payments
    && after.payments[p].tenant == db.payments[p].tenant
    && after.payments[p].invoice == db.payments[p].invoice
    && (Decided(db, p) ==> Decided(after, p) && after.payments[p].providerId == db.payments[p].providerId)
  }

  ghost predicate Continues(db: Db, after: Db) {
    && (forall i :: i in db.invoices ==> InvoiceContinues(db, after, i))
    && (forall p :: p in db.payments ==> PaymentContinues(db, after, p))
  }

  lemma ContinuesOn(a: Db, b: Db, c: Db)
    requires Continues(a, b) && Continues(b, c)
    ensures Continues(a, c)
  {
    forall i | i in a.invoices ensures InvoiceContinues(a, c, i) {
      assert InvoiceContinues(a, b, i) && InvoiceContinues(b, c, i);
    }
    forall p | p in a.payments ensures PaymentContinues(a, c, p) {
      assert PaymentContinues(a, b, p) && PaymentContinues(b, c, p);
    }
  }

  ghost predicate AllContinue(db: Db, states: seq<Db>) {
    forall k :: 0 <= k < |states| ==> Continues(db, states[k])
  }

  lemma ConfirmContinues(db: Db, tenant: TenantId, p: PaymentId, providerId: string, now: Time)
    ensures AllContinue(db, Commits(Confirm(db, tenant, p, providerId, now)))
  {
    if OwnPayment(db, tenant, p) && !db.payments[p].status.SUCCEEDED? && ConfirmFirstHalf(db, tenant, p, providerId).Ok? {
      FirstHalfShape(db, tenant, p, providerId);
      var mid := ConfirmFirstHalf(db, tenant, p, providerId).value;
      assert Continues(db, mid);
      var second := ConfirmSecondHalf(mid, tenant, db.payments[p].invoice, now);
      assert second.Ok? ==> second.value == mid.(accounts := second.value.accounts);
      assert second.Ok? ==> Continues(db, second.value);
    }
  }

  lemma FailureContinues(db: Db, tenant: TenantId, p: PaymentId, now: Time)
    ensures AllContinue(db, Commits(RecordFailure(db, tenant, p, now)))
  {
  }

  lemma RefundContinues(db: Db, tenant: TenantId, a: ApprovalId, reply: RefundReply)
    requires forall p :: p in db.payments ==> PaymentInv(db, p)
    ensures AllContinue(db, Commits(ExecuteRefund(db, tenant, a, reply)))
  {
    var states := Commits(ExecuteRefund(db, tenant, a, reply));
    forall k | 0 <= k < |states| ensures Continues(db, states[k]) {
      RefundCommits(db, tenant, a, reply, k);
      if states[k].payments != db.payments {
        RefundShape(db, a);
      }
    }
  }

  lemma WebhookContinues(db: Db, w: Webhook, now: Time)
    ensures AllContinue(db, Commits(HandleWebhook(db, w, now)))
  {
    if Resolve(db, w).Ok? {
      var tenant := db.invoices[w.invoice].tenant;
      ConfirmContinues(db, tenant, Resolve(db, w).value, w.providerId, now);
      FailureContinues(db, tenant, Resolve(db, w).value, now);
    }
  }

  /** Requests that write one new row, or no invoice and no payment at all. */
  lemma SingleWriteContinues(db: Db, op: Ledger.Op)
    requires OpOk(db, op) && Perform(db, op).outcome.Ok?
    requires op.CreateIntentOp? || op.RequestRefundOp? || op.DecideOp? || op.SubscriptionOp?
    ensures Continues(db, Perform(db, op).outcome.value)
  {
    var after := Perform(db, op).outcome.value;
    assert after.invoices == db.invoices;
    if op.CreateIntentOp? {
      assert after.payments == db.payments[op.p := after.payments[op.p]];
    } else {
      assert after.payments == db.payments;
    }
  }

  /** Every state any request commits continues the one before the request. */
  lemma OpContinues(db: Db, op: Ledger.Op)
    requires Inv(db) && OpOk(db, op)
    ensures AllContinue(db, Commits(Perform(db, op)))
  {
    match op
    case CreateInvoiceOp(i, invoice) => CreateInvoiceContinues(db, i, invoice);
    case ConfirmOp(tenant, p, providerId, now) => ConfirmContinues(db, tenant, p, providerId, now);
    case FailureOp(tenant, p, now) => FailureContinues(db, tenant, p, now);
    case WebhookOp(w, now) => WebhookContinues(db, w, now);
    case ExecuteRefundOp(tenant, a, reply) => RefundContinues(db, tenant, a, reply);
    case CancelOp(tenant, p, confirmed) => CancelContinues(db, tenant, p, confirmed);
    case _ =>
      assert Perform(db, op).saved == [];
      if Perform(db, op).outcome.Ok? {
        SingleWriteContinues(db, op);
      }
  }

  lemma CreateInvoiceContinues(db: Db, i: InvoiceId, invoice: Invoice)
    requires i !in db.invoices
    ensures AllContinue(db, Commits(CreateInvoice(db, i, invoice)))
  {
  }

  lemma CancelContinues(db: Db, tenant: TenantId, p: PaymentId, confirmed: bool)
    ensures AllContinue(db, Commits(CancelPayment(db, tenant, p, confirmed)))
  {
  }

  lemma EventContinues(db: Db, e: Event)
    requires Inv(db) && OpOk(db, e.op)
    ensures Inv(After(db, e)) && Continues(db, After(db, e))
  {
    EveryCommitKeepsInv(db, e.op);
    OpContinues(db, e.op);
  }

  /** Over any run, crashes included: what was decided stays decided, under the provider id it was decided with. */
  lemma {:induction false} RunContinues(db: Db, events: seq<Event>)
    requires Inv(db) && ValidRun(db, events)
    ensures Inv(LedgerInvariants.Run(db, events)) && Continues(db, LedgerInvariants.Run(db, events))
    decreases |events|
  {
    if events != [] {
      EventContinues(db, events[0]);
      RunContinues(After(db, events[0]), events[1..]);
      ContinuesOn(db, After(db, events[0]), LedgerInvariants.Run(db, events));
    }
  }
}
