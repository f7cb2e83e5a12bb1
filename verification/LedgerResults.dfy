/** What the ledger invariant buys: confirmations, invoices, failures and payment verification. */
module LedgerResults {
  import opened Results
  import opened Text
  import opened BillingStates
  import opened Subscriptions
  import opened BillingDb
  import opened Ledger
  import opened LedgerInvariants

  // ----- Confirmation: the commit in the middle -----

  /** Exactly when a confirmation leaves the payment committed as received and then raises. */
  lemma ConfirmFailsHalfwayIff(db: Db, tenant: TenantId, p: PaymentId, providerId: string, now: Time)
    requires OwnPayment(db, tenant, p) && !db.payments[p].status.SUCCEEDED?
    requires ConfirmFirstHalf(db, tenant, p, providerId).Ok?
    ensures var acc := AccountOf(db, tenant);
            Confirm(db, tenant, p, providerId, now).outcome.Err? <==>
              && db.invoices[db.payments[p].invoice].subscription.Some?
              && (acc.sub.None? || acc.sub.value.status.ARCHIVED? || MonthlyPrice(db.plans, acc.sub.value.plan).None?)
  {
  }

  /** In a sound ledger that never happens: what is committed as received is followed by its activation. */
  lemma ConfirmNeverFailsHalfway(db: Db, tenant: TenantId, p: PaymentId, providerId: string, now: Time)
    requires Inv(db)
    ensures var e := Confirm(db, tenant, p, providerId, now);
            e.saved != [] ==> e.outcome.Ok?
  {
    if OwnPayment(db, tenant, p) && !db.payments[p].status.SUCCEEDED? && ConfirmFirstHalf(db, tenant, p, providerId).Ok? {
      var i := db.payments[p].invoice;
      assert PaymentInv(db, p) && InvoiceInv(db, i);
      AccountOfInv(db, tenant);
      ConfirmFailsHalfwayIff(db, tenant, p, providerId, now);
    }
  }

  /**
    What a completed confirmation changes: the payment and its invoice, and, on a subscription
    invoice, the tenant's status and period.  The plan stays the tenant's current one, whatever
    the invoice was for.
   */
  lemma ConfirmedLedger(db: Db, tenant: TenantId, p: PaymentId, providerId: string, now: Time)
    requires OwnPayment(db, tenant, p) && db.payments[p].status.PENDING?
    requires Confirm(db, tenant, p, providerId, now).outcome.Ok?
    ensures var after := Confirm(db, tenant, p, providerId, now).outcome.value;
            var i := db.payments[p].invoice;
            && OnlyPayment(db, after, p)
            && after.payments[p] ==
               db.payments[p].(status := SUCCEEDED,
                               providerId := if providerId == "" then db.payments[p].providerId else Some(providerId))
            && after.plans == db.plans
            && after.invoices == db.invoices[i := db.invoices[i].(status := PAID)]
            && after.approvals == db.approvals
            && (forall t :: t != tenant ==> AccountOf(after, t) == AccountOf(db, t))
            && (db.invoices[i].subscription.None? ==> AccountOf(after, tenant) == AccountOf(db, tenant))
            && (db.invoices[i].subscription.Some? ==>
                  var had, has := AccountOf(db, tenant), AccountOf(after, tenant);
                  && had.sub.Some? && has.sub.Some?
                  && has.sub.value.status.ACTIVE?
                  && has.sub.value.plan == Lower(had.sub.value.plan)
                  && has.sub.value.cycle == Upper(had.sub.value.cycle)
                  && has.sub.value.periodStart == now
                  && has.sub.value.periodEnd == now + (if Upper(had.sub.value.cycle) == "YEARLY" then 365 else 30) * 86_400
                  && has.sub.value ==
                     had.sub.value.(plan := has.sub.value.plan, status := ACTIVE, cycle := has.sub.value.cycle,
                                    amount := has.sub.value.amount, periodStart := now, periodEnd := has.sub.value.periodEnd)
                  && has.history ==
                     had.history + [HistoryRow(CurrentView(had), View(has.sub.value.plan, ACTIVE), PAYMENT_PROVIDER)])
  {
    FirstHalfShape(db, tenant, p, providerId);
  }

  /**
    The window between the two commits: if the process stops there the payment is received and the
    invoice PAID, the account is untouched, and repeating the confirmation changes nothing.
   */
  lemma CrashLosesActivation(db: Db, tenant: TenantId, p: PaymentId, providerId: string, now: Time, again: string, later: Time)
    requires OwnPayment(db, tenant, p) && db.payments[p].status.PENDING?
    requires Confirm(db, tenant, p, providerId, now).outcome.Ok?
    ensures var crashed := Latest(db, Commits(Confirm(db, tenant, p, providerId, now)), 1);
            && crashed.payments[p].status.SUCCEEDED?
            && crashed.invoices[db.payments[p].invoice].status.PAID?
            && crashed.accounts == db.accounts
            && Confirm(crashed, tenant, p, again, later) == Effect([], Ok(crashed))
  {
    FirstHalfShape(db, tenant, p, providerId);
  }

  /** In every reachable state a confirmation that commits at all also activates. */
  lemma ReachableConfirmationCompletes(plans: Catalogue, events: seq<Event>, tenant: TenantId, p: PaymentId,
                                       providerId: string, now: Time)
    requires ValidRun(EmptyTables(plans), events)
    ensures var e := Confirm(LedgerInvariants.Run(EmptyTables(plans), events), tenant, p, providerId, now);
            e.saved != [] ==> e.outcome.Ok?
  {
    RunKeepsInv(EmptyTables(plans), events);
    ConfirmNeverFailsHalfway(LedgerInvariants.Run(EmptyTables(plans), events), tenant, p, providerId, now);
  }

  // ----- Invoices -----

  /** What the lines of an invoice come to, counted from the definitions. */
  function Worth(defs: seq<ItemDef>): Cents {
    if defs == [] then 0 else defs[0].unitPrice * defs[0].quantity + Worth(defs[1..])
  }

  lemma {:induction false} WorthOfLast(defs: seq<ItemDef>)
    requires defs != []
    ensures Worth(defs) == Worth(defs[..|defs| - 1]) + defs[|defs| - 1].unitPrice * defs[|defs| - 1].quantity
  {
    if |defs| > 1 {
      WorthOfLast(defs[1..]);
      assert defs[1..][..|defs| - 2] == defs[..|defs| - 1][1..];
    } else {
      assert defs[..0] == [] && defs[1..] == [];
    }
  }

  /** One line per definition, in order. */
  lemma {:induction false} InvoiceLines(defs: seq<ItemDef>)
    ensures |ItemsOf(defs)| == |defs|
    ensures forall k :: 0 <= k < |defs| ==>
              && ItemsOf(defs)[k].description == defs[k].description
              && ItemsOf(defs)[k].quantity == defs[k].quantity
              && ItemsOf(defs)[k].unitPrice == defs[k].unitPrice
              && ItemsOf(defs)[k].amount == defs[k].unitPrice * defs[k].quantity
  {
    if defs != [] {
      InvoiceLines(defs[..|defs| - 1]);
    }
  }

  lemma SubtotalAppend(items: seq<InvoiceItem>, item: InvoiceItem)
    ensures SubtotalOf(items + [item]) == SubtotalOf(items) + item.amount
  {
    assert (items + [item])[..|items|] == items;
  }

  lemma {:induction false} SubtotalIsWorth(defs: seq<ItemDef>)
    ensures SubtotalOf(ItemsOf(defs)) == Worth(defs)
  {
    if defs != [] {
      SubtotalIsWorth(defs[..|defs| - 1]);
      SubtotalAppend(ItemsOf(defs[..|defs| - 1]), ItemOf(defs[|defs| - 1]));
      WorthOfLast(defs);
    }
  }

  /** The invoice has those lines; its total is what they are worth, less the discount, plus the tax. */
  lemma InvoiceAddsUp(tenant: TenantId, subscription: Option<SubscriptionId>, defs: seq<ItemDef>,
                      discount: Cents, tax: Cents, currency: string)
    ensures var invoice := NewInvoice(tenant, subscription, defs, discount, tax, currency);
            && |invoice.items| == |defs|
            && (forall k :: 0 <= k < |defs| ==>
                  && invoice.items[k].description == defs[k].description
                  && invoice.items[k].quantity == defs[k].quantity
                  && invoice.items[k].unitPrice == defs[k].unitPrice
                  && invoice.items[k].amount == defs[k].unitPrice * defs[k].quantity)
            && invoice.subtotal == Worth(defs)
            && invoice.total == Worth(defs) - discount + tax
            && invoice.tenant == tenant && invoice.subscription == subscription && invoice.currency == currency
            && invoice.discount == discount && invoice.tax == tax && invoice.status.ISSUED?
  {
    InvoiceLines(defs);
    SubtotalIsWorth(defs);
  }

  /** Creating an invoice commits exactly that invoice. */
  lemma InvoiceIsStored(db: Db, i: InvoiceId, invoice: Invoice)
    ensures Commits(CreateInvoice(db, i, invoice)) != []
    ensures forall k :: 0 <= k < |Commits(CreateInvoice(db, i, invoice))| ==>
              Commits(CreateInvoice(db, i, invoice))[k] == db.(invoices := db.invoices[i := invoice])
  {
  }

  /** An invoice status is written exactly for the tenant's own invoice and a step of the table, and nothing else is. */
  lemma StatusUpdateTerms(db: Db, tenant: TenantId, i: InvoiceId, status: InvoiceStatus)
    ensures var own := i in db.invoices && db.invoices[i].tenant == tenant;
            var legal := own && (status == db.invoices[i].status || status in InvoiceTransitions(db.invoices[i].status));
            && (UpdateStatus(db, tenant, i, status) == Err(InvoiceNotFound) <==> !own)
            && (UpdateStatus(db, tenant, i, status) == Err(InvalidInvoiceState) <==> own && !legal)
            && (legal ==> UpdateStatus(db, tenant, i, status) ==
                          Ok(db.(invoices := db.invoices[i := db.invoices[i].(status := status)])))
  {
  }

  // ----- Opening a payment -----

  /** Some other payment of the tenant has this provider id. */
  predicate IdInUse(db: Db, tenant: TenantId, p: PaymentId, id: string) {
    exists q :: q in db.payments && q != p && db.payments[q].tenant == tenant && db.payments[q].providerId == Some(id)
  }

  /**
    A payment is opened exactly for the tenant's own invoice, for its total and currency if they are given,
    when the provider accepts under an id that no other payment has.  It is PENDING, at the invoice's total
    and currency, under the provider's id; nothing else changes and nothing is committed on the way.
   */
  lemma IntentTerms(db: Db, tenant: TenantId, i: InvoiceId, p: PaymentId, amount: Option<Cents>,
                    currency: Option<string>, reply: ProviderReply)
    ensures var e := CreateIntent(db, tenant, i, p, amount, currency, reply);
            && e.saved == []
            && (e.outcome.Ok? <==>
                  && i in db.invoices && db.invoices[i].tenant == tenant
                  && (amount.Some? ==> amount.value == db.invoices[i].total)
                  && (currency.Some? ==> Upper(currency.value) == Upper(db.invoices[i].currency))
                  && reply.Created? && !IdInUse(db, tenant, p, reply.providerId))
            && (e.outcome == Err(InvoiceNotFound) <==> !(i in db.invoices && db.invoices[i].tenant == tenant))
            && (e.outcome == Err(AmountMismatch) <==>
                  i in db.invoices && db.invoices[i].tenant == tenant && amount.Some? && amount.value != db.invoices[i].total)
            && (e.outcome in {Err(ProviderFailed), Err(DuplicateProviderId)} ==>
                  (e.outcome == Err(ProviderFailed) <==> reply.Refused?))
            && (e.outcome.Err? ==>
                  e.outcome.error in {InvoiceNotFound, AmountMismatch, CurrencyMismatch, ProviderFailed, DuplicateProviderId})
            && (e.outcome == Err(CurrencyMismatch) ==>
                  currency.Some? && i in db.invoices && Upper(currency.value) != Upper(db.invoices[i].currency))
            && (e.outcome.Ok? ==>
                  e.outcome.value ==
                  db.(payments := db.payments[p := Payment(tenant, i, db.invoices[i].total, 0, db.invoices[i].currency, PENDING,
                                                           Some(reply.providerId))]))
  {
  }

  // ----- Who may be confirmed -----

  /**
    In a sound ledger a confirmation is accepted exactly for the tenant's own payment that is received
    without refund already, or open and not confirmed under the provider id of another.
   */
  lemma ConfirmAcceptedIff(db: Db, tenant: TenantId, p: PaymentId, providerId: string, now: Time)
    requires Inv(db)
    ensures Confirm(db, tenant, p, providerId, now).outcome.Ok? <==>
              && p in db.payments && db.payments[p].tenant == tenant
              && (db.payments[p].status.SUCCEEDED? ||
                  (db.payments[p].status.PENDING? && !(providerId != "" && IdInUse(db, tenant, p, providerId))))
    ensures var own := p in db.payments && db.payments[p].tenant == tenant;
            var outcome := Confirm(db, tenant, p, providerId, now).outcome;
            && (outcome == Err(PaymentNotFound) <==> !own)
            && (outcome == Err(InvalidPaymentState) <==> own && db.payments[p].status !in {PENDING, SUCCEEDED})
            && (outcome == Err(DuplicateProviderId) <==>
                  own && db.payments[p].status.PENDING? && providerId != "" && IdInUse(db, tenant, p, providerId))
  {
    ConfirmNeverFailsHalfway(db, tenant, p, providerId, now);
    if OwnPayment(db, tenant, p) {
      assert PaymentInv(db, p) && InvoiceInv(db, db.payments[p].invoice);
    }
  }

  /** An invoice for the tenant's subscription, a payment opened for it and confirmed: the invoice is PAID, the subscription ACTIVE. */
  lemma PayingActivates(db: Db, tenant: TenantId, i: InvoiceId, defs: seq<ItemDef>, discount: Cents, tax: Cents,
                        currency: string, p: PaymentId, id: string, now: Time)
    requires Inv(db) && AccountOf(db, tenant).sub.Some?
    requires var invoice := NewInvoice(tenant, Some(AccountOf(db, tenant).sub.value.id), defs, discount, tax, currency);
             CallerOk(db, CreateInvoiceOp(i, invoice))
    requires p !in db.payments && (forall a :: 0 <= a < |db.approvals| ==> db.approvals[a].payment != p)
    requires !IdInUse(db, tenant, p, id)
    ensures var invoice := NewInvoice(tenant, Some(AccountOf(db, tenant).sub.value.id), defs, discount, tax, currency);
            var invoiced := db.(invoices := db.invoices[i := invoice]);
            var intent := CreateIntent(invoiced, tenant, i, p, None, None, Created(id)).outcome;
            && intent.Ok?
            && var confirmed := Confirm(intent.value, tenant, p, id, now).outcome;
            && confirmed.Ok?
            && i in confirmed.value.invoices && confirmed.value.invoices[i] == invoice.(status := PAID)
            && p in confirmed.value.payments && confirmed.value.payments[p].status.SUCCEEDED?
            && AccountOf(confirmed.value, tenant).sub.Some? && AccountOf(confirmed.value, tenant).sub.value.status.ACTIVE?
  {
    var invoice := NewInvoice(tenant, Some(AccountOf(db, tenant).sub.value.id), defs, discount, tax, currency);
    var invoiced := db.(invoices := db.invoices[i := invoice]);
    CreateInvoiceKeepsInv(db, i, invoice);
    IntentTerms(invoiced, tenant, i, p, None, None, Created(id));
    CreateIntentKeepsInv(invoiced, tenant, i, p, None, None, Created(id));
    var asked := CreateIntent(invoiced, tenant, i, p, None, None, Created(id)).outcome.value;
    IdStaysFree(invoiced, asked, tenant, p, id);
    ConfirmAcceptedIff(asked, tenant, p, id, now);
    ConfirmedLedger(asked, tenant, p, id, now);
  }

  lemma IdStaysFree(db: Db, after: Db, tenant: TenantId, p: PaymentId, id: string)
    requires !IdInUse(db, tenant, p, id) && p in after.payments && after.payments == db.payments[p := after.payments[p]]
    ensures !IdInUse(after, tenant, p, id)
  {
  }

  // ----- Asking for a refund, and executing one -----

  /**
    A refund is accepted exactly for the tenant's own payment that was received and is not refunded in
    full by its status, up to what its executed approvals leave of it; it is recorded as one more
    approval, awaiting a decision, and nothing else changes.
   */
  lemma RefundRequestTerms(db: Db, tenant: TenantId, p: PaymentId, amount: Cents)
    requires Inv(db)
    ensures var e := RequestRefund(db, tenant, p, amount);
            var own := p in db.payments && db.payments[p].tenant == tenant;
            var open := own && db.payments[p].status in {SUCCEEDED, PARTIALLY_REFUNDED};
            && e.saved == []
            && (e.outcome.Ok? <==> open && amount <= db.payments[p].amount - Executed(db.approvals, p))
            && (e.outcome == Err(PaymentNotFound) <==> !own)
            && (e.outcome == Err(RefundNotAllowed) <==> own && !open)
            && (e.outcome == Err(RefundTooLarge) <==> open && amount > db.payments[p].amount - Executed(db.approvals, p))
            && (e.outcome.Ok? ==> e.outcome.value == db.(approvals := db.approvals + [Approval(tenant, p, amount, AWAITING)]))
  {
    if OwnPayment(db, tenant, p) {
      assert PaymentInv(db, p);
    }
  }

  /** An awaiting approval is decided once, one way or the other, and nothing else changes. */
  lemma DecisionTerms(db: Db, a: ApprovalId, approve: bool)
    ensures var e := Decide(db, a, approve);
            && e.saved == []
            && (e.outcome.Ok? <==> a < |db.approvals| && db.approvals[a].status.AWAITING?)
            && (e.outcome.Ok? ==>
                  && |e.outcome.value.approvals| == |db.approvals|
                  && e.outcome.value == db.(approvals := e.outcome.value.approvals)
                  && (forall b :: 0 <= b < |db.approvals| && b != a ==> e.outcome.value.approvals[b] == db.approvals[b])
                  && e.outcome.value.approvals[a] == db.approvals[a].(status := if approve then APPROVED else CLOSED))
  {
  }

  /** The database with approval `a` in another status and nothing else changed. */
  predicate OnlyApproval(db: Db, after: Db, a: ApprovalId, status: ApprovalStatus) {
    && a < |db.approvals| == |after.approvals|
    && after == db.(approvals := after.approvals)
    && after.approvals[a] == db.approvals[a].(status := status)
    && forall b :: 0 <= b < |db.approvals| && b != a ==> after.approvals[b] == db.approvals[b]
  }

  /** The tenant's own approval, and approved. */
  predicate IsApproved(db: Db, tenant: TenantId, a: ApprovalId) {
    a < |db.approvals| && db.approvals[a].tenant == tenant && db.approvals[a].status.APPROVED?
  }

  /** Executing anything else changes nothing. */
  lemma OtherwiseNoRefund(db: Db, tenant: TenantId, a: ApprovalId, reply: RefundReply)
    requires !IsApproved(db, tenant, a)
    ensures var commits := Commits(ExecuteRefund(db, tenant, a, reply));
            forall k :: 0 <= k < |commits| ==> commits[k] == db
    ensures var own := a < |db.approvals| && db.approvals[a].tenant == tenant;
            var outcome := ExecuteRefund(db, tenant, a, reply).outcome;
            && (!own ==> outcome == Err(ApprovalNotFound))
            && (own && !db.approvals[a].status.EXECUTED? ==> outcome == Err(NotApproved))
            && (own && db.approvals[a].status.EXECUTED? && OwnPayment(db, tenant, db.approvals[a].payment) ==> outcome == Ok(db))
  {
  }

  /** An approved refund is too large exactly if it exceeds what the executed approvals leave; then it is marked as failed. */
  lemma RefundTooLargeIff(db: Db, tenant: TenantId, a: ApprovalId, reply: RefundReply)
    requires Inv(db) && IsApproved(db, tenant, a)
    ensures var e := ExecuteRefund(db, tenant, a, reply);
            var p, amount := db.approvals[a].payment, db.approvals[a].amount;
            && p in db.payments
            && (e.outcome == Err(RefundTooLarge) <==> amount > db.payments[p].amount - Executed(db.approvals, p))
            && (e.outcome == Err(RefundTooLarge) ==> |Commits(e)| == 1 && OnlyApproval(db, Commits(e)[0], a, EXECUTION_FAILED))
  {
    assert ApprovalInv(db, a) && PaymentInv(db, db.approvals[a].payment);
  }

  lemma AssessmentTerms(payment: Payment, count: nat, amount: Cents)
    requires Settled(payment, count) && Paid(payment.status) && amount <= payment.amount - payment.refunded
    requires !(amount < 0 && payment.status.REFUNDED?)
    ensures var total := payment.refunded + amount;
            Assess(payment, amount) == Ok((total, if total == payment.amount then REFUNDED else PARTIALLY_REFUNDED))
  {
  }

  /** What executing an approved refund commits, for each reply of the provider. */
  predicate Executes(db: Db, a: ApprovalId, total: Cents, target: PaymentStatus, reply: RefundReply, e: Effect)
    requires a < |db.approvals| && db.approvals[a].payment in db.payments
  {
    match reply
    case Raised => e.outcome == Err(ProviderRaised) && Commits(e) == []
    case Declined => e.outcome == Err(ProviderFailed) && |Commits(e)| == 1 && OnlyApproval(db, Commits(e)[0], a, EXECUTION_FAILED)
    case Done =>
      var p := db.approvals[a].payment;
      && e.outcome.Ok? && Commits(e) == [e.outcome.value, e.outcome.value]
      && OnlyApproval(db, e.outcome.value.(payments := db.payments), a, EXECUTED)
      && e.outcome.value.payments == db.payments[p := db.payments[p].(refunded := total, status := target)]
  }

  lemma AssessedExecutes(db: Db, tenant: TenantId, a: ApprovalId, reply: RefundReply, total: Cents, target: PaymentStatus)
    requires IsApproved(db, tenant, a) && OwnPayment(db, tenant, db.approvals[a].payment)
    requires Assess(db.payments[db.approvals[a].payment], db.approvals[a].amount) == Ok((total, target))
    ensures Executes(db, a, total, target, reply, ExecuteRefund(db, tenant, a, reply))
  {
  }

  lemma ApprovedPayment(db: Db, a: ApprovalId)
    requires Inv(db) && a < |db.approvals|
    ensures OwnPayment(db, db.approvals[a].tenant, db.approvals[a].payment) && PaymentInv(db, db.approvals[a].payment)
  {
    assert ApprovalInv(db, a);
  }

  /** The approved refund fits what is left of a received payment. */
  predicate Fits(db: Db, a: ApprovalId) {
    && a < |db.approvals| && db.approvals[a].payment in db.payments
    && var payment, amount := db.payments[db.approvals[a].payment], db.approvals[a].amount;
    && Paid(payment.status) && amount <= payment.amount - Executed(db.approvals, db.approvals[a].payment)
    && !(amount < 0 && payment.status.REFUNDED?)
  }

  lemma FittingRefund(db: Db, tenant: TenantId, a: ApprovalId, reply: RefundReply)
    requires IsApproved(db, tenant, a) && Fits(db, a)
    requires OwnPayment(db, tenant, db.approvals[a].payment) && PaymentInv(db, db.approvals[a].payment)
    ensures var p := db.approvals[a].payment;
            var total := Executed(db.approvals, p) + db.approvals[a].amount;
            Executes(db, a, total, if total == db.payments[p].amount then REFUNDED else PARTIALLY_REFUNDED, reply,
                     ExecuteRefund(db, tenant, a, reply))
  {
    var p := db.approvals[a].payment;
    AssessmentTerms(db.payments[p], ExecutedCount(db.approvals, p), db.approvals[a].amount);
    var total := Executed(db.approvals, p) + db.approvals[a].amount;
    AssessedExecutes(db, tenant, a, reply, total, if total == db.payments[p].amount then REFUNDED else PARTIALLY_REFUNDED);
  }

  /**
    An approved refund of a received payment that fits is executed exactly if the provider pays it out; the
    payment is then refunded by the amount, in full if nothing is left of it.
   */
  lemma RefundTerms(db: Db, tenant: TenantId, a: ApprovalId, reply: RefundReply)
    requires Inv(db) && IsApproved(db, tenant, a) && Fits(db, a)
    ensures var p := db.approvals[a].payment;
            var total := Executed(db.approvals, p) + db.approvals[a].amount;
            Executes(db, a, total, if total == db.payments[p].amount then REFUNDED else PARTIALLY_REFUNDED, reply,
                     ExecuteRefund(db, tenant, a, reply))
  {
    ApprovedPayment(db, a);
    FittingRefund(db, tenant, a, reply);
  }

  /** A confirmed cancellation writes CANCELLED over the payment's status and nothing else; an unconfirmed one just answers. */
  lemma CancellationWrites(db: Db, tenant: TenantId, p: PaymentId, confirmed: bool)
    ensures CancelPayment(db, tenant, p, confirmed).outcome.Ok? <==> p in db.payments && db.payments[p].tenant == tenant
    ensures confirmed && CancelPayment(db, tenant, p, confirmed).outcome.Ok? ==>
              var after := db.(payments := db.payments[p := db.payments[p].(status := CANCELLED)]);
              Commits(CancelPayment(db, tenant, p, confirmed)) == [after, after]
    ensures !confirmed ==>
              forall k :: 0 <= k < |Commits(CancelPayment(db, tenant, p, confirmed))| ==>
                Commits(CancelPayment(db, tenant, p, confirmed))[k] == db
  {
  }

  // ----- Failure: both or nothing -----

  lemma FirstDay(acc: Account, now: Time)
    ensures Dun(acc, 0, now).Ok? <==> acc.sub.Some? && acc.sub.value.status in {TRIALING, ACTIVE, PAST_DUE}
    ensures Dun(acc, 0, now).Ok? ==> Dun(acc, 0, now).value.sub == Some(acc.sub.value.(status := PAST_DUE))
  {
  }

  /** A failed payment and the dunning of its tenant are committed together or not at all. */
  lemma FailureIsAtomic(db: Db, tenant: TenantId, p: PaymentId, now: Time)
    requires OwnPayment(db, tenant, p) && db.payments[p].status.PENDING?
    ensures var sub := AccountOf(db, tenant).sub;
            var commits := Commits(RecordFailure(db, tenant, p, now));
            var accepted := sub.Some? && sub.value.status in {TRIALING, ACTIVE, PAST_DUE};
            && |commits| == (if accepted then 1 else 0)
            && (accepted ==>
                  && commits[0] == db.(payments := db.payments[p := db.payments[p].(status := FAILED)],
                                       accounts := db.accounts[tenant := AccountOf(commits[0], tenant)])
                  && AccountOf(commits[0], tenant).sub == Some(sub.value.(status := PAST_DUE)))
  {
    FirstDay(AccountOf(db, tenant), now);
  }

  // ----- Payment verification -----

  /** The evidence the tenant pipeline asks for: a free plan, or a PAID invoice of the subscription with a SUCCEEDED payment. */
  ghost predicate PaymentVerified(db: Db, tenant: TenantId) {
    var sub := AccountOf(db, tenant).sub;
    && sub.Some?
    && (sub.value.amount == 0 ||
        exists i, p :: PaysInvoice(db, tenant, sub.value.id, i, p))
  }

  predicate PaysInvoice(db: Db, tenant: TenantId, id: SubscriptionId, i: InvoiceId, p: PaymentId) {
    && OwnInvoice(db, tenant, i)
    && db.invoices[i].subscription == Some(id)
    && db.invoices[i].status.PAID?
    && OwnPayment(db, tenant, p)
    && db.payments[p].invoice == i
    && db.payments[p].status.SUCCEEDED?
  }

  /** `p` is a SUCCEEDED payment of one of the tenant's subscription invoices. */
  predicate Evidence(db: Db, tenant: TenantId, p: PaymentId) {
    && OwnPayment(db, tenant, p)
    && db.payments[p].status.SUCCEEDED?
    && db.payments[p].invoice in db.invoices
    && db.invoices[db.payments[p].invoice].subscription.Some?
  }

  /** In a sound ledger the test for a PAID invoice is implied by the test for the payment. */
  lemma VerifiedIff(db: Db, tenant: TenantId)
    requires Inv(db)
    ensures PaymentVerified(db, tenant) <==>
            && AccountOf(db, tenant).sub.Some?
            && (AccountOf(db, tenant).sub.value.amount == 0 || exists p :: Evidence(db, tenant, p))
  {
    if exists p :: Evidence(db, tenant, p) {
      var p :| Evidence(db, tenant, p);
      var i := db.payments[p].invoice;
      assert PaymentInv(db, p) && InvoiceInv(db, i) && HasPaid(db, i);
      assert PaysInvoice(db, tenant, AccountOf(db, tenant).sub.value.id, i, p);
    }
    if PaymentVerified(db, tenant) && AccountOf(db, tenant).sub.value.amount != 0 {
      var i, p :| PaysInvoice(db, tenant, AccountOf(db, tenant).sub.value.id, i, p);
      assert Evidence(db, tenant, p);
    }
  }

  lemma EvidenceVerifies(db: Db, tenant: TenantId, p: PaymentId)
    requires Inv(db) && Evidence(db, tenant, p)
    ensures PaymentVerified(db, tenant)
  {
    assert PaymentInv(db, p) && InvoiceInv(db, db.payments[p].invoice);
    VerifiedIff(db, tenant);
  }

  /** Both states a confirmation commits hold the evidence. */
  lemma ConfirmationIsEvidence(db: Db, tenant: TenantId, p: PaymentId, providerId: string, now: Time)
    requires OwnPayment(db, tenant, p) && db.payments[p].status.PENDING?
    requires db.payments[p].invoice in db.invoices && db.invoices[db.payments[p].invoice].subscription.Some?
    requires Confirm(db, tenant, p, providerId, now).outcome.Ok?
    ensures Confirm(db, tenant, p, providerId, now).saved != []
    ensures Evidence(Confirm(db, tenant, p, providerId, now).saved[0], tenant, p)
    ensures Evidence(Confirm(db, tenant, p, providerId, now).outcome.value, tenant, p)
  {
    FirstHalfShape(db, tenant, p, providerId);
    ConfirmedLedger(db, tenant, p, providerId, now);
  }

  /** Confirming a payment of a subscription invoice verifies the tenant, from the first of the two commits on. */
  lemma ConfirmationVerifies(db: Db, tenant: TenantId, p: PaymentId, providerId: string, now: Time)
    requires Inv(db) && OwnPayment(db, tenant, p) && db.payments[p].status.PENDING?
    requires db.payments[p].invoice in db.invoices && db.invoices[db.payments[p].invoice].subscription.Some?
    ensures var commits := Commits(Confirm(db, tenant, p, providerId, now));
            forall k :: 0 <= k < |commits| ==> PaymentVerified(commits[k], tenant)
  {
    var e := Confirm(db, tenant, p, providerId, now);
    ConfirmKeepsInv(db, tenant, p, providerId, now);
    ConfirmNeverFailsHalfway(db, tenant, p, providerId, now);
    if Commits(e) != [] {
      ConfirmationIsEvidence(db, tenant, p, providerId, now);
      forall k | 0 <= k < |Commits(e)| ensures PaymentVerified(Commits(e)[k], tenant) {
        assert Commits(e)[k] in [e.saved[0], e.outcome.value];
        EvidenceVerifies(Commits(e)[k], tenant, p);
      }
    }
  }

  /** Refunding any part of the only such payment takes the verification away. */
  lemma RefundingTheOnlyPaymentUnverifies(db: Db, tenant: TenantId, a: ApprovalId)
    requires Inv(db) && AccountOf(db, tenant).sub.Some? && AccountOf(db, tenant).sub.value.amount != 0
    requires a < |db.approvals| && db.approvals[a].status.APPROVED?
    requires Evidence(db, tenant, db.approvals[a].payment)
    requires forall p :: Evidence(db, tenant, p) ==> p == db.approvals[a].payment
    requires ExecuteRefund(db, tenant, a, Done).outcome.Ok?
    ensures PaymentVerified(db, tenant)
    ensures !PaymentVerified(ExecuteRefund(db, tenant, a, Done).outcome.value, tenant)
  {
    var after := ExecuteRefund(db, tenant, a, Done).outcome.value;
    EvidenceVerifies(db, tenant, db.approvals[a].payment);
    forall p ensures !Evidence(after, tenant, p) {
      RefundTakesEvidence(db, tenant, a, p);
    }
    RefundKeepsInv(db, a);
    VerifiedIff(after, tenant);
  }

  lemma RefundTakesEvidence(db: Db, tenant: TenantId, a: ApprovalId, p: PaymentId)
    requires a < |db.approvals| && db.approvals[a].status.APPROVED?
    requires ExecuteRefund(db, tenant, a, Done).outcome.Ok?
    ensures Evidence(ExecuteRefund(db, tenant, a, Done).outcome.value, tenant, p) ==>
              p != db.approvals[a].payment && Evidence(db, tenant, p)
  {
  }
}
