/** What the invoice, payment and refund services do to the billing tables. */
module Ledger {
  import opened Results
  import opened Text
  import opened BillingStates
  import opened Subscriptions
  import opened BillingDb

  // ----- Invoices -----

  datatype ItemDef = ItemDef(description: string, quantity: int, unitPrice: Cents)

  function ItemOf(def: ItemDef): InvoiceItem {
    InvoiceItem(def.description, def.quantity, def.unitPrice, def.unitPrice * def.quantity)
  }

  function ItemsOf(defs: seq<ItemDef>): seq<InvoiceItem> {
    if defs == [] then [] else ItemsOf(defs[..|defs| - 1]) + [ItemOf(defs[|defs| - 1])]
  }

  function SubtotalOf(items: seq<InvoiceItem>): Cents {
    if items == [] then 0 else SubtotalOf(items[..|items| - 1]) + items[|items| - 1].amount
  }

  function NewInvoice(tenant: TenantId, subscription: Option<SubscriptionId>, defs: seq<ItemDef>,
                      discount: Cents, tax: Cents, currency: string): Invoice {
    var items := ItemsOf(defs);
    var subtotal := SubtotalOf(items);
    Invoice(tenant, subscription, ISSUED, items, subtotal, discount, tax, subtotal - discount + tax, currency)
  }

  function CreateInvoice(db: Db, i: InvoiceId, invoice: Invoice): Effect {
    var after := db.(invoices := db.invoices[i := invoice]);
    Effect([after], Ok(after))
  }

  function UpdateStatus(db: Db, tenant: TenantId, i: InvoiceId, status: InvoiceStatus): Result<Db, LedgerError> {
    if !OwnInvoice(db, tenant, i) then Err(InvoiceNotFound)
    else if !InvoiceAllowed(db.invoices[i].status, status) then Err(InvalidInvoiceState)
    else Ok(db.(invoices := db.invoices[i := db.invoices[i].(status := status)]))
  }

  // ----- Payments -----

  datatype ProviderReply = Created(providerId: string) | Refused

  /** The unique index on (tenant, provider, provider payment id). */
  predicate ProviderIdTaken(db: Db, tenant: TenantId, p: PaymentId, id: string) {
    exists q :: q in db.payments && q != p && db.payments[q].tenant == tenant && db.payments[q].providerId == Some(id)
  }

  function CreateIntent(db: Db, tenant: TenantId, i: InvoiceId, p: PaymentId, amount: Option<Cents>,
                        currency: Option<string>, reply: ProviderReply): Effect {
    if !OwnInvoice(db, tenant, i) then Effect([], Err(InvoiceNotFound))
    else
      var invoice := db.invoices[i];
      if amount.Some? && amount.value != invoice.total then Effect([], Err(AmountMismatch))
      else if currency.Some? && Upper(currency.value) != Upper(invoice.currency) then Effect([], Err(CurrencyMismatch))
      else if reply.Refused? then Effect([], Err(ProviderFailed))
      else if ProviderIdTaken(db, tenant, p, reply.providerId) then Effect([], Err(DuplicateProviderId))
      else
        var payment := Payment(tenant, i, invoice.total, 0, invoice.currency, PENDING, Some(reply.providerId));
        Effect([], Ok(db.(payments := db.payments[p := payment])))
  }

  function MarkSucceeded(db: Db, p: PaymentId, providerId: string): Db
    requires p in db.payments
  {
    var payment := db.payments[p];
    var id := if providerId != "" then Some(providerId) else payment.providerId;
    db.(payments := db.payments[p := payment.(status := SUCCEEDED, providerId := id)])
  }

  /** The part of a confirmation that the invoice service commits. */
  function ConfirmFirstHalf(db: Db, tenant: TenantId, p: PaymentId, providerId: string): Result<Db, LedgerError>
    requires OwnPayment(db, tenant, p)
  {
    if !PaymentAllowed(db.payments[p].status, SUCCEEDED) then Err(InvalidPaymentState)
    else
      match UpdateStatus(MarkSucceeded(db, p, providerId), tenant, db.payments[p].invoice, PAID)
      case Err(e) => Err(e)
      case Ok(mid) => if providerId != "" && ProviderIdTaken(db, tenant, p, providerId) then Err(DuplicateProviderId) else Ok(mid)
  }

  /** The part after that commit: activation of the tenant's subscription on its own current plan. */
  function ConfirmSecondHalf(mid: Db, tenant: TenantId, i: InvoiceId, now: Time): Result<Db, LedgerError>
    requires i in mid.invoices
  {
    if mid.invoices[i].subscription.None? then Ok(mid)
    else
      var acc := AccountOf(mid, tenant);
      if acc.sub.None? then Err(SubscriptionFailed(SubscriptionNotFound))
      else
        var sub := acc.sub.value;
        match Activate(acc, mid.plans, sub.id, sub.plan, sub.cycle, PAYMENT_PROVIDER, true, now)
        case Err(e) => Err(SubscriptionFailed(e))
        case Ok(after) => Ok(WithAccount(mid, tenant, after))
  }

  function Confirm(db: Db, tenant: TenantId, p: PaymentId, providerId: string, now: Time): Effect {
    if !OwnPayment(db, tenant, p) then Effect([], Err(PaymentNotFound))
    else if db.payments[p].status.SUCCEEDED? then Effect([], Ok(db))
    else
      match ConfirmFirstHalf(db, tenant, p, providerId)
      case Err(e) => Effect([], Err(e))
      case Ok(mid) => Effect([mid], ConfirmSecondHalf(mid, tenant, db.payments[p].invoice, now))
  }

  function RecordFailure(db: Db, tenant: TenantId, p: PaymentId, now: Time): Effect {
    if !OwnPayment(db, tenant, p) then Effect([], Err(PaymentNotFound))
    else if db.payments[p].status.FAILED? then Effect([], Ok(db))
    else if !PaymentAllowed(db.payments[p].status, FAILED) then Effect([], Err(InvalidPaymentState))
    else
      var failed := db.(payments := db.payments[p := db.payments[p].(status := FAILED)]);
      match Dun(AccountOf(db, tenant), 0, now)
      case Err(e) => Effect([], Err(SubscriptionFailed(e)))
      case Ok(acc) => Effect([], Ok(WithAccount(failed, tenant, acc)))
  }

  // ----- Webhooks -----

  datatype Signal = Success | Failure | Neutral

  /** A verified webhook: `status` and `event` are the two fields that can announce the outcome. */
  datatype Webhook = Webhook(tenant: Option<TenantId>, invoice: InvoiceId, providerId: string,
                             amount: Cents, currency: string, status: Signal, event: Signal)

  predicate Announces(w: Webhook, signal: Signal) {
    w.status == signal || w.event == signal
  }

  function ByProviderId(db: Db, tenant: TenantId, id: string): set<PaymentId> {
    set p | p in db.payments && db.payments[p].tenant == tenant && db.payments[p].providerId == Some(id)
  }

  function PendingFor(db: Db, tenant: TenantId, i: InvoiceId): set<PaymentId> {
    set p | p in db.payments && db.payments[p].tenant == tenant && db.payments[p].invoice == i && db.payments[p].status.PENDING?
  }

  ghost function TheOne(s: set<PaymentId>): PaymentId
    requires |s| == 1
  {
    var p :| p in s; p
  }

  lemma OnlyOne(s: set<PaymentId>, p: PaymentId)
    requires |s| == 1 && p in s
    ensures s == {p} && TheOne(s) == p
  {
    assert |s - {p}| == 0;
  }

  /** The payment a webhook is about, or the reason it is rejected. */
  ghost function Resolve(db: Db, w: Webhook): Result<PaymentId, LedgerError> {
    if w.invoice !in db.invoices || (w.tenant.Some? && db.invoices[w.invoice].tenant != w.tenant.value) then Err(UnmatchedWebhook)
    else
      var invoice := db.invoices[w.invoice];
      if w.amount != invoice.total then Err(AmountMismatch)
      else if Upper(w.currency) != Upper(invoice.currency) then Err(CurrencyMismatch)
      else
        var known := ByProviderId(db, invoice.tenant, w.providerId);
        var waiting := PendingFor(db, invoice.tenant, w.invoice);
        if |known| > 1 then Err(MultipleMatches)
        else if |known| == 1 then Ok(TheOne(known))
        else if |waiting| > 1 then Err(MultipleMatches)
        else if |waiting| == 1 then Ok(TheOne(waiting))
        else Err(UnmatchedWebhook)
  }

  ghost function HandleWebhook(db: Db, w: Webhook, now: Time): Effect {
    match Resolve(db, w)
    case Err(e) => Effect([], Err(e))
    case Ok(p) =>
      var tenant := db.invoices[w.invoice].tenant;
      if Announces(w, Success) then Confirm(db, tenant, p, w.providerId, now)
      else if Announces(w, Failure) then RecordFailure(db, tenant, p, now)
      else Effect([], Ok(db))
  }

  // ----- Refunds -----

  function RequestRefund(db: Db, tenant: TenantId, p: PaymentId, amount: Cents): Effect {
    if !OwnPayment(db, tenant, p) then Effect([], Err(PaymentNotFound))
    else
      var payment := db.payments[p];
      if payment.status !in {SUCCEEDED, PARTIALLY_REFUNDED} then Effect([], Err(RefundNotAllowed))
      else if amount > payment.amount - payment.refunded then Effect([], Err(RefundTooLarge))
      else Effect([], Ok(db.(approvals := db.approvals + [Approval(tenant, p, amount, AWAITING)])))
  }

  /** The decision, taken outside these services. */
  function Decide(db: Db, a: ApprovalId, approve: bool): Effect {
    if a >= |db.approvals| then Effect([], Err(ApprovalNotFound))
    else if !db.approvals[a].status.AWAITING? then Effect([], Err(NotApproved))
    else Effect([], Ok(SetApproval(db, a, if approve then APPROVED else CLOSED)))
  }

  function SetApproval(db: Db, a: ApprovalId, status: ApprovalStatus): Db
    requires a < |db.approvals|
  {
    db.(approvals := db.approvals[a := db.approvals[a].(status := status)])
  }

  /** The new refunded total and status of a payment once `amount` more has been refunded. */
  function Assess(payment: Payment, amount: Cents): Result<(Cents, PaymentStatus), LedgerError> {
    if amount > payment.amount - payment.refunded then Err(RefundTooLarge)
    else
      var total := payment.refunded + amount;
      var target := if total >= payment.amount then REFUNDED else PARTIALLY_REFUNDED;
      if !PaymentAllowed(payment.status, target) then Err(InvalidPaymentState) else Ok((total, target))
  }

  function Refund(db: Db, a: ApprovalId, total: Cents, target: PaymentStatus): Db
    requires a < |db.approvals| && db.approvals[a].payment in db.payments
  {
    var p := db.approvals[a].payment;
    SetApproval(db, a, EXECUTED).(payments := db.payments[p := db.payments[p].(refunded := total, status := target)])
  }

  /** How the provider answers a refund call; an exception means it did nothing. */
  datatype RefundReply = Done | Declined | Raised

  function ExecuteRefund(db: Db, tenant: TenantId, a: ApprovalId, reply: RefundReply): Effect {
    if a >= |db.approvals| || db.approvals[a].tenant != tenant then Effect([], Err(ApprovalNotFound))
    else
      var approval := db.approvals[a];
      if approval.status.EXECUTED? then
        if OwnPayment(db, tenant, approval.payment) then Effect([], Ok(db)) else Effect([], Err(PaymentNotFound))
      else if !approval.status.APPROVED? then Effect([], Err(NotApproved))
      else if !OwnPayment(db, tenant, approval.payment) then Effect([], Err(PaymentNotFound))
      else
        match Assess(db.payments[approval.payment], approval.amount)
        case Err(RefundTooLarge) => Effect([SetApproval(db, a, EXECUTION_FAILED)], Err(RefundTooLarge))
        case Err(e) => Effect([], Err(e))
        case Ok((total, target)) =>
          match reply
          case Raised => Effect([], Err(ProviderRaised))
          case Declined => Effect([SetApproval(db, a, EXECUTION_FAILED)], Err(ProviderFailed))
          case Done => var after := Refund(db, a, total, target); Effect([after], Ok(after))
  }

  // ----- The cancel endpoint -----

  function Cancelled(db: Db, p: PaymentId): Db
    requires p in db.payments
  {
    db.(payments := db.payments[p := db.payments[p].(status := CANCELLED)])
  }

  /** `confirmed` is the provider's answer to the cancellation. */
  function CancelPayment(db: Db, tenant: TenantId, p: PaymentId, confirmed: bool): Effect {
    if !OwnPayment(db, tenant, p) then Effect([], Err(PaymentNotFound))
    else if !confirmed then Effect([], Ok(db))
    else Effect([Cancelled(db, p)], Ok(Cancelled(db, p)))
  }

  // ----- One request of any kind -----

  datatype Op =
    | CreateInvoiceOp(i: InvoiceId, invoice: Invoice)
    | CreateIntentOp(tenant: TenantId, i: InvoiceId, p: PaymentId, amount: Option<Cents>, currency: Option<string>,
                     provider: ProviderReply)
    | ConfirmOp(tenant: TenantId, p: PaymentId, providerId: string, now: Time)
    | FailureOp(tenant: TenantId, p: PaymentId, now: Time)
    | WebhookOp(webhook: Webhook, now: Time)
    | RequestRefundOp(tenant: TenantId, p: PaymentId, refund: Cents)
    | DecideOp(a: ApprovalId, approve: bool)
    | ExecuteRefundOp(tenant: TenantId, a: ApprovalId, reply: RefundReply)
    | CancelOp(tenant: TenantId, p: PaymentId, confirmed: bool)
    | SubscriptionOp(tenant: TenantId, op: Subscriptions.Op)

  ghost function Perform(db: Db, op: Op): Effect {
    match op
    case CreateInvoiceOp(i, invoice) => CreateInvoice(db, i, invoice)
    case CreateIntentOp(tenant, i, p, amount, currency, provider) => CreateIntent(db, tenant, i, p, amount, currency, provider)
    case ConfirmOp(tenant, p, providerId, now) => Confirm(db, tenant, p, providerId, now)
    case FailureOp(tenant, p, now) => RecordFailure(db, tenant, p, now)
    case WebhookOp(w, now) => HandleWebhook(db, w, now)
    case RequestRefundOp(tenant, p, refund) => RequestRefund(db, tenant, p, refund)
    case DecideOp(a, approve) => Decide(db, a, approve)
    case ExecuteRefundOp(tenant, a, reply) => ExecuteRefund(db, tenant, a, reply)
    case CancelOp(tenant, p, confirmed) => CancelPayment(db, tenant, p, confirmed)
    case SubscriptionOp(tenant, op) =>
      match Subscriptions.Apply(AccountOf(db, tenant), db.plans, op)
      case Err(e) => Effect([], Err(SubscriptionFailed(e)))
      case Ok(acc) => Effect([], Ok(WithAccount(db, tenant, acc)))
  }
}
