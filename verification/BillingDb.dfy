/** The billing tables and the transactional session the billing services share. */
module BillingDb {
  import opened Results
  import opened BillingStates
  import opened Subscriptions

  type TenantId = nat
  type InvoiceId = nat
  type PaymentId = nat
  type ApprovalId = nat

  datatype InvoiceItem = InvoiceItem(description: string, quantity: int, unitPrice: Cents, amount: Cents)

  datatype Invoice = Invoice(
    tenant: TenantId, subscription: Option<SubscriptionId>, status: InvoiceStatus, items: seq<InvoiceItem>,
    subtotal: Cents, discount: Cents, tax: Cents, total: Cents, currency: string)

  datatype Payment = Payment(
    tenant: TenantId, invoice: InvoiceId, amount: Cents, refunded: Cents, currency: string,
    status: PaymentStatus, providerId: Option<string>)

  /** CLOSED stands for every decision other than approval: rejected, cancelled, expired, modified. */
  datatype ApprovalStatus = AWAITING | APPROVED | CLOSED | EXECUTED | EXECUTION_FAILED
  datatype Approval = Approval(tenant: TenantId, payment: PaymentId, amount: Cents, status: ApprovalStatus)

  /** Approvals are numbered by their position. */
  datatype Db = Db(
    plans: Catalogue,
    invoices: map<InvoiceId, Invoice>,
    payments: map<PaymentId, Payment>,
    accounts: map<TenantId, Account>,
    approvals: seq<Approval>)

  datatype LedgerError =
    | InvoiceNotFound | PaymentNotFound | AmountMismatch | CurrencyMismatch
    | ProviderFailed | ProviderRaised | DuplicateProviderId
    | InvalidInvoiceState | InvalidPaymentState
    | UnmatchedWebhook | MultipleMatches
    | RefundNotAllowed | RefundTooLarge | ApprovalNotFound | NotApproved
    | SubscriptionFailed(error: SubscriptionError)

  function AccountOf(db: Db, tenant: TenantId): Account {
    if tenant in db.accounts then db.accounts[tenant] else NO_ACCOUNT
  }

  function WithAccount(db: Db, tenant: TenantId, acc: Account): Db {
    db.(accounts := db.accounts[tenant := acc])
  }

  predicate OwnInvoice(db: Db, tenant: TenantId, i: InvoiceId) {
    i in db.invoices && db.invoices[i].tenant == tenant
  }

  predicate OwnPayment(db: Db, tenant: TenantId, p: PaymentId) {
    p in db.payments && db.payments[p].tenant == tenant
  }

  /** The unique index on (tenant, provider, provider payment id). */
  predicate UniqueProviderIds(db: Db) {
    forall p, q :: p in db.payments && q in db.payments && SameProviderId(db.payments[p], db.payments[q]) ==> p == q
  }

  predicate SameProviderId(a: Payment, b: Payment) {
    a.tenant == b.tenant && a.providerId.Some? && a.providerId == b.providerId
  }

  /**
    What a service call does to the database: the states it commits on the way, and how it ends.
    The request handler commits the working state after a call that returns and discards it after
    one that raises.
   */
  datatype Effect = Effect(saved: seq<Db>, outcome: Result<Db, LedgerError>)

  /** Every committed state of the request, in order. */
  function Commits(e: Effect): seq<Db> {
    match e.outcome
    case Ok(db) => e.saved + [db]
    case Err(_) => e.saved
  }

  /** The committed state once the first n of these commits have gone through. */
  function Latest(db: Db, commits: seq<Db>, n: nat): Db {
    if n == 0 || commits == [] then db
    else if n <= |commits| then commits[n - 1]
    else commits[|commits| - 1]
  }

  function Final(db: Db, e: Effect): Db {
    Latest(db, Commits(e), |Commits(e)|)
  }

  /** The session: a working copy, the committed copy, and the committed states so far. */
  class Session {
    var working: Db
    var committed: Db
    var log: seq<Db>

    constructor (db: Db)
      ensures working == committed == db && log == []
    {
      working, committed, log := db, db, [];
    }

    method Commit()
      modifies this
      ensures working == committed == old(working) && log == old(log) + [working]
    {
      committed := working;
      log := log + [working];
    }

    method Rollback()
      modifies this`working
      ensures working == committed
    {
      working := committed;
    }
  }
}
