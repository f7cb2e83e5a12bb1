/** The three billing transition tables and the validators that consult them. */
module BillingStates {

  datatype SubscriptionStatus =
    | TRIALING | ACTIVE | PAST_DUE | GRACE_PERIOD | RESTRICTED | SUSPENDED
    | CANCELLED_PENDING_EXPIRY | EXPIRED | ARCHIVED

  datatype InvoiceStatus = DRAFT | ISSUED | INVOICE_PENDING | PAID | INVOICE_FAILED | VOID | OVERDUE

  datatype PaymentStatus = PENDING | SUCCEEDED | FAILED | REFUNDED | PARTIALLY_REFUNDED | CANCELLED

  function SubscriptionTransitions(status: SubscriptionStatus): set<SubscriptionStatus> {
    match status
    case TRIALING => {ACTIVE, EXPIRED, CANCELLED_PENDING_EXPIRY, PAST_DUE}
    case ACTIVE => {PAST_DUE, CANCELLED_PENDING_EXPIRY, RESTRICTED, SUSPENDED, EXPIRED}
    case PAST_DUE => {ACTIVE, GRACE_PERIOD, RESTRICTED, SUSPENDED, EXPIRED}
    case GRACE_PERIOD => {ACTIVE, RESTRICTED, SUSPENDED, EXPIRED}
    case RESTRICTED => {ACTIVE, SUSPENDED, EXPIRED}
    case SUSPENDED => {ACTIVE, EXPIRED}
    case CANCELLED_PENDING_EXPIRY => {EXPIRED, ACTIVE}
    case EXPIRED => {ARCHIVED, ACTIVE}
    case ARCHIVED => {}
  }

  function InvoiceTransitions(status: InvoiceStatus): set<InvoiceStatus> {
    match status
    case DRAFT => {ISSUED, VOID}
    case ISSUED => {INVOICE_PENDING, PAID, INVOICE_FAILED, VOID}
    case INVOICE_PENDING => {PAID, INVOICE_FAILED, OVERDUE, VOID}
    case INVOICE_FAILED => {INVOICE_PENDING, PAID, OVERDUE, VOID}
    case OVERDUE => {PAID, INVOICE_FAILED, VOID}
    case PAID => {}
    case VOID => {}
  }

  function PaymentTransitions(status: PaymentStatus): set<PaymentStatus> {
    match status
    case PENDING => {SUCCEEDED, FAILED, CANCELLED}
    case SUCCEEDED => {REFUNDED, PARTIALLY_REFUNDED}
    case FAILED => {PENDING}
    case PARTIALLY_REFUNDED => {REFUNDED}
    case REFUNDED => {}
    case CANCELLED => {}
  }

  /** From every subscription status but ARCHIVED there is a way back to ACTIVE; ARCHIVED is entered from EXPIRED and never left. */
  lemma SubscriptionTable(status: SubscriptionStatus)
    ensures ACTIVE in SubscriptionTransitions(status) <==> status !in {ACTIVE, ARCHIVED}
    ensures ARCHIVED in SubscriptionTransitions(status) <==> status.EXPIRED?
    ensures EXPIRED in SubscriptionTransitions(status) <==> status !in {EXPIRED, ARCHIVED}
    ensures TRIALING !in SubscriptionTransitions(status)
    ensures CANCELLED_PENDING_EXPIRY in SubscriptionTransitions(status) <==> status in {TRIALING, ACTIVE}
    ensures PAST_DUE in SubscriptionTransitions(status) <==> status in {TRIALING, ACTIVE}
    ensures GRACE_PERIOD in SubscriptionTransitions(status) <==> status.PAST_DUE?
    ensures RESTRICTED in SubscriptionTransitions(status) <==> status in {ACTIVE, PAST_DUE, GRACE_PERIOD}
    ensures SUSPENDED in SubscriptionTransitions(status) <==> status in {ACTIVE, PAST_DUE, GRACE_PERIOD, RESTRICTED}
  {
  }

  /** An invoice that is PAID or VOID stays so, and every other can become VOID, and PAID unless it is a draft. */
  lemma InvoiceTable(status: InvoiceStatus)
    ensures InvoiceTransitions(status) == {} <==> status in {PAID, VOID}
    ensures PAID in InvoiceTransitions(status) <==> status !in {DRAFT, PAID, VOID}
    ensures VOID in InvoiceTransitions(status) <==> status !in {PAID, VOID}
    ensures DRAFT !in InvoiceTransitions(status)
  {
  }

  /** Money is received from PENDING only, and from then on only returned. */
  lemma PaymentTable(status: PaymentStatus)
    ensures SUCCEEDED in PaymentTransitions(status) <==> status.PENDING?
    ensures FAILED in PaymentTransitions(status) <==> status.PENDING?
    ensures CANCELLED in PaymentTransitions(status) <==> status.PENDING?
    ensures PENDING in PaymentTransitions(status) <==> status.FAILED?
    ensures PARTIALLY_REFUNDED in PaymentTransitions(status) <==> status.SUCCEEDED?
    ensures REFUNDED in PaymentTransitions(status) <==> status in {SUCCEEDED, PARTIALLY_REFUNDED}
  {
  }

  predicate SubscriptionAllowed(current: SubscriptionStatus, next: SubscriptionStatus) {
    current == next || next in SubscriptionTransitions(current)
  }

  predicate InvoiceAllowed(current: InvoiceStatus, next: InvoiceStatus) {
    current == next || next in InvoiceTransitions(current)
  }

  predicate PaymentAllowed(current: PaymentStatus, next: PaymentStatus) {
    current == next || next in PaymentTransitions(current)
  }
}
