/** The billing services as they run, each step against the session they share. */
module BillingServices {
  import opened Results
  import opened Text
  import opened BillingStates
  import opened Subscriptions
  import opened BillingDb
  import opened Ledger

  /** The session has gone through exactly the commits of `e`, and the call ended as `e` says. */
  twostate predicate Performed(s: Session, e: Effect, ok: bool)
    reads s
  {
    && s.log == old(s.log) + e.saved
    && s.committed == Latest(old(s.committed), e.saved, |e.saved|)
    && ok == e.outcome.Ok?
    && (ok ==> s.working == e.outcome.value)
  }

  class SubscriptionService {
    const session: Session

    constructor (session: Session)
      ensures this.session == session
    {
      this.session := session;
    }

    /** Stores a subscription together with the history row that records the change. */
    method Save(tenant: TenantId, sub: Subscription, actor: Actor)
      modifies session`working
      ensures session.working ==
              WithAccount(old(session.working), tenant, Recorded(AccountOf(old(session.working), tenant), sub, actor))
    {
      var acc := AccountOf(session.working, tenant);
      var previous := CurrentView(acc);
      var row := HistoryRow(previous, View(sub.plan, sub.status), actor);
      session.working := WithAccount(session.working, tenant, Account(Some(sub), acc.history + [row]));
    }

    method CreateTrialSubscription(tenant: TenantId, id: SubscriptionId, now: Time, trialDays: int)
      returns (r: Result<Subscription, SubscriptionError>)
      modifies session`working
      ensures match CreateTrial(AccountOf(old(session.working), tenant), old(session.working).plans, id, now, trialDays)
              case Err(e) => r == Err(e)
              case Ok(acc) => r == Ok(acc.sub.value) && AccountOf(session.working, tenant) == acc
                              && session.working == old(session.working).(accounts := session.working.accounts)
                              && forall t :: t != tenant ==> AccountOf(session.working, t) == AccountOf(old(session.working), t)
    {
      var existing := AccountOf(session.working, tenant).sub;
      if existing.Some? {
        return Ok(existing.value);
      }
      var price := MonthlyPrice(session.working.plans, "starter");
      if price.None? {
        return Err(PlanNotFound);
      }
      var trialEnd := now + trialDays * DAY;
      var sub := Subscription(id, "starter", TRIALING, MONTHLY, price.value, now, trialEnd, Some(trialEnd), None, None, None);
      Save(tenant, sub, SYSTEM);
      r := Ok(sub);
    }

    method ActivateSubscription(tenant: TenantId, id: SubscriptionId, code: PlanCode, cycle: Cycle, actor: Actor,
                                verified: bool, now: Time)
      returns (r: Result<Subscription, SubscriptionError>)
      modifies session`working
      ensures match Activate(AccountOf(old(session.working), tenant), old(session.working).plans,
                             id, code, cycle, actor, verified, now)
              case Err(e) => r == Err(e) && session.working == old(session.working)
              case Ok(acc) => r == Ok(acc.sub.value) && session.working == WithAccount(old(session.working), tenant, acc)
    {
      var existing := AccountOf(session.working, tenant).sub;
      var price := MonthlyPrice(session.working.plans, code);
      if price.None? {
        return Err(PlanNotFound);
      }
      var billed := BilledAmount(price.value, cycle);
      if billed > 0 && !verified {
        return Err(PaymentVerificationRequired);
      }
      var periodEnd := now + PeriodDays(cycle) * DAY;
      var sub;
      if existing.None? {
        sub := Subscription(id, Lower(code), ACTIVE, Upper(cycle), billed, now, periodEnd, None, None, None, None);
      } else {
        sub := existing.value;
        if !SubscriptionAllowed(sub.status, ACTIVE) {
          return Err(InvalidSubscriptionState(sub.status, ACTIVE));
        }
        sub := sub.(plan := Lower(code));
        sub := sub.(status := ACTIVE);
        sub := sub.(cycle := Upper(cycle));
        sub := sub.(amount := billed);
        sub := sub.(periodStart := now);
        sub := sub.(periodEnd := periodEnd);
      }
      Save(tenant, sub, actor);
      r := Ok(sub);
    }

    method ChangePlan(tenant: TenantId, code: PlanCode, cycle: Option<Cycle>, actor: Actor, verified: bool)
      returns (r: Result<Subscription, SubscriptionError>)
      modifies session`working
      ensures match Subscriptions.ChangePlan(AccountOf(old(session.working), tenant), old(session.working).plans,
                                             code, cycle, actor, verified)
              case Err(e) => r == Err(e) && session.working == old(session.working)
              case Ok(acc) => r == Ok(acc.sub.value) && session.working == WithAccount(old(session.working), tenant, acc)
    {
      var existing := AccountOf(session.working, tenant).sub;
      if existing.None? {
        return Err(SubscriptionNotFound);
      }
      var sub := existing.value;
      var price := MonthlyPrice(session.working.plans, code);
      if price.None? {
        return Err(PlanNotFound);
      }
      var newCycle := if cycle.Some? && cycle.value != "" then Upper(cycle.value) else sub.cycle;
      var billed := BilledAmount(price.value, newCycle);
      if billed > 0 && !verified {
        return Err(PaymentVerificationRequired);
      }
      sub := sub.(plan := Lower(code));
      sub := sub.(cycle := newCycle);
      sub := sub.(amount := billed);
      Save(tenant, sub, actor);
      r := Ok(sub);
    }

    method TransitionStatus(tenant: TenantId, sub: Subscription, target: SubscriptionStatus, actor: Actor)
      returns (r: Result<Subscription, SubscriptionError>)
      modifies session`working
      ensures match Transition(AccountOf(old(session.working), tenant), sub, target, actor)
              case Err(e) => r == Err(e) && session.working == old(session.working)
              case Ok(acc) => r == Ok(acc.sub.value) && session.working == WithAccount(old(session.working), tenant, acc)
    {
      if !SubscriptionAllowed(sub.status, target) {
        return Err(InvalidSubscriptionState(sub.status, target));
      }
      var next := sub.(status := target);
      Save(tenant, next, actor);
      r := Ok(next);
    }

    method CancelSubscription(tenant: TenantId, actor: Actor, now: Time) returns (r: Result<Subscription, SubscriptionError>)
      modifies session`working
      ensures match Cancel(AccountOf(old(session.working), tenant), actor, now)
              case Err(e) => r == Err(e)
              case Ok(acc) => r == Ok(acc.sub.value) && session.working == WithAccount(old(session.working), tenant, acc)
    {
      var existing := AccountOf(session.working, tenant).sub;
      if existing.None? {
        return Err(SubscriptionNotFound);
      }
      var sub := existing.value;
      if !SubscriptionAllowed(sub.status, CANCELLED_PENDING_EXPIRY) {
        return Err(InvalidSubscriptionState(sub.status, CANCELLED_PENDING_EXPIRY));
      }
      sub := sub.(cancelledAt := Some(now));
      r := TransitionStatus(tenant, sub, CANCELLED_PENDING_EXPIRY, actor);
    }

    method CheckTrialExpiration(tenant: TenantId, now: Time) returns (r: Result<Subscription, SubscriptionError>)
      modifies session`working
      ensures match ExpireTrial(AccountOf(old(session.working), tenant), now)
              case Err(e) => r == Err(e)
              case Ok(acc) => r == Ok(acc.sub.value) && AccountOf(session.working, tenant) == acc
                              && session.working == old(session.working).(accounts := session.working.accounts)
                              && forall t :: t != tenant ==> AccountOf(session.working, t) == AccountOf(old(session.working), t)
    {
      var existing := AccountOf(session.working, tenant).sub;
      if existing.None? {
        return Err(SubscriptionNotFound);
      }
      var sub := existing.value;
      if sub.status.TRIALING? && sub.trialEnd.Some? && now >= sub.trialEnd.value {
        r := TransitionStatus(tenant, sub, EXPIRED, SYSTEM);
      } else {
        r := Ok(sub);
      }
    }

    method UpdatePaymentFailureStatus(tenant: TenantId, daysPastDue: int, now: Time)
      returns (r: Result<Subscription, SubscriptionError>)
      modifies session`working
      ensures match Dun(AccountOf(old(session.working), tenant), daysPastDue, now)
              case Err(e) => r == Err(e)
              case Ok(acc) => r == Ok(acc.sub.value) && session.working == WithAccount(old(session.working), tenant, acc)
    {
      var acc := AccountOf(session.working, tenant);
      if acc.sub.None? {
        return Err(SubscriptionNotFound);
      }
      var sub := acc.sub.value;
      var target := sub.status;
      if daysPastDue >= 30 {
        target := EXPIRED;
        sub := sub.(expiredAt := Some(now));
      } else if daysPastDue >= 14 {
        target := SUSPENDED;
        if sub.suspendedAt.None? {
          sub := sub.(suspendedAt := Some(now));
        }
      } else if daysPastDue >= 8 {
        target := RESTRICTED;
      } else if daysPastDue >= 4 {
        target := GRACE_PERIOD;
      } else if daysPastDue >= 0 {
        target := PAST_DUE;
      }
      if target != sub.status {
        r := TransitionStatus(tenant, sub, target, SYSTEM);
      } else {
        session.working := WithAccount(session.working, tenant, acc.(sub := Some(sub)));
        r := Ok(sub);
      }
    }
  }

  class InvoiceService {
    const session: Session

    constructor (session: Session)
      ensures this.session == session
    {
      this.session := session;
    }

    method CreateInvoice(tenant: TenantId, i: InvoiceId, defs: seq<ItemDef>, subscription: Option<SubscriptionId>,
                         discount: Cents, tax: Cents, currency: string)
      returns (invoice: Invoice)
      modifies session
      ensures invoice == NewInvoice(tenant, subscription, defs, discount, tax, currency)
      ensures Performed(session, Ledger.CreateInvoice(old(session.working), i, invoice), true)
    {
      var subtotal: Cents := 0;
      var items: seq<InvoiceItem> := [];
      var k := 0;
      while k < |defs|
        invariant 0 <= k <= |defs|
        invariant items == ItemsOf(defs[..k]) && subtotal == SubtotalOf(items)
        invariant session.working == old(session.working) && session.log == old(session.log)
      {
        var def := defs[k];
        var amount := def.unitPrice * def.quantity;
        subtotal := subtotal + amount;
        ghost var before := items;
        items := items + [InvoiceItem(def.description, def.quantity, def.unitPrice, amount)];
        assert defs[..k + 1][..k] == defs[..k];
        assert items[..|items| - 1] == before;
        k := k + 1;
      }
      assert defs[..k] == defs;
      var total := subtotal - discount + tax;
      invoice := Invoice(tenant, subscription, ISSUED, items, subtotal, discount, tax, total, currency);
      session.working := session.working.(invoices := session.working.invoices[i := invoice]);
      session.Commit();
    }

    /** Changes the status and commits; the flush inside the commit enforces the unique index on payments. */
    method UpdateInvoiceStatus(tenant: TenantId, i: InvoiceId, status: InvoiceStatus) returns (r: Result<Invoice, LedgerError>)
      modifies session
      ensures match UpdateStatus(old(session.working), tenant, i, status)
              case Err(e) => r == Err(e) && session.log == old(session.log) && session.committed == old(session.committed)
              case Ok(db) =>
                if UniqueProviderIds(db) then
                  && r == Ok(db.invoices[i])
                  && session.working == session.committed == db
                  && session.log == old(session.log) + [db]
                else
                  r == Err(DuplicateProviderId) && session.log == old(session.log) && session.committed == old(session.committed)
    {
      if !OwnInvoice(session.working, tenant, i) {
        return Err(InvoiceNotFound);
      }
      var invoice := session.working.invoices[i];
      if !InvoiceAllowed(invoice.status, status) {
        return Err(InvalidInvoiceState);
      }
      invoice := invoice.(status := status);
      session.working := session.working.(invoices := session.working.invoices[i := invoice]);
      if !UniqueProviderIds(session.working) {
        return Err(DuplicateProviderId);
      }
      session.Commit();
      r := Ok(invoice);
    }
  }

  lemma ConflictIsTakenId(db: Db, tenant: TenantId, p: PaymentId, providerId: string, after: Db)
    requires UniqueProviderIds(db) && OwnPayment(db, tenant, p)
    requires after.payments == MarkSucceeded(db, p, providerId).payments
    ensures UniqueProviderIds(after) <==> !(providerId != "" && ProviderIdTaken(db, tenant, p, providerId))
  {
    if providerId != "" && ProviderIdTaken(db, tenant, p, providerId) {
      var q :| q in db.payments && q != p && db.payments[q].tenant == tenant && db.payments[q].providerId == Some(providerId);
      assert SameProviderId(after.payments[p], after.payments[q]);
    } else {
      forall q, r | q in after.payments && r in after.payments && SameProviderId(after.payments[q], after.payments[r])
        ensures q == r
      {
        if providerId == "" || (q != p && r != p) {
          assert SameProviderId(db.payments[q], db.payments[r]);
        }
      }
    }
  }

  class PaymentService {
    const session: Session
    const invoices: InvoiceService
    const subscriptions: SubscriptionService

    ghost predicate Valid() {
      invoices.session == session && subscriptions.session == session
    }

    constructor (session: Session)
      ensures Valid() && this.session == session
    {
      this.session := session;
      invoices := new InvoiceService(session);
      subscriptions := new SubscriptionService(session);
    }

    method CreatePaymentIntent(tenant: TenantId, i: InvoiceId, p: PaymentId, amount: Option<Cents>,
                               currency: Option<string>, reply: ProviderReply)
      returns (r: Result<Payment, LedgerError>)
      requires Valid()
      modifies session`working
      ensures var e := CreateIntent(old(session.working), tenant, i, p, amount, currency, reply);
              match e.outcome
              case Err(err) => r == Err(err) && session.working == old(session.working)
              case Ok(db) => r == Ok(db.payments[p]) && session.working == db
    {
      if !OwnInvoice(session.working, tenant, i) {
        return Err(InvoiceNotFound);
      }
      var invoice := session.working.invoices[i];
      if amount.Some? && amount.value != invoice.total {
        return Err(AmountMismatch);
      }
      if currency.Some? && Upper(currency.value) != Upper(invoice.currency) {
        return Err(CurrencyMismatch);
      }
      if reply.Refused? {
        return Err(ProviderFailed);
      }
      if ProviderIdTaken(session.working, tenant, p, reply.providerId) {
        return Err(DuplicateProviderId);
      }
      var payment := Payment(tenant, i, invoice.total, 0, invoice.currency, PENDING, Some(reply.providerId));
      session.working := session.working.(payments := session.working.payments[p := payment]);
      r := Ok(payment);
    }

    method ConfirmPaymentSuccess(tenant: TenantId, p: PaymentId, providerId: string, now: Time)
      returns (r: Result<PaymentId, LedgerError>)
      requires Valid() && UniqueProviderIds(session.working)
      modifies session
      ensures var e := Confirm(old(session.working), tenant, p, providerId, now);
              Performed(session, e, r.Ok?) && (r == match e.outcome case Ok(_) => Ok(p) case Err(err) => Err(err))
    {
      if !OwnPayment(session.working, tenant, p) {
        return Err(PaymentNotFound);
      }
      var payment := session.working.payments[p];
      if payment.status.SUCCEEDED? {
        return Ok(p);
      }
      if !PaymentAllowed(payment.status, SUCCEEDED) {
        return Err(InvalidPaymentState);
      }
      payment := payment.(status := SUCCEEDED);
      if providerId != "" {
        payment := payment.(providerId := Some(providerId));
      }
      session.working := session.working.(payments := session.working.payments[p := payment]);
      assert session.working == MarkSucceeded(old(session.working), p, providerId);
      ghost var marked := session.working;
      var updated := invoices.UpdateInvoiceStatus(tenant, payment.invoice, PAID);
      if UpdateStatus(marked, tenant, payment.invoice, PAID).Ok? {
        ConflictIsTakenId(old(session.working), tenant, p, providerId, UpdateStatus(marked, tenant, payment.invoice, PAID).value);
      }
      if updated.Err? {
        return Err(updated.error);
      }
      var invoice := session.working.invoices[payment.invoice];
      if invoice.subscription.Some? {
        var existing := AccountOf(session.working, tenant).sub;
        if existing.None? {
          return Err(SubscriptionFailed(SubscriptionNotFound));
        }
        var sub := existing.value;
        var activated := subscriptions.ActivateSubscription(tenant, sub.id, sub.plan, sub.cycle, PAYMENT_PROVIDER, true, now);
        if activated.Err? {
          return Err(SubscriptionFailed(activated.error));
        }
      }
      r := Ok(p);
    }

    method RecordPaymentFailure(tenant: TenantId, p: PaymentId, now: Time) returns (r: Result<PaymentId, LedgerError>)
      requires Valid()
      modifies session`working
      ensures var e := RecordFailure(old(session.working), tenant, p, now);
              Performed(session, e, r.Ok?) && (r == match e.outcome case Ok(_) => Ok(p) case Err(err) => Err(err))
    {
      if !OwnPayment(session.working, tenant, p) {
        return Err(PaymentNotFound);
      }
      var payment := session.working.payments[p];
      if payment.status.FAILED? {
        return Ok(p);
      }
      if !PaymentAllowed(payment.status, FAILED) {
        return Err(InvalidPaymentState);
      }
      payment := payment.(status := FAILED);
      session.working := session.working.(payments := session.working.payments[p := payment]);
      var dunned := subscriptions.UpdatePaymentFailureStatus(tenant, 0, now);
      if dunned.Err? {
        return Err(SubscriptionFailed(dunned.error));
      }
      r := Ok(p);
    }

    method HandleProviderWebhook(w: Webhook, now: Time) returns (r: Result<PaymentId, LedgerError>)
      requires Valid() && UniqueProviderIds(session.working)
      modifies session
      ensures var e := HandleWebhook(old(session.working), w, now);
              Performed(session, e, r.Ok?) && (e.outcome.Err? ==> r == Err(e.outcome.error))
      ensures r.Ok? ==> Ok(r.value) == Resolve(old(session.working), w)
    {
      var db := session.working;
      if w.invoice !in db.invoices || (w.tenant.Some? && db.invoices[w.invoice].tenant != w.tenant.value) {
        return Err(UnmatchedWebhook);
      }
      var invoice := db.invoices[w.invoice];
      var tenant := invoice.tenant;
      if w.amount != invoice.total {
        return Err(AmountMismatch);
      }
      if Upper(w.currency) != Upper(invoice.currency) {
        return Err(CurrencyMismatch);
      }
      var matches := ByProviderId(db, tenant, w.providerId);
      if |matches| > 1 {
        return Err(MultipleMatches);
      }
      if matches == {} {
        matches := PendingFor(db, tenant, w.invoice);
        if |matches| > 1 {
          return Err(MultipleMatches);
        }
        if matches == {} {
          return Err(UnmatchedWebhook);
        }
      }
      var p :| p in matches;
      OnlyOne(matches, p);
      if w.status.Success? || w.event.Success? {
        r := ConfirmPaymentSuccess(tenant, p, w.providerId, now);
      } else if w.status.Failure? || w.event.Failure? {
        r := RecordPaymentFailure(tenant, p, now);
      } else {
        r := Ok(p);
      }
    }

    /** The webhook request: commit what the service returns from, discard what it raises from. */
    method WebhookRequest(w: Webhook, now: Time) returns (r: Result<PaymentId, LedgerError>)
      requires Valid() && UniqueProviderIds(session.working) && session.working == session.committed
      modifies session
      ensures session.log == old(session.log) + Commits(Perform(old(session.committed), WebhookOp(w, now)))
      ensures session.working == session.committed ==
              Final(old(session.committed), Perform(old(session.committed), WebhookOp(w, now)))
    {
      r := HandleProviderWebhook(w, now);
      if r.Ok? {
        session.Commit();
      } else {
        session.Rollback();
      }
    }
  }

  class RefundService {
    const session: Session

    constructor (session: Session)
      ensures this.session == session
    {
      this.session := session;
    }

    method RequestRefund(tenant: TenantId, p: PaymentId, amount: Cents) returns (r: Result<ApprovalId, LedgerError>)
      modifies session`working
      ensures var e := Ledger.RequestRefund(old(session.working), tenant, p, amount);
              Performed(session, e, r.Ok?)
              && (r == match e.outcome case Ok(_) => Ok(|old(session.working).approvals|) case Err(err) => Err(err))
    {
      if !OwnPayment(session.working, tenant, p) {
        return Err(PaymentNotFound);
      }
      var payment := session.working.payments[p];
      if !payment.status.SUCCEEDED? && !payment.status.PARTIALLY_REFUNDED? {
        return Err(RefundNotAllowed);
      }
      var remaining := payment.amount - payment.refunded;
      if amount > remaining {
        return Err(RefundTooLarge);
      }
      r := Ok(|session.working.approvals|);
      session.working := session.working.(approvals := session.working.approvals + [Approval(tenant, p, amount, AWAITING)]);
    }

    method ExecuteApprovedRefund(tenant: TenantId, a: ApprovalId, reply: RefundReply) returns (r: Result<PaymentId, LedgerError>)
      requires session.working == session.committed
      modifies session
      ensures var e := ExecuteRefund(old(session.working), tenant, a, reply);
              Performed(session, e, r.Ok?)
              && (r == match e.outcome case Ok(_) => Ok(old(session.working).approvals[a].payment) case Err(err) => Err(err))
    {
      if a >= |session.working.approvals| || session.working.approvals[a].tenant != tenant {
        return Err(ApprovalNotFound);
      }
      var approval := session.working.approvals[a];
      var p := approval.payment;
      if approval.status.EXECUTED? {
        return if OwnPayment(session.working, tenant, p) then Ok(p) else Err(PaymentNotFound);
      }
      if !approval.status.APPROVED? {
        return Err(NotApproved);
      }
      if !OwnPayment(session.working, tenant, p) {
        return Err(PaymentNotFound);
      }
      var payment := session.working.payments[p];
      var remaining := payment.amount - payment.refunded;
      if approval.amount > remaining {
        approval := approval.(status := EXECUTION_FAILED);
        session.working := session.working.(approvals := session.working.approvals[a := approval]);
        session.Commit();
        return Err(RefundTooLarge);
      }
      var total := payment.refunded + approval.amount;
      var target := if total >= payment.amount then REFUNDED else PARTIALLY_REFUNDED;
      if !PaymentAllowed(payment.status, target) {
        return Err(InvalidPaymentState);
      }
      if reply.Raised? {
        return Err(ProviderRaised);
      }
      if reply.Declined? {
        approval := approval.(status := EXECUTION_FAILED);
        session.working := session.working.(approvals := session.working.approvals[a := approval]);
        session.Commit();
        return Err(ProviderFailed);
      }
      approval := approval.(status := EXECUTED);
      payment := payment.(refunded := total);
      payment := payment.(status := target);
      session.working := session.working.(approvals := session.working.approvals[a := approval],
                                          payments := session.working.payments[p := payment]);
      session.Commit();
      r := Ok(p);
    }
  }

  class IntegrationEndpoints {
    const session: Session

    constructor (session: Session)
      ensures this.session == session
    {
      this.session := session;
    }

    /** `confirmed` is what the provider says to the cancellation; the payment's status is not consulted. */
    method CancelPayment(tenant: TenantId, p: PaymentId, confirmed: bool) returns (r: Result<PaymentId, LedgerError>)
      requires session.working == session.committed
      modifies session
      ensures var e := Ledger.CancelPayment(old(session.working), tenant, p, confirmed);
              Performed(session, e, r.Ok?) && (r == match e.outcome case Ok(_) => Ok(p) case Err(err) => Err(err))
    {
      if !OwnPayment(session.working, tenant, p) {
        return Err(PaymentNotFound);
      }
      if confirmed {
        var payment := session.working.payments[p];
        payment := payment.(status := CANCELLED);
        session.working := session.working.(payments := session.working.payments[p := payment]);
        session.Commit();
      }
      return Ok(p);
    }
  }
}
