/** The billing evidence the tenant pipeline asks for, read from the billing tables. */
module PipelinePayment {
  import opened Results
  import opened BillingStates
  import opened Subscriptions
  import opened BillingDb
  import opened Ledger
  import opened LedgerInvariants
  import opened LedgerResults
  import Lifecycle

  /** The two queries: PAID invoices of the subscription, then a SUCCEEDED payment of one of them. */
  method IsPaymentVerified(db: Db, tenant: TenantId) returns (verified: bool)
    ensures verified <==> PaymentVerified(db, tenant)
  {
    var sub := AccountOf(db, tenant).sub;
    if sub.None? {
      return false;
    }
    if sub.value.amount == 0 {
      return true;
    }
    var paid := set i | i in db.invoices && OwnInvoice(db, tenant, i) && db.invoices[i].subscription == Some(sub.value.id)
                        && db.invoices[i].status.PAID?;
    if paid == {} {
      assert forall i, p :: PaysInvoice(db, tenant, sub.value.id, i, p) ==> i in paid;
      return false;
    }
    var succeeded := set p | p in db.payments && OwnPayment(db, tenant, p) && db.payments[p].invoice in paid
                             && db.payments[p].status.SUCCEEDED?;
    if succeeded != {} {
      var p :| p in succeeded;
      assert PaysInvoice(db, tenant, sub.value.id, db.payments[p].invoice, p);
      return true;
    }
    assert forall i, p :: PaysInvoice(db, tenant, sub.value.id, i, p) ==> p in succeeded;
    return false;
  }

  ghost function Advanced(t: Lifecycle.Tenant, db: Db, tenant: TenantId): Lifecycle.Tenant
    requires Lifecycle.Current(t) in Lifecycle.PIPELINE
  {
    Lifecycle.Advance(t, Lifecycle.AT_READY, PaymentVerified(db, tenant), false).value
  }

  /** Once the payment of a subscription invoice is confirmed, the pipeline runs through to READY. */
  lemma ConfirmationOpensThePipeline(db: Db, tenant: TenantId, p: PaymentId, providerId: string, now: Time, t: Lifecycle.Tenant)
    requires Inv(db) && OwnPayment(db, tenant, p) && db.payments[p].status.PENDING?
    requires db.payments[p].invoice in db.invoices && db.invoices[db.payments[p].invoice].subscription.Some?
    requires Confirm(db, tenant, p, providerId, now).outcome.Ok?
    requires Lifecycle.Current(t) in Lifecycle.PIPELINE
    ensures Lifecycle.Current(Advanced(t, Confirm(db, tenant, p, providerId, now).outcome.value, tenant)).READY?
  {
    var e := Confirm(db, tenant, p, providerId, now);
    ConfirmationVerifies(db, tenant, p, providerId, now);
    assert Commits(e)[|Commits(e)| - 1] == e.outcome.value;
    Lifecycle.AdvanceToReadyEnds(t, true, false);
  }

  /** Until some payment of the subscription stands as SUCCEEDED, a paying tenant gets exactly to WAITING_PAYMENT. */
  lemma NoPaymentNoPipeline(db: Db, tenant: TenantId, t: Lifecycle.Tenant)
    requires Inv(db) && Lifecycle.Current(t) in Lifecycle.PIPELINE
    requires AccountOf(db, tenant).sub.Some? ==> AccountOf(db, tenant).sub.value.amount != 0
    requires forall p :: !Evidence(db, tenant, p)
    ensures Lifecycle.Current(Advanced(t, db, tenant)).WAITING_PAYMENT? <==>
              Lifecycle.Index(Lifecycle.Current(t)) <= Lifecycle.AT_WAITING
  {
    VerifiedIff(db, tenant);
    Lifecycle.AdvanceToReadyEnds(t, false, false);
  }
}
