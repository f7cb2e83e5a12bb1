/** Provider webhooks: which payment they decide, and what a second delivery does. */
module Webhooks {
  import opened Results
  import opened Text
  import opened BillingStates
  import opened Subscriptions
  import opened BillingDb
  import opened Ledger
  import opened LedgerInvariants
  import opened LedgerResults
  import opened LedgerRuns

  // ----- One delivery -----

  lemma ResolvedIsOwn(db: Db, w: Webhook)
    requires Resolve(db, w).Ok?
    ensures OwnPayment(db, db.invoices[w.invoice].tenant, Resolve(db, w).value)
  {
  }

  lemma AtMostOneKnown(db: Db, tenant: TenantId, id: string)
    requires UniqueProviderIds(db)
    ensures |ByProviderId(db, tenant, id)| <= 1
  {
    var known := ByProviderId(db, tenant, id);
    if |known| > 1 {
      var p :| p in known;
      assert |known - {p}| >= 1;
      var q :| q in known - {p};
      assert SameProviderId(db.payments[p], db.payments[q]);
    }
  }

  /**
    Which payment a webhook is about: the tenant's one with its provider id, whatever invoice that is for,
    or else the invoice's only open one.  The announced amount is that payment's if the invoices agree.
   */
  lemma WebhookTarget(db: Db, w: Webhook)
    requires Inv(db) && Resolve(db, w).Ok?
    ensures var p := Resolve(db, w).value;
            && OwnPayment(db, db.invoices[w.invoice].tenant, p)
            && (db.payments[p].providerId == Some(w.providerId) ||
                PendingFor(db, db.invoices[w.invoice].tenant, w.invoice) == {p})
            && (db.payments[p].invoice == w.invoice ==> db.payments[p].amount == w.amount)
  {
    var tenant := db.invoices[w.invoice].tenant;
    var known, waiting := ByProviderId(db, tenant, w.providerId), PendingFor(db, tenant, w.invoice);
    var p := Resolve(db, w).value;
    if |known| == 1 {
      OnlyOne(known, p);
    } else {
      OnlyOne(waiting, p);
    }
    assert PaymentInv(db, p);
  }

  /** The checks a webhook passes before any payment is looked for. */
  predicate Matched(db: Db, w: Webhook) {
    && w.invoice in db.invoices
    && (w.tenant.Some? ==> db.invoices[w.invoice].tenant == w.tenant.value)
    && w.amount == db.invoices[w.invoice].total
    && Upper(w.currency) == Upper(db.invoices[w.invoice].currency)
  }

  /** A payment of the invoice's tenant under the webhook's provider id. */
  predicate HasItsId(db: Db, w: Webhook, q: PaymentId)
    requires w.invoice in db.invoices
  {
    q in db.payments && db.payments[q].tenant == db.invoices[w.invoice].tenant && db.payments[q].providerId == Some(w.providerId)
  }

  /** An open payment of the webhook's invoice. */
  predicate IsOpenFor(db: Db, w: Webhook, q: PaymentId)
    requires w.invoice in db.invoices
  {
    && q in db.payments && db.payments[q].tenant == db.invoices[w.invoice].tenant
    && db.payments[q].invoice == w.invoice && db.payments[q].status.PENDING?
  }

  /**
    A webhook is about the payment with its provider id or, if none has it, about the invoice's only open one,
    and only if it matches the invoice.
   */
  lemma ResolvesIff(db: Db, w: Webhook, p: PaymentId)
    requires Inv(db)
    ensures Resolve(db, w) == Ok(p) <==>
              && Matched(db, w)
              && (HasItsId(db, w, p) ||
                  ((forall q :: q in db.payments ==> !HasItsId(db, w, q)) && IsOpenFor(db, w, p) &&
                   forall q :: q in db.payments && IsOpenFor(db, w, q) ==> q == p))
  {
    if Matched(db, w) {
      var tenant := db.invoices[w.invoice].tenant;
      var known, waiting := ByProviderId(db, tenant, w.providerId), PendingFor(db, tenant, w.invoice);
      AtMostOneKnown(db, tenant, w.providerId);
      assert forall q :: q in db.payments ==> (q in known <==> HasItsId(db, w, q)) && (q in waiting <==> IsOpenFor(db, w, q));
      OneOrNone(known, p);
      OneOrNone(waiting, p);
      if |known| == 1 {
        OnlyOne(known, TheOne(known));
      }
      if |waiting| == 1 {
        OnlyOne(waiting, TheOne(waiting));
      }
    }
  }

  lemma OneOrNone(s: set<PaymentId>, p: PaymentId)
    ensures |s| == 0 <==> s == {}
    ensures p in s && (forall q :: q in s ==> q == p) ==> s == {p} && |s| == 1
  {
    if p in s && forall q :: q in s ==> q == p {
      assert s == {p};
    }
  }

  /** What matches no invoice is rejected before anything is looked up, and changes nothing. */
  lemma UnmatchedIsRejected(db: Db, w: Webhook, now: Time)
    requires !Matched(db, w)
    ensures Resolve(db, w).Err? && Commits(HandleWebhook(db, w, now)) == []
    ensures var found := w.invoice in db.invoices && (w.tenant.Some? ==> db.invoices[w.invoice].tenant == w.tenant.value);
            && (Resolve(db, w) == Err(UnmatchedWebhook) <==> !found)
            && (Resolve(db, w) == Err(AmountMismatch) <==> found && w.amount != db.invoices[w.invoice].total)
            && (Resolve(db, w) == Err(CurrencyMismatch) <==> found && w.amount == db.invoices[w.invoice].total)
  {
  }

  /** A matched webhook confirms its payment if either of its two fields says so, else fails it if either says that, else does nothing. */
  lemma WebhookDoes(db: Db, w: Webhook, now: Time)
    requires Resolve(db, w).Ok?
    ensures w.invoice in db.invoices
    ensures var tenant, p := db.invoices[w.invoice].tenant, Resolve(db, w).value;
            HandleWebhook(db, w, now) ==
              if w.status.Success? || w.event.Success? then Confirm(db, tenant, p, w.providerId, now)
              else if w.status.Failure? || w.event.Failure? then RecordFailure(db, tenant, p, now)
              else Effect([], Ok(db))
  {
  }

  /** In a sound ledger a webhook is ambiguous exactly when its provider id is new and its invoice has several open payments. */
  lemma AmbiguousIff(db: Db, w: Webhook)
    requires Inv(db) && w.invoice in db.invoices && (w.tenant.Some? ==> db.invoices[w.invoice].tenant == w.tenant.value)
    requires w.amount == db.invoices[w.invoice].total && Upper(w.currency) == Upper(db.invoices[w.invoice].currency)
    ensures var tenant := db.invoices[w.invoice].tenant;
            Resolve(db, w) == Err(MultipleMatches) <==>
              ByProviderId(db, tenant, w.providerId) == {} && |PendingFor(db, tenant, w.invoice)| > 1
  {
    AtMostOneKnown(db, db.invoices[w.invoice].tenant, w.providerId);
  }

  /** A webhook that reaches a decided payment commits nothing new. */
  lemma DecidedWebhookChangesNothing(db: Db, w: Webhook, now: Time)
    requires Resolve(db, w).Ok? && Decided(db, Resolve(db, w).value)
    ensures forall k :: 0 <= k < |Commits(HandleWebhook(db, w, now))| ==> Commits(HandleWebhook(db, w, now))[k] == db
  {
    ResolvedIsOwn(db, w);
  }

  /** What one outcome may do to the payments: decide `p`, if it was still open, and touch no other. */
  predicate DecidesOnly(db: Db, after: Db, p: PaymentId, status: PaymentStatus) {
    && after.payments.Keys == db.payments.Keys
    && forall q :: q in db.payments && after.payments[q] != db.payments[q] ==>
         q == p && db.payments[p].status.PENDING? && after.payments[p].status == status
  }

  lemma FinalOf(db: Db, e: Effect)
    ensures e.outcome.Ok? ==> Final(db, e) == e.outcome.value
    ensures e.outcome.Err? && e.saved == [] ==> Final(db, e) == db
  {
  }

  lemma ConfirmDecides(db: Db, tenant: TenantId, p: PaymentId, providerId: string, now: Time)
    requires OwnPayment(db, tenant, p) && db.payments[p].status.PENDING?
    requires Confirm(db, tenant, p, providerId, now).saved != [] ==> Confirm(db, tenant, p, providerId, now).outcome.Ok?
    ensures DecidesOnly(db, Final(db, Confirm(db, tenant, p, providerId, now)), p, SUCCEEDED)
  {
    FinalOf(db, Confirm(db, tenant, p, providerId, now));
    if Confirm(db, tenant, p, providerId, now).outcome.Ok? {
      ConfirmedLedger(db, tenant, p, providerId, now);
    }
  }

  lemma FailureDecides(db: Db, tenant: TenantId, p: PaymentId, now: Time)
    requires OwnPayment(db, tenant, p) && db.payments[p].status.PENDING?
    ensures DecidesOnly(db, Final(db, RecordFailure(db, tenant, p, now)), p, FAILED)
  {
    FailureIsAtomic(db, tenant, p, now);
  }

  /** A webhook keeps the set of payments, and changes at most one, from PENDING to an outcome it announced. */
  lemma WebhookDecidesOne(db: Db, w: Webhook, now: Time)
    requires Inv(db)
    ensures var after := Final(db, HandleWebhook(db, w, now));
            && after.payments.Keys == db.payments.Keys
            && forall p :: p in db.payments && after.payments[p] != db.payments[p] ==>
                 && Resolve(db, w) == Ok(p)
                 && db.payments[p].status.PENDING?
                 && (if w.status.Success? || w.event.Success? then after.payments[p].status.SUCCEEDED?
                     else (w.status.Failure? || w.event.Failure?) && after.payments[p].status.FAILED?)
  {
    if Resolve(db, w).Ok? {
      ResolvedIsOwn(db, w);
      var p := Resolve(db, w).value;
      var tenant := db.invoices[w.invoice].tenant;
      if Decided(db, p) {
        DecidedWebhookChangesNothing(db, w, now);
      } else if Announces(w, Success) {
        ConfirmNeverFailsHalfway(db, tenant, p, w.providerId, now);
        ConfirmDecides(db, tenant, p, w.providerId, now);
      } else if Announces(w, Failure) {
        FailureDecides(db, tenant, p, now);
      }
    }
  }

  // ----- Sequences of deliveries -----

  ghost function Deliver(db: Db, w: Webhook, now: Time): Db {
    Final(db, HandleWebhook(db, w, now))
  }

  ghost function DeliverAll(db: Db, ws: seq<(Webhook, Time)>): Db
    decreases |ws|
  {
    if ws == [] then db else DeliverAll(Deliver(db, ws[0].0, ws[0].1), ws[1..])
  }

  lemma DeliveryKeepsInv(db: Db, w: Webhook, now: Time)
    requires Inv(db)
    ensures Inv(Deliver(db, w, now)) && Deliver(db, w, now).payments.Keys == db.payments.Keys
    ensures forall p :: Decided(db, p) ==> Deliver(db, w, now).payments[p] == db.payments[p]
  {
    WebhookDecidesOne(db, w, now);
    EveryCommitKeepsInv(db, WebhookOp(w, now));
  }

  /** Over any sequence of webhooks, duplicated and reordered at will, none creates a payment and none touches a decided one. */
  lemma {:induction false} DecisionStands(db: Db, ws: seq<(Webhook, Time)>)
    requires Inv(db)
    ensures DeliverAll(db, ws).payments.Keys == db.payments.Keys
    ensures forall p :: Decided(db, p) ==> DeliverAll(db, ws).payments[p] == db.payments[p]
    decreases |ws|
  {
    if ws != [] {
      DeliveryKeepsInv(db, ws[0].0, ws[0].1);
      DecisionStands(Deliver(db, ws[0].0, ws[0].1), ws[1..]);
    }
  }

  /** The first webhook that decides a payment is the last one that changes it. */
  lemma {:induction false} FirstDecisionStands(db: Db, ws: seq<(Webhook, Time)>, p: PaymentId, k: nat)
    requires Inv(db) && k <= |ws| && Decided(DeliverAll(db, ws[..k]), p)
    ensures p in DeliverAll(db, ws).payments && DeliverAll(db, ws).payments[p] == DeliverAll(db, ws[..k]).payments[p]
    decreases k
  {
    if k == 0 {
      DecisionStands(db, ws);
    } else {
      assert ws[..k][1..] == ws[1..][..k - 1] && ws[..k][0] == ws[0];
      DeliveryKeepsInv(db, ws[0].0, ws[0].1);
      FirstDecisionStands(Deliver(db, ws[0].0, ws[0].1), ws[1..], p, k - 1);
    }
  }

  /** Once `p` is decided, webhooks that can only be about `p` leave every table as it is. */
  lemma {:induction false} DecidedStopsEverything(db: Db, ws: seq<(Webhook, Time)>, p: PaymentId)
    requires Inv(db) && Decided(db, p)
    requires forall k :: 0 <= k < |ws| && Resolve(db, ws[k].0).Ok? ==> Resolve(db, ws[k].0).value == p
    ensures DeliverAll(db, ws) == db
    decreases |ws|
  {
    if ws != [] {
      DecidedDelivery(db, ws[0].0, ws[0].1, p);
      assert forall k :: 0 <= k < |ws[1..]| ==> ws[1..][k] == ws[k + 1];
      DecidedStopsEverything(db, ws[1..], p);
    }
  }

  lemma DecidedDelivery(db: Db, w: Webhook, now: Time, p: PaymentId)
    requires Decided(db, p) && (Resolve(db, w).Ok? ==> Resolve(db, w).value == p)
    ensures Deliver(db, w, now) == db
  {
    if Resolve(db, w).Ok? {
      DecidedWebhookChangesNothing(db, w, now);
    }
  }

  /**
    The first webhook that decides `p` settles payments, invoices, subscriptions and histories alike:
    whatever follows about `p` changes no table.
   */
  lemma {:induction false} FirstDecisionSettlesAll(db: Db, ws: seq<(Webhook, Time)>, p: PaymentId, k: nat)
    requires Inv(db) && k <= |ws| && Decided(DeliverAll(db, ws[..k]), p)
    requires forall j :: k <= j < |ws| && Resolve(DeliverAll(db, ws[..k]), ws[j].0).Ok? ==>
               Resolve(DeliverAll(db, ws[..k]), ws[j].0).value == p
    ensures DeliverAll(db, ws) == DeliverAll(db, ws[..k])
    decreases k
  {
    if k == 0 {
      assert ws[..0] == [];
      DecidedStopsEverything(db, ws, p);
    } else {
      assert ws[..k][1..] == ws[1..][..k - 1] && ws[..k][0] == ws[0];
      DeliveryKeepsInv(db, ws[0].0, ws[0].1);
      assert forall j :: 0 <= j < |ws[1..]| ==> ws[1..][j] == ws[j + 1];
      FirstDecisionSettlesAll(Deliver(db, ws[0].0, ws[0].1), ws[1..], p, k - 1);
    }
  }

  // ----- A second delivery, with anything in between -----

  predicate Decisive(w: Webhook) {
    Announces(w, Success) || Announces(w, Failure)
  }

  function Known(db: Db, w: Webhook): set<PaymentId>
    requires w.invoice in db.invoices
  {
    ByProviderId(db, db.invoices[w.invoice].tenant, w.providerId)
  }

  function Waiting(db: Db, w: Webhook): set<PaymentId>
    requires w.invoice in db.invoices
  {
    PendingFor(db, db.invoices[w.invoice].tenant, w.invoice)
  }

  /** Its provider id is on a decided payment, or is unknown while the invoice has no single open payment. */
  predicate Spent(db: Db, w: Webhook)
    requires w.invoice in db.invoices
  {
    || (exists p :: p in Known(db, w) && Decided(db, p))
    || (Known(db, w) == {} && |Waiting(db, w)| != 1)
  }

  /** It only announces a failure, which the subscription's status does not admit. */
  predicate FailureRefused(db: Db, w: Webhook)
    requires w.invoice in db.invoices
  {
    && !Announces(w, Success)
    && var sub := AccountOf(db, db.invoices[w.invoice].tenant).sub;
       !(sub.Some? && sub.value.status in {TRIALING, ACTIVE, PAST_DUE})
  }

  /** How a matched webhook finds its payment in a sound ledger. */
  lemma Resolution(db: Db, w: Webhook)
    requires Inv(db) && Matched(db, w)
    ensures Resolve(db, w).Err? <==> Known(db, w) == {} && |Waiting(db, w)| != 1
    ensures Resolve(db, w).Ok? ==>
              var p := Resolve(db, w).value;
              && OwnPayment(db, db.invoices[w.invoice].tenant, p)
              && (Known(db, w) == {p} || (Known(db, w) == {} && Waiting(db, w) == {p}))
  {
    AtMostOneKnown(db, db.invoices[w.invoice].tenant, w.providerId);
    assert |Known(db, w)| == 0 ==> Known(db, w) == {};
    if Resolve(db, w).Ok? {
      if |Known(db, w)| == 1 {
        OnlyOne(Known(db, w), Resolve(db, w).value);
      } else {
        OnlyOne(Waiting(db, w), Resolve(db, w).value);
      }
    }
  }

  lemma SpentIff(db: Db, w: Webhook)
    requires Inv(db) && Matched(db, w)
    ensures Spent(db, w) <==> Resolve(db, w).Err? || Decided(db, Resolve(db, w).value)
  {
    Resolution(db, w);
    if Resolve(db, w).Ok? {
      assert Known(db, w) == {} || Resolve(db, w).value in Known(db, w);
    }
  }

  /** An open payment can always be confirmed under a provider id that no other payment has. */
  lemma ConfirmationSucceeds(db: Db, tenant: TenantId, p: PaymentId, providerId: string, now: Time)
    requires Inv(db) && OwnPayment(db, tenant, p) && db.payments[p].status.PENDING?
    requires !ProviderIdTaken(db, tenant, p, providerId)
    ensures Confirm(db, tenant, p, providerId, now).outcome.Ok?
  {
    assert PaymentInv(db, p) && InvoiceInv(db, db.payments[p].invoice);
    ConfirmNeverFailsHalfway(db, tenant, p, providerId, now);
  }

  lemma OpenDelivery(db: Db, w: Webhook, now: Time)
    requires Inv(db) && Matched(db, w) && Decisive(w)
    requires Resolve(db, w).Ok? && !Decided(db, Resolve(db, w).value)
    ensures Deliver(db, w, now) == db <==> FailureRefused(db, w)
    ensures !FailureRefused(db, w) ==>
              var p := Resolve(db, w).value;
              var after := Deliver(db, w, now);
              && Decided(after, p)
              && (Announces(w, Success) && w.providerId != "" ==> after.payments[p].providerId == Some(w.providerId))
              && (!Announces(w, Success) ==>
                    && after.payments == db.payments[p := db.payments[p].(status := FAILED)]
                    && after.invoices == db.invoices
                    && AccountOf(after, db.payments[p].tenant).sub.Some?
                    && AccountOf(after, db.payments[p].tenant).sub.value.status.PAST_DUE?)
  {
    Resolution(db, w);
    var p, tenant := Resolve(db, w).value, db.invoices[w.invoice].tenant;
    if Announces(w, Success) {
      forall q | q in db.payments && q != p ensures db.payments[q].tenant != tenant || db.payments[q].providerId != Some(w.providerId) {
        assert q !in Known(db, w);
      }
      ConfirmationSucceeds(db, tenant, p, w.providerId, now);
      FinalOf(db, Confirm(db, tenant, p, w.providerId, now));
      ConfirmedLedger(db, tenant, p, w.providerId, now);
      if w.providerId != "" {
        ConfirmationRecords(db, tenant, p, w.providerId, now);
      }
    } else {
      FailureIsAtomic(db, tenant, p, now);
    }
  }

  lemma ConfirmationRecords(db: Db, tenant: TenantId, p: PaymentId, providerId: string, now: Time)
    requires OwnPayment(db, tenant, p) && db.payments[p].status.PENDING? && providerId != ""
    requires Confirm(db, tenant, p, providerId, now).outcome.Ok?
    ensures p in Confirm(db, tenant, p, providerId, now).outcome.value.payments
    ensures Confirm(db, tenant, p, providerId, now).outcome.value.payments[p].providerId == Some(providerId)
  {
  }

  /** In every sound state: a decisive webhook changes nothing exactly when it is spent, or announces a failure that is refused. */
  lemma DeliveryIsIdleIff(db: Db, w: Webhook, now: Time)
    requires Inv(db) && Matched(db, w) && Decisive(w)
    ensures Deliver(db, w, now) == db <==> Spent(db, w) || FailureRefused(db, w)
  {
    SpentIff(db, w);
    if Resolve(db, w).Ok? {
      if Decided(db, Resolve(db, w).value) {
        DecidedDelivery(db, w, now, Resolve(db, w).value);
      } else {
        OpenDelivery(db, w, now);
      }
    }
  }

  lemma StillMatched(db: Db, after: Db, w: Webhook)
    requires Matched(db, w) && Continues(db, after)
    ensures Matched(after, w) && after.invoices[w.invoice].tenant == db.invoices[w.invoice].tenant
  {
    assert InvoiceContinues(db, after, w.invoice);
    assert Terms(after.invoices[w.invoice]) == Terms(db.invoices[w.invoice]);
  }

  /** So, whatever requests and crashes lie between two deliveries, the second is idle exactly under that condition. */
  lemma RedeliveryIsIdleIff(db: Db, w: Webhook, first: Time, events: seq<Event>, later: Time)
    requires Inv(db) && Matched(db, w) && Decisive(w) && ValidRun(Deliver(db, w, first), events)
    ensures var s := LedgerInvariants.Run(Deliver(db, w, first), events);
            && w.invoice in s.invoices
            && (Deliver(s, w, later) == s <==> Spent(s, w) || FailureRefused(s, w))
  {
    EventContinues(db, Event(WebhookOp(w, first), |Commits(HandleWebhook(db, w, first))|));
    RunContinues(Deliver(db, w, first), events);
    var s := LedgerInvariants.Run(Deliver(db, w, first), events);
    ContinuesOn(db, Deliver(db, w, first), s);
    StillMatched(db, s, w);
    DeliveryIsIdleIff(s, w, later);
  }

  /** Once its provider id is on a decided payment of the tenant, a webhook is idle for ever. */
  lemma RecordedIsIdleForEver(db: Db, w: Webhook, p: PaymentId, events: seq<Event>, later: Time)
    requires Inv(db) && Matched(db, w) && p in Known(db, w) && Decided(db, p) && ValidRun(db, events)
    ensures var s := LedgerInvariants.Run(db, events);
            Deliver(s, w, later) == s
  {
    RunContinues(db, events);
    var s := LedgerInvariants.Run(db, events);
    StillMatched(db, s, w);
    assert PaymentContinues(db, s, p);
    assert p in Known(s, w);
    Resolution(s, w);
    DecidedDelivery(s, w, later, p);
  }

  /** A success that was accepted under its own provider id is never processed again. */
  lemma AcceptedSuccessIsIdempotent(db: Db, w: Webhook, first: Time, events: seq<Event>, later: Time)
    requires Inv(db) && Matched(db, w) && Announces(w, Success) && w.providerId != "" && Resolve(db, w).Ok?
    requires ValidRun(Deliver(db, w, first), events)
    requires !Decided(db, Resolve(db, w).value)
    ensures var s := LedgerInvariants.Run(Deliver(db, w, first), events);
            Deliver(s, w, later) == s
  {
    var p := Resolve(db, w).value;
    Resolution(db, w);
    OpenDelivery(db, w, first);
    EventContinues(db, Event(WebhookOp(w, first), |Commits(HandleWebhook(db, w, first))|));
    StillMatched(db, Deliver(db, w, first), w);
    assert PaymentContinues(db, Deliver(db, w, first), p);
    RecordedIsIdleForEver(Deliver(db, w, first), w, p, events, later);
  }

  /**
    A failure does not record its provider id.  Announced under an id no payment has, and delivered
    again after a new payment was opened for the same invoice, it fails the new one too.
   */
  lemma FailureHitsTheNextPayment(db: Db, w: Webhook, first: Time, q: PaymentId, id: string, later: Time)
    requires Inv(db) && Matched(db, w) && Announces(w, Failure) && !Announces(w, Success)
    requires Known(db, w) == {} && |Waiting(db, w)| == 1 && !FailureRefused(db, w)
    requires q !in db.payments && id != w.providerId && (forall a :: 0 <= a < |db.approvals| ==> db.approvals[a].payment != q)
    requires !ProviderIdTaken(db, db.invoices[w.invoice].tenant, q, id)
    ensures w.invoice in Deliver(db, w, first).invoices
    ensures var reopened := Intent(Deliver(db, w, first), w, q, id);
            && reopened.outcome.Ok?
            && q in reopened.outcome.value.payments && reopened.outcome.value.payments[q].status.PENDING?
            && q in Deliver(reopened.outcome.value, w, later).payments
            && Deliver(reopened.outcome.value, w, later).payments[q].status.FAILED?
  {
    FirstFailure(db, w, first);
    ThenANewPayment(db, Deliver(db, w, first), Resolve(db, w).value, q, w, id);
    LaterFailure(Intent(Deliver(db, w, first), w, q, id).outcome.value, w, q, later);
  }

  /** A new payment `q` for the webhook's invoice, under provider id `id`. */
  function Intent(db: Db, w: Webhook, q: PaymentId, id: string): Effect
    requires w.invoice in db.invoices
  {
    CreateIntent(db, db.invoices[w.invoice].tenant, w.invoice, q, None, None, Created(id))
  }

  lemma ThenANewPayment(db: Db, failed: Db, p: PaymentId, q: PaymentId, w: Webhook, id: string)
    requires Inv(failed) && Matched(failed, w) && !FailureRefused(failed, w)
    requires w.invoice in db.invoices && failed.invoices == db.invoices && p in db.payments
    requires failed.payments == db.payments[p := db.payments[p].(status := FAILED)]
    requires Known(db, w) == {} && Waiting(db, w) == {p} && q !in db.payments && id != w.providerId
    requires forall a :: 0 <= a < |failed.approvals| ==> failed.approvals[a].payment != q
    requires !ProviderIdTaken(db, db.invoices[w.invoice].tenant, q, id)
    ensures Intent(failed, w, q, id).outcome.Ok?
    ensures var after := Intent(failed, w, q, id).outcome.value;
            && Inv(after) && Matched(after, w) && !FailureRefused(after, w)
            && Known(after, w) == {} && Waiting(after, w) == {q}
            && q in after.payments && after.payments[q].status.PENDING?
  {
    NextPaymentOpens(db, failed, p, q, db.invoices[w.invoice].tenant, w, id);
    CreateIntentKeepsInv(failed, db.invoices[w.invoice].tenant, w.invoice, q, None, None, Created(id));
  }

  lemma FirstFailure(db: Db, w: Webhook, now: Time)
    requires Inv(db) && Matched(db, w) && Announces(w, Failure) && !Announces(w, Success)
    requires Known(db, w) == {} && |Waiting(db, w)| == 1 && !FailureRefused(db, w)
    ensures Resolve(db, w).Ok? && Waiting(db, w) == {Resolve(db, w).value}
    ensures var p := Resolve(db, w).value;
            var failed := Deliver(db, w, now);
            && p in db.payments
            && Inv(failed) && Continues(db, failed) && failed.approvals == db.approvals && failed.invoices == db.invoices
            && failed.payments == db.payments[p := db.payments[p].(status := FAILED)]
            && !FailureRefused(failed, w)
  {
    Resolution(db, w);
    assert Resolve(db, w).value in Waiting(db, w);
    OpenDelivery(db, w, now);
    FailureKeepsApprovals(db, w, now);
    EventContinues(db, Event(WebhookOp(w, now), |Commits(HandleWebhook(db, w, now))|));
  }

  lemma LaterFailure(db: Db, w: Webhook, q: PaymentId, now: Time)
    requires Inv(db) && Matched(db, w) && Announces(w, Failure) && !Announces(w, Success)
    requires Known(db, w) == {} && Waiting(db, w) == {q} && !FailureRefused(db, w)
    ensures q in Deliver(db, w, now).payments && Deliver(db, w, now).payments[q].status.FAILED?
  {
    Resolution(db, w);
    assert q in Waiting(db, w);
    OpenDelivery(db, w, now);
  }

  lemma FailureKeepsApprovals(db: Db, w: Webhook, now: Time)
    requires Resolve(db, w).Ok? && !Announces(w, Success)
    ensures Deliver(db, w, now).approvals == db.approvals
  {
  }

  /** With `p` failed, a new payment `q` is the invoice's only open one, and still nobody has the webhook's id. */
  lemma NextPaymentOpens(db: Db, failed: Db, p: PaymentId, q: PaymentId, tenant: TenantId, w: Webhook, id: string)
    requires w.invoice in db.invoices && tenant == db.invoices[w.invoice].tenant && failed.invoices == db.invoices
    requires Known(db, w) == {} && Waiting(db, w) == {p} && q !in db.payments && id != w.providerId
    requires failed.payments == db.payments[p := db.payments[p].(status := FAILED)]
    requires !ProviderIdTaken(db, tenant, q, id)
    ensures var reopened := CreateIntent(failed, tenant, w.invoice, q, None, None, Created(id));
            && reopened.outcome.Ok?
            && reopened.saved == []
            && reopened.outcome.value == failed.(payments := reopened.outcome.value.payments)
            && q in reopened.outcome.value.payments && reopened.outcome.value.payments[q].status.PENDING?
            && reopened.outcome.value.invoices == db.invoices
            && Known(reopened.outcome.value, w) == {}
            && Waiting(reopened.outcome.value, w) == {q}
  {
    assert p in Waiting(db, w);
    forall r | r in db.payments && db.payments[r].tenant == tenant ensures db.payments[r].providerId != Some(w.providerId) {
      assert r !in Known(db, w);
    }
    forall r | r in db.payments && db.payments[r].tenant == tenant && db.payments[r].invoice == w.invoice
      ensures db.payments[r].status.PENDING? ==> r == p
    {
      assert r in Waiting(db, w) ==> r == p;
    }
    var reopened := CreateIntent(failed, tenant, w.invoice, q, None, None, Created(id));
    assert !ProviderIdTaken(failed, tenant, q, id);
  }
}
