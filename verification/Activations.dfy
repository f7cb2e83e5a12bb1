/** Which payment each activation by the provider was for. */
module Activations {
  import opened Results
  import opened BillingStates
  import opened Subscriptions
  import opened BillingDb
  import opened Ledger
  import opened LedgerInvariants
  import opened LedgerResults
  import opened LedgerRuns
  import opened Webhooks

  function ProviderRows(history: seq<HistoryRow>): nat {
    if history == [] then 0
    else ProviderRows(history[..|history| - 1]) + (if history[|history| - 1].actor.PAYMENT_PROVIDER? then 1 else 0)
  }

  /** The history rows of a tenant that the payment provider signed. */
  function RowsOf(db: Db, tenant: TenantId): nat {
    ProviderRows(AccountOf(db, tenant).history)
  }

  predicate IsLinked(db: Db, p: PaymentId) {
    && p in db.payments
    && db.payments[p].invoice in db.invoices
    && db.invoices[db.payments[p].invoice].subscription.Some?
  }

  /** A received payment of a subscription invoice. */
  predicate LinkedPaid(db: Db, p: PaymentId) {
    IsLinked(db, p) && Paid(db.payments[p].status)
  }

  // ----- The book -----

  /** The payment a request confirms, if it confirms one. */
  ghost function Confirmed(db: Db, op: Ledger.Op): Option<PaymentId> {
    match op
    case ConfirmOp(tenant, p, _, _) => if OwnPayment(db, tenant, p) then Some(p) else None
    case WebhookOp(w, _) => if Announces(w, Success) && Resolve(db, w).Ok? then Some(Resolve(db, w).value) else None
    case _ => None
  }

  /** One activation: whose, and for which payment. */
  datatype Entry = Entry(tenant: TenantId, payment: PaymentId)

  /** The entry of an event after which the tenant of the payment it confirms has one more row. */
  ghost function EntryOf(db: Db, e: Event): seq<Entry> {
    match Confirmed(db, e.op)
    case None => []
    case Some(p) =>
      if p in db.payments && RowsOf(After(db, e), db.payments[p].tenant) > RowsOf(db, db.payments[p].tenant)
      then [Entry(db.payments[p].tenant, p)] else []
  }

  /** One event of a run: the states around it, its entries, and whether all its commits went through. */
  datatype Link = Link(before: Db, after: Db, entries: seq<Entry>, uncut: bool)

  ghost function LinkOf(db: Db, e: Event): Link {
    Link(db, After(db, e), EntryOf(db, e), e.survived >= |Commits(Perform(db, e.op))|)
  }

  ghost function Chain(db: Db, events: seq<Event>): seq<Link>
    decreases |events|
  {
    if events == [] then [] else [LinkOf(db, events[0])] + Chain(After(db, events[0]), events[1..])
  }

  function BookOf(links: seq<Link>): seq<Entry> {
    if links == [] then [] else links[0].entries + BookOf(links[1..])
  }

  /** The activations of a run, in order. */
  ghost function Book(db: Db, events: seq<Event>): seq<Entry> {
    BookOf(Chain(db, events))
  }

  function CountFor(book: seq<Entry>, tenant: TenantId): nat {
    if book == [] then 0 else (if book[0].tenant == tenant then 1 else 0) + CountFor(book[1..], tenant)
  }

  predicate InBook(book: seq<Entry>, p: PaymentId) {
    exists k :: 0 <= k < |book| && book[k].payment == p
  }

  // ----- One event -----

  lemma {:induction false} ProviderRowsOfOne(history: seq<HistoryRow>, row: HistoryRow)
    ensures ProviderRows(history + [row]) == ProviderRows(history) + (if row.actor.PAYMENT_PROVIDER? then 1 else 0)
  {
    assert (history + [row])[..|history|] == history;
  }

  function SignedBy(op: Subscriptions.Op): Actor {
    match op
    case ActivateOp(_, _, _, actor, _, _) => actor
    case ChangePlanOp(_, _, actor, _) => actor
    case CancelOp(actor, _) => actor
    case _ => SYSTEM
  }

  /** Nobody but the confirmation signs as the payment provider. */
  predicate HonestActor(op: Ledger.Op) {
    op.SubscriptionOp? ==> !SignedBy(op.op).PAYMENT_PROVIDER?
  }

  lemma NewRowIsSigned(acc: Account, plans: Catalogue, op: Subscriptions.Op)
    requires Apply(acc, plans, op).Ok?
    ensures var after := Apply(acc, plans, op).value.history;
            after == acc.history || (exists row :: after == acc.history + [row] && row.actor == SignedBy(op))
  {
  }

  lemma SignedOpKeepsRows(acc: Account, plans: Catalogue, op: Subscriptions.Op)
    requires Apply(acc, plans, op).Ok? && !SignedBy(op).PAYMENT_PROVIDER?
    ensures ProviderRows(Apply(acc, plans, op).value.history) == ProviderRows(acc.history)
  {
    NewRowIsSigned(acc, plans, op);
    var after := Apply(acc, plans, op).value.history;
    if after != acc.history {
      var row :| after == acc.history + [row] && row.actor == SignedBy(op);
      ProviderRowsOfOne(acc.history, row);
    }
  }

  /** No row is written and no payment of a subscription is received. */
  ghost predicate Quiet(db: Db, after: Db) {
    && (forall t :: RowsOf(after, t) == RowsOf(db, t))
    && (forall p :: LinkedPaid(after, p) ==> LinkedPaid(db, p))
  }

  ghost predicate AllQuiet(db: Db, states: seq<Db>) {
    forall k :: 0 <= k < |states| ==> Quiet(db, states[k])
  }

  lemma FailureIsQuiet(db: Db, tenant: TenantId, p: PaymentId, now: Time)
    ensures AllQuiet(db, Commits(RecordFailure(db, tenant, p, now)))
  {
    if OwnPayment(db, tenant, p) && !db.payments[p].status.FAILED? && RecordFailure(db, tenant, p, now).outcome.Ok? {
      FailureShape(db, tenant, p, now);
      SignedOpKeepsRows(AccountOf(MarkFailed(db, p), tenant), db.plans, DunOp(0, now));
    }
  }

  lemma SubscriptionIsQuiet(db: Db, tenant: TenantId, op: Subscriptions.Op)
    requires !SignedBy(op).PAYMENT_PROVIDER? && Apply(AccountOf(db, tenant), db.plans, op).Ok?
    ensures Quiet(db, WithAccount(db, tenant, Apply(AccountOf(db, tenant), db.plans, op).value))
  {
    SignedOpKeepsRows(AccountOf(db, tenant), db.plans, op);
  }

  lemma RefundIsQuiet(db: Db, tenant: TenantId, a: ApprovalId, reply: RefundReply)
    requires forall p :: p in db.payments ==> PaymentInv(db, p)
    ensures AllQuiet(db, Commits(ExecuteRefund(db, tenant, a, reply)))
  {
    var states := Commits(ExecuteRefund(db, tenant, a, reply));
    forall k | 0 <= k < |states| ensures Quiet(db, states[k]) {
      RefundCommits(db, tenant, a, reply, k);
      if states[k].payments != db.payments {
        RefundShape(db, a);
      }
    }
  }

  lemma InvoiceIsQuiet(db: Db, i: InvoiceId, invoice: Invoice)
    requires forall p :: p in db.payments ==> db.payments[p].invoice != i
    ensures AllQuiet(db, Commits(CreateInvoice(db, i, invoice)))
  {
  }

  lemma CancelIsQuiet(db: Db, tenant: TenantId, p: PaymentId, confirmed: bool)
    ensures AllQuiet(db, Commits(CancelPayment(db, tenant, p, confirmed)))
  {
  }

  lemma IntentIsQuiet(db: Db, op: Ledger.Op)
    requires op.CreateIntentOp? && op.p !in db.payments && Perform(db, op).outcome.Ok?
    ensures Quiet(db, Perform(db, op).outcome.value)
  {
    var after := Perform(db, op).outcome.value;
    assert after == db.(payments := db.payments[op.p := after.payments[op.p]]);
  }

  /** Requests that commit once, at the end. */
  lemma SingleWriteIsQuiet(db: Db, op: Ledger.Op)
    requires OpOk(db, op) && HonestActor(op) && Perform(db, op).outcome.Ok?
    requires op.CreateIntentOp? || op.RequestRefundOp? || op.DecideOp? || op.SubscriptionOp?
    ensures Quiet(db, Perform(db, op).outcome.value)
  {
    if op.CreateIntentOp? {
      IntentIsQuiet(db, op);
    } else if op.SubscriptionOp? {
      SubscriptionIsQuiet(db, op.tenant, op.op);
    } else {
      var after := Perform(db, op).outcome.value;
      assert after == db.(approvals := after.approvals);
    }
  }

  lemma WebhookIsQuiet(db: Db, w: Webhook, now: Time)
    requires Resolve(db, w).Err? || !Announces(w, Success)
    ensures AllQuiet(db, Commits(HandleWebhook(db, w, now)))
  {
    if Resolve(db, w).Ok? {
      FailureIsQuiet(db, db.invoices[w.invoice].tenant, Resolve(db, w).value, now);
    }
  }

  /** Requests that confirm nothing. */
  lemma OtherIsQuiet(db: Db, op: Ledger.Op)
    requires Inv(db) && OpOk(db, op) && HonestActor(op) && Confirmed(db, op).None?
    ensures AllQuiet(db, Commits(Perform(db, op)))
  {
    match op
    case CreateInvoiceOp(i, invoice) => InvoiceIsQuiet(db, i, invoice);
    case ConfirmOp(_, _, _, _) =>
    case FailureOp(tenant, p, now) => FailureIsQuiet(db, tenant, p, now);
    case WebhookOp(w, now) => WebhookIsQuiet(db, w, now);
    case ExecuteRefundOp(tenant, a, reply) => RefundIsQuiet(db, tenant, a, reply);
    case CancelOp(tenant, p, confirmed) => CancelIsQuiet(db, tenant, p, confirmed);
    case _ =>
      assert Perform(db, op).saved == [];
      if Perform(db, op).outcome.Ok? {
        SingleWriteIsQuiet(db, op);
      }
  }

  /** The first half of a confirmation receives `p` and writes no row; the whole also writes one, if `p` pays for a subscription. */
  lemma ConfirmWrites(db: Db, tenant: TenantId, p: PaymentId, providerId: string, now: Time)
    requires OwnPayment(db, tenant, p) && db.payments[p].status.PENDING?
    requires Confirm(db, tenant, p, providerId, now).outcome.Ok?
    ensures var e := Confirm(db, tenant, p, providerId, now);
            && |e.saved| == 1
            && (forall t :: RowsOf(e.saved[0], t) == RowsOf(db, t))
            && (forall t :: RowsOf(e.outcome.value, t) == RowsOf(db, t) + if t == tenant && IsLinked(db, p) then 1 else 0)
            && (forall q :: LinkedPaid(e.saved[0], q) ==> LinkedPaid(db, q) || (q == p && IsLinked(db, p)))
            && (forall q :: LinkedPaid(e.outcome.value, q) ==> LinkedPaid(db, q) || (q == p && IsLinked(db, p)))
            && p in e.saved[0].payments && e.saved[0].payments[p].status.SUCCEEDED?
            && p in e.outcome.value.payments && e.outcome.value.payments[p].status.SUCCEEDED?
            && (IsLinked(db, p) ==> LinkedPaid(e.saved[0], p) && LinkedPaid(e.outcome.value, p))
  {
    FirstHalfShape(db, tenant, p, providerId);
    ConfirmedLedger(db, tenant, p, providerId, now);
    var after := Confirm(db, tenant, p, providerId, now).outcome.value;
    if IsLinked(db, p) {
      ProviderRowsOfOne(AccountOf(db, tenant).history, AccountOf(after, tenant).history[|AccountOf(db, tenant).history|]);
    }
  }

  lemma ConfirmCommits(db: Db, tenant: TenantId, p: PaymentId, providerId: string, now: Time)
    requires Inv(db) && OwnPayment(db, tenant, p)
    ensures var e := Confirm(db, tenant, p, providerId, now);
            Commits(e) == [] || Commits(e) == [db] ||
            (db.payments[p].status.PENDING? && e.outcome.Ok? && |e.saved| == 1 && Commits(e) == [e.saved[0], e.outcome.value])
  {
    ConfirmNeverFailsHalfway(db, tenant, p, providerId, now);
    if Confirm(db, tenant, p, providerId, now).saved != [] {
      FirstHalfShape(db, tenant, p, providerId);
    }
  }

  /** All that one event can do to rows and received payments: at most one entry, for an open payment of a subscription. */
  predicate Entered(db: Db, after: Db, entries: seq<Entry>) {
    entries == [] ||
    (|entries| == 1 &&
     var Entry(tenant, p) := entries[0];
     IsLinked(db, p) && db.payments[p].tenant == tenant && !Decided(db, p) && Decided(after, p))
  }

  ghost predicate Accounted(db: Db, after: Db, entries: seq<Entry>, uncut: bool) {
    && Entered(db, after, entries)
    && (forall t :: RowsOf(after, t) == RowsOf(db, t) + CountFor(entries, t))
    && (uncut ==> forall p :: LinkedPaid(after, p) ==> LinkedPaid(db, p) || InBook(entries, p))
  }

  lemma QuietEntry(db: Db, e: Event, uncut: bool)
    requires Quiet(db, After(db, e))
    ensures Accounted(db, After(db, e), EntryOf(db, e), uncut)
  {
  }

  /** The entry for a state in which `tenant` has one more row than before. */
  function NewEntry(db: Db, after: Db, tenant: TenantId, p: PaymentId): seq<Entry> {
    if RowsOf(after, tenant) > RowsOf(db, tenant) then [Entry(tenant, p)] else []
  }

  lemma NothingAccounted(db: Db, tenant: TenantId, p: PaymentId)
    ensures Accounted(db, db, NewEntry(db, db, tenant, p), true)
  {
  }

  lemma ReceivedAccounted(db: Db, mid: Db, tenant: TenantId, p: PaymentId)
    requires forall t :: RowsOf(mid, t) == RowsOf(db, t)
    ensures Accounted(db, mid, NewEntry(db, mid, tenant, p), false)
  {
  }

  lemma ActivatedAccounted(db: Db, after: Db, tenant: TenantId, p: PaymentId)
    requires p in db.payments && db.payments[p].tenant == tenant && !Decided(db, p) && Decided(after, p)
    requires forall t :: RowsOf(after, t) == RowsOf(db, t) + if t == tenant && IsLinked(db, p) then 1 else 0
    requires forall q :: LinkedPaid(after, q) ==> LinkedPaid(db, q) || (q == p && IsLinked(db, p))
    ensures Accounted(db, after, NewEntry(db, after, tenant, p), true)
  {
    var entries := NewEntry(db, after, tenant, p);
    if IsLinked(db, p) {
      assert entries == [Entry(tenant, p)] && entries[0].payment == p && entries[1..] == [];
    }
  }

  lemma ConfirmationAccounted(db: Db, tenant: TenantId, p: PaymentId, providerId: string, now: Time, n: nat)
    requires Inv(db) && OwnPayment(db, tenant, p)
    ensures var commits := Commits(Confirm(db, tenant, p, providerId, now));
            var after := Latest(db, commits, n);
            Accounted(db, after, NewEntry(db, after, tenant, p), n >= |commits|)
  {
    var e := Confirm(db, tenant, p, providerId, now);
    ConfirmCommits(db, tenant, p, providerId, now);
    if |Commits(e)| < 2 {
      NothingAccounted(db, tenant, p);
    } else {
      ConfirmWrites(db, tenant, p, providerId, now);
      if n == 0 {
        NothingAccounted(db, tenant, p);
      } else if n == 1 {
        ReceivedAccounted(db, e.saved[0], tenant, p);
      } else {
        ActivatedAccounted(db, e.outcome.value, tenant, p);
      }
    }
  }

  /** A request that is the confirmation of `p` by its tenant. */
  lemma ConfirmationEntry(db: Db, e: Event, tenant: TenantId, p: PaymentId, providerId: string, now: Time)
    requires Inv(db) && OwnPayment(db, tenant, p) && Confirmed(db, e.op) == Some(p)
    requires Perform(db, e.op) == Confirm(db, tenant, p, providerId, now)
    ensures Accounted(db, After(db, e), EntryOf(db, e), e.survived >= |Commits(Perform(db, e.op))|)
  {
    ConfirmationAccounted(db, tenant, p, providerId, now, e.survived);
    assert EntryOf(db, e) == NewEntry(db, After(db, e), tenant, p);
  }

  lemma EventEntry(db: Db, e: Event)
    requires Inv(db) && OpOk(db, e.op) && HonestActor(e.op)
    ensures Accounted(db, After(db, e), EntryOf(db, e), e.survived >= |Commits(Perform(db, e.op))|)
  {
    if Confirmed(db, e.op).None? {
      OtherIsQuiet(db, e.op);
      QuietEntry(db, e, true);
    } else {
      match e.op
      case ConfirmOp(tenant, p, providerId, now) => ConfirmationEntry(db, e, tenant, p, providerId, now);
      case WebhookOp(w, now) =>
        ResolvedIsOwn(db, w);
        ConfirmationEntry(db, e, db.invoices[w.invoice].tenant, Resolve(db, w).value, w.providerId, now);
    }
  }

  // ----- Whole runs -----

  ghost predicate AllHonest(events: seq<Event>) {
    forall k :: 0 <= k < |events| ==> HonestActor(events[k].op)
  }

  /** No request is cut short. */
  ghost predicate Uncut(db: Db, events: seq<Event>)
    decreases |events|
  {
    events == [] || (events[0].survived >= |Commits(Perform(db, events[0].op))| && Uncut(After(db, events[0]), events[1..]))
  }

  lemma {:induction false} CountAppend(a: seq<Entry>, b: seq<Entry>, t: TenantId)
    ensures CountFor(a + b, t) == CountFor(a, t) + CountFor(b, t)
  {
    if a == [] {
      assert a + b == b;
    } else {
      assert (a + b)[1..] == a[1..] + b;
      CountAppend(a[1..], b, t);
    }
  }

  lemma InBookAppend(a: seq<Entry>, b: seq<Entry>, p: PaymentId)
    ensures InBook(a + b, p) <==> InBook(a, p) || InBook(b, p)
  {
    if InBook(a, p) {
      var k :| 0 <= k < |a| && a[k].payment == p;
      assert (a + b)[k].payment == p;
    }
    if InBook(b, p) {
      var k :| 0 <= k < |b| && b[k].payment == p;
      assert (a + b)[|a| + k].payment == p;
    }
    if InBook(a + b, p) {
      var k :| 0 <= k < |a + b| && (a + b)[k].payment == p;
      assert (a + b)[k] == if k < |a| then a[k] else b[k - |a|];
    }
  }

  ghost predicate IsSound(link: Link) {
    Continues(link.before, link.after) && Accounted(link.before, link.after, link.entries, link.uncut)
  }

  /** The links join up from `db` to `end`. */
  ghost predicate Leads(db: Db, links: seq<Link>, end: Db)
    decreases |links|
  {
    if links == [] then db == end
    else links[0].before == db && IsSound(links[0]) && Leads(links[0].after, links[1..], end)
  }

  lemma {:induction false} ChainLeads(db: Db, events: seq<Event>)
    requires Inv(db) && ValidRun(db, events) && AllHonest(events)
    ensures Leads(db, Chain(db, events), LedgerInvariants.Run(db, events))
    decreases |events|
  {
    if events != [] {
      EventEntry(db, events[0]);
      EventContinues(db, events[0]);
      ChainLeads(After(db, events[0]), events[1..]);
      assert Chain(db, events)[1..] == Chain(After(db, events[0]), events[1..]);
    }
  }

  predicate AllUncut(links: seq<Link>) {
    forall k :: 0 <= k < |links| ==> links[k].uncut
  }

  lemma {:induction false} UncutChain(db: Db, events: seq<Event>)
    requires Uncut(db, events)
    ensures AllUncut(Chain(db, events))
    decreases |events|
  {
    if events != [] {
      UncutChain(After(db, events[0]), events[1..]);
    }
  }

  /** Every row is accounted for by an entry of its tenant. */
  lemma {:induction false} RowsCounted(db: Db, links: seq<Link>, end: Db, t: TenantId)
    requires Leads(db, links, end)
    ensures RowsOf(end, t) == RowsOf(db, t) + CountFor(BookOf(links), t)
    decreases |links|
  {
    if links != [] {
      RowsCounted(links[0].after, links[1..], end, t);
      CountAppend(links[0].entries, BookOf(links[1..]), t);
    }
  }

  /** If nothing is cut short, every received payment of a subscription has an entry. */
  lemma {:induction false} ReceivedAreEntered(db: Db, links: seq<Link>, end: Db, p: PaymentId)
    requires Leads(db, links, end) && AllUncut(links) && LinkedPaid(end, p)
    ensures LinkedPaid(db, p) || InBook(BookOf(links), p)
    decreases |links|
  {
    if links != [] {
      assert links[0].uncut && AllUncut(links[1..]);
      ReceivedAreEntered(links[0].after, links[1..], end, p);
      InBookAppend(links[0].entries, BookOf(links[1..]), p);
    }
  }

  lemma {:induction false} LeadsOn(db: Db, links: seq<Link>, end: Db)
    requires Leads(db, links, end)
    ensures Continues(db, end)
    decreases |links|
  {
    if links != [] {
      LeadsOn(links[0].after, links[1..], end);
      ContinuesOn(db, links[0].after, end);
    }
  }

  /** An entry is for a payment that was not decided when the run began and is decided when it ends. */
  predicate EntryStands(db: Db, end: Db, entry: Entry) {
    && !Decided(db, entry.payment)
    && Decided(end, entry.payment)
    && IsLinked(end, entry.payment)
    && end.payments[entry.payment].tenant == entry.tenant
  }

  lemma NewEntryStands(db: Db, after: Db, end: Db, entry: Entry)
    requires Continues(db, after) && Continues(after, end) && Entered(db, after, [entry])
    ensures EntryStands(db, end, entry)
  {
    assert [entry][0] == entry;
    var p := entry.payment;
    assert PaymentContinues(db, after, p) && PaymentContinues(after, end, p);
    assert InvoiceContinues(db, after, db.payments[p].invoice) && InvoiceContinues(after, end, db.payments[p].invoice);
    assert Terms(end.invoices[db.payments[p].invoice]) == Terms(db.invoices[db.payments[p].invoice]);
  }

  lemma LaterEntryStands(db: Db, after: Db, end: Db, entry: Entry)
    requires Continues(db, after) && EntryStands(after, end, entry)
    ensures EntryStands(db, end, entry)
  {
    assert entry.payment in db.payments ==> PaymentContinues(db, after, entry.payment);
  }

  lemma {:induction false} EntriesStand(db: Db, links: seq<Link>, end: Db, k: nat)
    requires Leads(db, links, end) && k < |BookOf(links)|
    ensures EntryStands(db, end, BookOf(links)[k])
    decreases |links|
  {
    var after, first := links[0].after, links[0].entries;
    if k < |first| {
      LeadsOn(after, links[1..], end);
      assert first == [first[0]];
      NewEntryStands(db, after, end, first[0]);
    } else {
      EntriesStand(after, links[1..], end, k - |first|);
      LaterEntryStands(db, after, end, BookOf(links)[k]);
    }
  }

  lemma {:induction false} EntriesDiffer(db: Db, links: seq<Link>, end: Db, j: nat, k: nat)
    requires Leads(db, links, end) && j < k < |BookOf(links)|
    ensures BookOf(links)[j].payment != BookOf(links)[k].payment
    decreases |links|
  {
    var after, first := links[0].after, links[0].entries;
    if j < |first| {
      EntriesStand(after, links[1..], end, k - |first|);
    } else {
      EntriesDiffer(after, links[1..], end, j - |first|, k - |first|);
    }
  }

  /**
    From empty tables, on any run with crashes, refunds and cancellations: each row the provider signed is
    for a payment of that tenant's subscription invoices, and no two are for the same payment.  If no
    request is cut short, every received payment of a subscription invoice has its row.
   */
  lemma OneActivationPerPayment(plans: Catalogue, events: seq<Event>)
    requires ValidRun(EmptyTables(plans), events) && AllHonest(events)
    ensures var book, end := Book(EmptyTables(plans), events), LedgerInvariants.Run(EmptyTables(plans), events);
            && (forall t :: RowsOf(end, t) == CountFor(book, t))
            && (forall j, k :: 0 <= j < k < |book| ==> book[j].payment != book[k].payment)
            && (forall k :: 0 <= k < |book| ==>
                  && Decided(end, book[k].payment)
                  && IsLinked(end, book[k].payment)
                  && end.payments[book[k].payment].tenant == book[k].tenant)
            && (Uncut(EmptyTables(plans), events) ==> forall p :: LinkedPaid(end, p) ==> InBook(book, p))
  {
    var empty, end := EmptyTables(plans), LedgerInvariants.Run(EmptyTables(plans), events);
    var links := Chain(empty, events);
    ChainLeads(empty, events);
    forall t ensures RowsOf(end, t) == CountFor(BookOf(links), t) {
      RowsCounted(empty, links, end, t);
    }
    forall k | 0 <= k < |BookOf(links)| ensures EntryStands(empty, end, BookOf(links)[k]) {
      EntriesStand(empty, links, end, k);
    }
    forall j, k | 0 <= j < k < |BookOf(links)| ensures BookOf(links)[j].payment != BookOf(links)[k].payment {
      EntriesDiffer(empty, links, end, j, k);
    }
    if Uncut(empty, events) {
      UncutChain(empty, events);
      forall p | LinkedPaid(end, p) ensures InBook(BookOf(links), p) {
        ReceivedAreEntered(empty, links, end, p);
      }
    }
  }

  // ----- Exactly which received payments have no activation -----

  /** The event confirms `p`, open and of a subscription, with a commit in the middle and one at the end. */
  ghost predicate ConfirmsInTwo(db: Db, e: Event, p: PaymentId) {
    IsLinked(db, p) && Confirmed(db, e.op) == Some(p) && |Commits(Perform(db, e.op))| == 2
  }

  /** It was cut short after the first of its two commits. */
  ghost predicate CutInTheMiddle(db: Db, e: Event, p: PaymentId) {
    ConfirmsInTwo(db, e, p) && e.survived == 1
  }

  ghost predicate SomeoneCutInTheMiddle(db: Db, events: seq<Event>, p: PaymentId)
    decreases |events|
  {
    events != [] && (CutInTheMiddle(db, events[0], p) || SomeoneCutInTheMiddle(After(db, events[0]), events[1..], p))
  }

  /** What one event does to one payment: receives it with an entry, receives it without one, or neither. */
  predicate Recorded(db: Db, after: Db, entries: seq<Entry>, p: PaymentId, confirms: bool, survived: nat) {
    if confirms && survived > 0 then !Decided(db, p) && LinkedPaid(after, p) && (InBook(entries, p) <==> survived > 1)
    else !InBook(entries, p) && (LinkedPaid(after, p) ==> LinkedPaid(db, p))
  }

  lemma NothingRecorded(db: Db, tenant: TenantId, q: PaymentId, p: PaymentId, confirms: bool)
    ensures Recorded(db, db, NewEntry(db, db, tenant, q), p, confirms, 0)
    ensures !confirms ==> forall n :: Recorded(db, db, NewEntry(db, db, tenant, q), p, confirms, n)
  {
  }

  lemma ReceptionRecorded(db: Db, after: Db, tenant: TenantId, q: PaymentId, p: PaymentId, n: nat)
    requires !Decided(db, q) && n > 0
    requires forall t :: RowsOf(after, t) == RowsOf(db, t) + if n > 1 && t == tenant && IsLinked(db, q) then 1 else 0
    requires forall r :: LinkedPaid(after, r) ==> LinkedPaid(db, r) || (r == q && IsLinked(db, q))
    requires IsLinked(db, q) ==> LinkedPaid(after, q)
    ensures Recorded(db, after, NewEntry(db, after, tenant, q), p, p == q && IsLinked(db, q), n)
  {
    var entries := NewEntry(db, after, tenant, q);
    assert RowsOf(after, tenant) == RowsOf(db, tenant) + if n > 1 && IsLinked(db, q) then 1 else 0;
    assert entries != [] ==> entries[0].payment == q;
  }

  lemma ConfirmationRecorded(db: Db, tenant: TenantId, q: PaymentId, providerId: string, now: Time, n: nat, p: PaymentId)
    requires Inv(db) && OwnPayment(db, tenant, q)
    ensures var commits := Commits(Confirm(db, tenant, q, providerId, now));
            var after := Latest(db, commits, n);
            Recorded(db, after, NewEntry(db, after, tenant, q), p, p == q && IsLinked(db, q) && |commits| == 2, n)
  {
    var e := Confirm(db, tenant, q, providerId, now);
    ConfirmCommits(db, tenant, q, providerId, now);
    if |Commits(e)| < 2 {
      NothingRecorded(db, tenant, q, p, false);
    } else if n == 0 {
      NothingRecorded(db, tenant, q, p, p == q && IsLinked(db, q));
    } else {
      ConfirmWrites(db, tenant, q, providerId, now);
      if n == 1 {
        ReceptionRecorded(db, e.saved[0], tenant, q, p, n);
      } else {
        ReceptionRecorded(db, e.outcome.value, tenant, q, p, n);
      }
    }
  }

  ghost predicate EventRecorded(db: Db, e: Event, p: PaymentId) {
    Recorded(db, After(db, e), EntryOf(db, e), p, ConfirmsInTwo(db, e, p), e.survived)
  }

  lemma ConfirmingEvent(db: Db, e: Event, tenant: TenantId, q: PaymentId, providerId: string, now: Time, p: PaymentId)
    requires Inv(db) && OwnPayment(db, tenant, q) && Confirmed(db, e.op) == Some(q)
    requires Perform(db, e.op) == Confirm(db, tenant, q, providerId, now)
    ensures EventRecorded(db, e, p)
  {
    ConfirmationRecorded(db, tenant, q, providerId, now, e.survived, p);
    assert EntryOf(db, e) == NewEntry(db, After(db, e), tenant, q);
  }

  lemma EveryEventRecorded(db: Db, e: Event, p: PaymentId)
    requires Inv(db) && OpOk(db, e.op) && HonestActor(e.op)
    ensures EventRecorded(db, e, p)
  {
    if Confirmed(db, e.op).None? {
      OtherIsQuiet(db, e.op);
      assert Quiet(db, After(db, e));
    } else {
      match e.op
      case ConfirmOp(tenant, q, providerId, now) => ConfirmingEvent(db, e, tenant, q, providerId, now, p);
      case WebhookOp(w, now) =>
        ResolvedIsOwn(db, w);
        ConfirmingEvent(db, e, db.invoices[w.invoice].tenant, Resolve(db, w).value, w.providerId, now, p);
    }
  }

  ghost predicate SoundRun(db: Db, events: seq<Event>) {
    Inv(db) && ValidRun(db, events) && AllHonest(events)
  }

  /** The first event of a run and what is left of it. */
  lemma FirstEvent(db: Db, events: seq<Event>, p: PaymentId)
    requires SoundRun(db, events) && events != []
    ensures SoundRun(After(db, events[0]), events[1..]) && EventRecorded(db, events[0], p)
    ensures Decided(db, p) ==> Decided(After(db, events[0]), p)
    ensures InBook(Book(db, events), p) <==>
            InBook(EntryOf(db, events[0]), p) || InBook(Book(After(db, events[0]), events[1..]), p)
  {
    var after := After(db, events[0]);
    EveryEventRecorded(db, events[0], p);
    EventContinues(db, events[0]);
    assert Decided(db, p) ==> PaymentContinues(db, after, p);
    assert Chain(db, events)[1..] == Chain(after, events[1..]);
    InBookAppend(EntryOf(db, events[0]), Book(after, events[1..]), p);
  }

  /** A decided payment gets no entry, is not confirmed again, and is not received if it was not. */
  lemma {:induction false} DecidedIsDone(db: Db, events: seq<Event>, p: PaymentId)
    requires SoundRun(db, events) && Decided(db, p)
    ensures !InBook(Book(db, events), p) && !SomeoneCutInTheMiddle(db, events, p)
    ensures LinkedPaid(LedgerInvariants.Run(db, events), p) ==> LinkedPaid(db, p)
    decreases |events|
  {
    if events != [] {
      FirstEvent(db, events, p);
      DecidedIsDone(After(db, events[0]), events[1..], p);
    }
  }

  /** The event that decides a payment, when that ends up received. */
  lemma DecidedNow(db: Db, events: seq<Event>, p: PaymentId)
    requires SoundRun(db, events) && events != [] && !Decided(db, p) && Decided(After(db, events[0]), p)
    requires LinkedPaid(LedgerInvariants.Run(db, events), p)
    ensures !InBook(Book(db, events), p) <==> CutInTheMiddle(db, events[0], p)
    ensures !SomeoneCutInTheMiddle(After(db, events[0]), events[1..], p)
  {
    FirstEvent(db, events, p);
    DecidedIsDone(After(db, events[0]), events[1..], p);
  }

  lemma {:induction false} LostIffCut(db: Db, events: seq<Event>, p: PaymentId)
    requires SoundRun(db, events) && !Decided(db, p)
    requires LinkedPaid(LedgerInvariants.Run(db, events), p)
    ensures !InBook(Book(db, events), p) <==> SomeoneCutInTheMiddle(db, events, p)
    decreases |events|
  {
    if events == [] {
      assert false;
    } else if Decided(After(db, events[0]), p) {
      DecidedNow(db, events, p);
    } else {
      FirstEvent(db, events, p);
      LostIffCut(After(db, events[0]), events[1..], p);
    }
  }

  /**
    From empty tables, on any run: a received payment of a subscription invoice has no activation if and
    only if the request that confirmed it was cut short between its two commits.
   */
  lemma ActivationLostIff(plans: Catalogue, events: seq<Event>, p: PaymentId)
    requires ValidRun(EmptyTables(plans), events) && AllHonest(events)
    requires LinkedPaid(LedgerInvariants.Run(EmptyTables(plans), events), p)
    ensures !InBook(Book(EmptyTables(plans), events), p) <==> SomeoneCutInTheMiddle(EmptyTables(plans), events, p)
  {
    LostIffCut(EmptyTables(plans), events, p);
  }
}
