/**
  Order transactions running side by side.

  Each transaction locks the product rows of its items one at a time, in the order in which the
  items are listed, and keeps every lock until it commits or rolls back.
 */
module OrderLocking {
  import opened Results
  import opened Orders

  type TxId = nat

  datatype Phase = Running | Committed | RolledBack
  datatype Tx = Tx(request: Request, next: nat, draft: Draft, phase: Phase)

  /** `log` lists the committed requests in commit order. */
  datatype System = System(store: Store, locks: map<ProductId, TxId>, txs: map<TxId, Tx>, log: seq<Request>)

  datatype Step =
    | Begin(t: TxId, request: Request)
    | Take(t: TxId)
    | Commit(t: TxId)
    | Abort(t: TxId)

  /** The existence checks made before the transaction takes its first lock. */
  predicate Admissible(store: Store, r: Request) {
    && r.customer in store.customers
    && store.customers[r.customer] == r.tenant
    && forall i :: 0 <= i < |r.items| ==> Found(store.products, r.tenant, r.items[i].product)
  }

  predicate IsRunning(s: System, t: TxId) {
    t in s.txs && s.txs[t].phase.Running?
  }

  /** `t` has an item left, and another transaction holds the lock on its row. */
  predicate Waits(s: System, t: TxId) {
    && IsRunning(s, t)
    && var tx := s.txs[t];
    && tx.next < |tx.request.items|
    && var item := tx.request.items[tx.next];
    && item.quantity > 0
    && Found(s.store.products, tx.request.tenant, item.product)
    && item.product in s.locks
    && s.locks[item.product] != t
  }

  predicate Enabled(s: System, step: Step) {
    match step
    case Begin(t, r) => t !in s.txs && Admissible(s.store, r)
    case Take(t) => IsRunning(s, t) && s.txs[t].next < |s.txs[t].request.items| && !Waits(s, t)
    case Commit(t) => IsRunning(s, t) && s.txs[t].next == |s.txs[t].request.items|
    case Abort(t) => IsRunning(s, t)
  }

  function Released(locks: map<ProductId, TxId>, t: TxId): map<ProductId, TxId> {
    map p | p in locks && locks[p] != t :: locks[p]
  }

  function Ended(s: System, t: TxId, phase: Phase): System
    requires t in s.txs
  {
    s.(locks := Released(s.locks, t), txs := s.txs[t := s.txs[t].(phase := phase)])
  }

  function Apply(s: System, step: Step): System
    requires Enabled(s, step)
  {
    match step
    case Begin(t, r) => s.(txs := s.txs[t := Tx(r, 0, EMPTY_DRAFT, Running)])
    case Take(t) =>
      var tx := s.txs[t];
      var item := tx.request.items[tx.next];
      (match TakeItem(s.store.products, tx.request.tenant, true, tx.draft, item)
       case Err(_) => Ended(s, t, RolledBack)
       case Ok(draft) => s.(locks := s.locks[item.product := t],
                            txs := s.txs[t := tx.(next := tx.next + 1, draft := draft)]))
    case Commit(t) =>
      var tx := s.txs[t];
      Ended(s, t, Committed).(store := Flushed(s.store, OrderOf(tx.request, OrderCreated, tx.draft), tx.draft),
                              log := s.log + [tx.request])
    case Abort(t) => Ended(s, t, RolledBack)
  }

  function Start(store: Store): System {
    System(store, map[], map[], [])
  }

  predicate ValidRun(s: System, steps: seq<Step>)
    decreases |steps|
  {
    steps == [] || (Enabled(s, steps[0]) && ValidRun(Apply(s, steps[0]), steps[1..]))
  }

  function Run(s: System, steps: seq<Step>): System
    requires ValidRun(s, steps)
    decreases |steps|
  {
    if steps == [] then s else Run(Apply(s, steps[0]), steps[1..])
  }

  // ----- The reference: one request after another -----

  /** Submits the requests one at a time; None if any of them is refused. */
  function Serial(store: Store, requests: seq<Request>): Option<Store> {
    if requests == [] then Some(store)
    else
      match Serial(store, requests[..|requests| - 1])
      case None => None
      case Some(before) =>
        var (after, reply) := Submit(before, requests[|requests| - 1]);
        if reply.Ok? then Some(after) else None
  }

  // ----- The invariant -----

  predicate TxInv(s: System, t: TxId)
    requires t in s.txs
  {
    var tx := s.txs[t];
    tx.phase.Running? ==>
      && tx.next <= |tx.request.items|
      && Admissible(s.store, tx.request)
      && TakeItems(s.store.products, tx.request.tenant, true, tx.request.items[..tx.next]) == Ok(tx.draft)
      && forall i :: 0 <= i < tx.next ==> tx.request.items[i].product in s.locks && s.locks[tx.request.items[i].product] == t
  }

  predicate LockInv(s: System, p: ProductId)
    requires p in s.locks
  {
    && IsRunning(s, s.locks[p])
    && var tx := s.txs[s.locks[p]];
    && tx.next <= |tx.request.items|
    && Mentions(tx.request.items[..tx.next], p)
  }

  predicate Inv(initial: Store, s: System) {
    && Serial(initial, s.log) == Some(s.store)
    && (forall t :: t in s.txs ==> TxInv(s, t))
    && (forall p :: p in s.locks ==> LockInv(s, p))
  }

  /** What a transaction has computed depends only on the rows it has locked. */
  lemma {:induction false} OnlyLockedRowsMatter(rows: Products, rows': Products, tenant: TenantId, items: seq<Item>)
    requires forall i :: 0 <= i < |items| ==> items[i].product in rows && items[i].product in rows'
    requires forall i :: 0 <= i < |items| ==> rows[items[i].product] == rows'[items[i].product]
    ensures TakeItems(rows, tenant, true, items) == TakeItems(rows', tenant, true, items)
  {
    if items != [] {
      var n := |items| - 1;
      assert forall i :: 0 <= i < n ==> items[..n][i] == items[i];
      OnlyLockedRowsMatter(rows, rows', tenant, items[..n]);
    }
  }

  lemma ExtendedPrefix(items: seq<Item>, n: nat)
    requires n < |items|
    ensures items[..n + 1] == items[..n] + [items[n]]
    ensures items[..n + 1][..n] == items[..n]
    ensures Mentions(items[..n + 1], items[n].product)
    ensures forall p :: Mentions(items[..n], p) ==> Mentions(items[..n + 1], p)
  {
    assert items[..n + 1][n] == items[n];
    forall p | Mentions(items[..n], p) ensures Mentions(items[..n + 1], p) {
      var i :| 0 <= i < n && items[..n][i].product == p;
      assert items[..n + 1][i].product == p;
    }
  }

  lemma EndKeepsOthers(initial: Store, s: System, t: TxId, phase: Phase)
    requires Inv(initial, s) && IsRunning(s, t) && !phase.Running?
    ensures Inv(initial, Ended(s, t, phase))
  {
    var s' := Ended(s, t, phase);
    forall u | u in s'.txs ensures TxInv(s', u) {
      assert TxInv(s, u);
    }
    forall p | p in s'.locks ensures LockInv(s', p) {
      assert LockInv(s, p);
    }
  }

  lemma TakeExtends(s: System, t: TxId)
    requires Enabled(s, Take(t)) && TxInv(s, t) && Apply(s, Take(t)).txs[t].phase.Running?
    ensures TxInv(Apply(s, Take(t)), t)
  {
    ExtendedPrefix(s.txs[t].request.items, s.txs[t].next);
  }

  /** Taking a row leaves every transaction with what it computed, the taker with one more item. */
  lemma TakeKeepsTx(s: System, t: TxId, u: TxId)
    requires Enabled(s, Take(t)) && TxInv(s, t) && u in s.txs && TxInv(s, u)
    requires Apply(s, Take(t)).txs[t].phase.Running?
    ensures TxInv(Apply(s, Take(t)), u)
  {
    if u == t {
      TakeExtends(s, t);
    } else {
      var item := s.txs[t].request.items[s.txs[t].next];
      assert item.product in s.locks ==> s.locks[item.product] == t;
    }
  }

  lemma TakeKeepsLock(s: System, t: TxId, p: ProductId)
    requires Enabled(s, Take(t)) && TxInv(s, t)
    requires p in s.locks ==> LockInv(s, p)
    requires Apply(s, Take(t)).txs[t].phase.Running?
    requires p in Apply(s, Take(t)).locks
    ensures LockInv(Apply(s, Take(t)), p)
  {
    var tx := s.txs[t];
    ExtendedPrefix(tx.request.items, tx.next);
  }

  lemma TakeKeepsInv(initial: Store, s: System, t: TxId)
    requires Inv(initial, s) && Enabled(s, Take(t))
    ensures Inv(initial, Apply(s, Take(t)))
  {
    var s' := Apply(s, Take(t));
    if s'.txs[t].phase.Running? {
      forall u | u in s'.txs ensures TxInv(s', u) {
        TakeKeepsTx(s, t, u);
      }
      forall p | p in s'.locks ensures LockInv(s', p) {
        TakeKeepsLock(s, t, p);
      }
    } else {
      EndKeepsOthers(initial, s, t, RolledBack);
    }
  }

  lemma CommitIsSubmit(s: System, t: TxId)
    requires Enabled(s, Commit(t)) && TxInv(s, t)
    ensures var r := s.txs[t].request;
            && Submit(s.store, r) == (Apply(s, Commit(t)).store, Ok(OrderOf(r, OrderCreated, s.txs[t].draft)))
            && PlaceOrder(s.store, r, true, OrderCreated).Ok?
            && PlaceOrder(s.store, r, true, OrderCreated).value.0 == Apply(s, Commit(t)).store
  {
    var tx := s.txs[t];
    assert tx.request.items[..tx.next] == tx.request.items;
  }

  /** A committing transaction leaves rows that another one has locked, and the tenant of every row. */
  lemma CommitKeepsRow(s: System, t: TxId, p: ProductId)
    requires Enabled(s, Commit(t)) && TxInv(s, t) && p in s.store.products
    ensures p in Apply(s, Commit(t)).store.products
    ensures Apply(s, Commit(t)).store.products[p].tenant == s.store.products[p].tenant
    ensures p in s.locks && s.locks[p] != t ==> Apply(s, Commit(t)).store.products[p] == s.store.products[p]
  {
    var r := s.txs[t].request;
    CommitIsSubmit(s, t);
    StockAfterOrder(s.store, r, OrderCreated);
    if Mentions(r.items, p) {
      var i :| 0 <= i < |r.items| && r.items[i].product == p;
      assert s.locks[r.items[i].product] == t;
    }
  }

  /** So what every other transaction has read still stands. */
  lemma CommitKeepsTx(s: System, t: TxId, u: TxId)
    requires Enabled(s, Commit(t)) && TxInv(s, t) && u in s.txs && TxInv(s, u)
    ensures TxInv(Apply(s, Commit(t)), u)
  {
    if u == t || !s.txs[u].phase.Running? {
      return;
    }
    var s' := Apply(s, Commit(t));
    var mine, tenant := s.txs[u].request.items, s.txs[u].request.tenant;
    var items := mine[..s.txs[u].next];
    forall i | 0 <= i < |items|
      ensures items[i].product in s.store.products && items[i].product in s'.store.products
      ensures s'.store.products[items[i].product] == s.store.products[items[i].product]
    {
      assert items[i] == mine[i] && Found(s.store.products, tenant, mine[i].product) && s.locks[mine[i].product] == u;
      CommitKeepsRow(s, t, mine[i].product);
    }
    OnlyLockedRowsMatter(s.store.products, s'.store.products, tenant, items);
    forall i | 0 <= i < |mine| ensures Found(s'.store.products, tenant, mine[i].product) {
      assert Found(s.store.products, tenant, mine[i].product);
      CommitKeepsRow(s, t, mine[i].product);
    }
  }

  lemma CommitKeepsLock(s: System, t: TxId, p: ProductId)
    requires Enabled(s, Commit(t)) && p in s.locks && LockInv(s, p) && p in Apply(s, Commit(t)).locks
    ensures LockInv(Apply(s, Commit(t)), p)
  {
  }

  lemma CommitKeepsInv(initial: Store, s: System, t: TxId)
    requires Inv(initial, s) && Enabled(s, Commit(t))
    ensures Inv(initial, Apply(s, Commit(t)))
  {
    var s' := Apply(s, Commit(t));
    CommitIsSubmit(s, t);
    assert s'.log[..|s'.log| - 1] == s.log;
    forall u | u in s'.txs ensures TxInv(s', u) {
      CommitKeepsTx(s, t, u);
    }
    forall p | p in s'.locks ensures LockInv(s', p) {
      CommitKeepsLock(s, t, p);
    }
  }

  lemma StepKeepsInv(initial: Store, s: System, step: Step)
    requires Inv(initial, s) && Enabled(s, step)
    ensures Inv(initial, Apply(s, step))
  {
    match step
    case Begin(t, r) =>
      var s' := Apply(s, step);
      assert r.items[..0] == [];
      forall u | u in s'.txs ensures TxInv(s', u) {
        if u != t {
          assert TxInv(s, u);
        }
      }
      forall p | p in s'.locks ensures LockInv(s', p) {
        assert LockInv(s, p);
      }
    case Take(t) => TakeKeepsInv(initial, s, t);
    case Commit(t) => CommitKeepsInv(initial, s, t);
    case Abort(t) => EndKeepsOthers(initial, s, t, RolledBack);
  }

  lemma {:induction false} RunKeepsInv(initial: Store, s: System, steps: seq<Step>)
    requires Inv(initial, s) && ValidRun(s, steps)
    ensures Inv(initial, Run(s, steps))
    decreases |steps|
  {
    if steps != [] {
      StepKeepsInv(initial, s, steps[0]);
      RunKeepsInv(initial, Apply(s, steps[0]), steps[1..]);
    }
  }

  /**
    Serializability: after any interleaving, with failures and rollbacks anywhere, the store is the
    one obtained by submitting the committed requests one at a time in commit order.
   */
  lemma Serializable(store: Store, steps: seq<Step>)
    requires ValidRun(Start(store), steps)
    ensures var s := Run(Start(store), steps);
            Serial(store, s.log) == Some(s.store)
  {
    RunKeepsInv(store, Start(store), steps);
  }

  // ----- Stock over a whole run -----

  function TotalLast(requests: seq<Request>, p: ProductId): int {
    if requests == [] then 0
    else TotalLast(requests[..|requests| - 1], p) + LastQuantity(requests[|requests| - 1].items, p)
  }

  function TotalOrdered(requests: seq<Request>, p: ProductId): int {
    if requests == [] then 0
    else TotalOrdered(requests[..|requests| - 1], p) + Ordered(requests[|requests| - 1].items, p)
  }

  predicate AllDistinct(requests: seq<Request>) {
    forall k :: 0 <= k < |requests| ==> Distinct(requests[k].items)
  }

  predicate StockNonNegative(products: Products) {
    forall p :: p in products ==> products[p].stock >= 0
  }

  lemma AllDistinctSplits(requests: seq<Request>)
    requires requests != []
    ensures AllDistinct(requests) <==> AllDistinct(requests[..|requests| - 1]) && Distinct(requests[|requests| - 1].items)
  {
    assert forall k :: 0 <= k < |requests| - 1 ==> requests[..|requests| - 1][k] == requests[k];
  }

  lemma {:induction false} SerialStock(store: Store, requests: seq<Request>)
    requires Serial(store, requests).Some?
    ensures var after := Serial(store, requests).value;
            && after.products.Keys == store.products.Keys
            && (forall p :: p in store.products ==>
                  after.products[p].stock == store.products[p].stock - TotalLast(requests, p))
            && (StockNonNegative(store.products) ==> StockNonNegative(after.products))
  {
    if requests != [] {
      var n := |requests| - 1;
      SerialStock(store, requests[..n]);
      StockAfterOrder(Serial(store, requests[..n]).value, requests[n], OrderCreated);
    }
  }

  /** What is deducted equals what is sold, product by product, exactly when no order repeats a product. */
  lemma {:induction false} SerialTotals(store: Store, requests: seq<Request>)
    requires Serial(store, requests).Some?
    ensures forall p :: p in store.products ==> TotalLast(requests, p) <= TotalOrdered(requests, p)
    ensures (forall p :: p in store.products ==> TotalLast(requests, p) == TotalOrdered(requests, p)) <==> AllDistinct(requests)
  {
    if requests != [] {
      var n := |requests| - 1;
      var r := requests[n];
      SerialTotals(store, requests[..n]);
      SerialStock(store, requests[..n]);
      var before := Serial(store, requests[..n]).value;
      StockAfterOrder(before, r, OrderCreated);
      StockConservedIffDistinct(before, r, OrderCreated);
      AcceptedItemsArePositive(before.products, r.tenant, true, r.items);
      forall p ensures LastQuantity(r.items, p) <= Ordered(r.items, p) {
        LastAtMostOrdered(r.items, p);
      }
      AllDistinctSplits(requests);
    }
  }

  /**
    Conservation over every interleaving: stock plus everything the committed orders sold equals the
    initial stock, for every product, if and only if each committed order lists its products once.
    Stock never goes negative, whatever the orders list.
   */
  lemma StockConservedIffOrdersDistinct(store: Store, steps: seq<Step>)
    requires ValidRun(Start(store), steps) && StockNonNegative(store.products)
    ensures var s := Run(Start(store), steps);
            && s.store.products.Keys == store.products.Keys
            && StockNonNegative(s.store.products)
            && ((forall p :: p in store.products ==>
                   s.store.products[p].stock + TotalOrdered(s.log, p) == store.products[p].stock)
                <==> AllDistinct(s.log))
  {
    Serializable(store, steps);
    SerialStock(store, Run(Start(store), steps).log);
    SerialTotals(store, Run(Start(store), steps).log);
  }

  // ----- Orders over a whole run -----

  /** The same products, with the names and prices they had. */
  predicate SameLabels(before: Products, after: Products) {
    && after.Keys == before.Keys
    && forall p :: p in before ==>
         after[p].tenant == before[p].tenant && after[p].name == before[p].name && after[p].price == before[p].price
  }

  lemma IsOrderStill(before: Store, after: Store, r: Request, order: Order)
    requires SameLabels(before.products, after.products) && IsOrderOf(after, r, OrderCreated, order)
    ensures IsOrderOf(before, r, OrderCreated, order)
  {
  }

  /** One order for each request, in order, at the names and prices of `store`. */
  predicate OrdersOf(store: Store, requests: seq<Request>, orders: seq<Order>) {
    && |orders| == |requests|
    && forall k :: 0 <= k < |requests| ==> IsOrderOf(store, requests[k], OrderCreated, orders[k])
  }

  lemma SubmitKeepsLabels(store: Store, before: Store, r: Request)
    requires SameLabels(store.products, before.products) && Submit(before, r).1.Ok?
    ensures var (after, reply) := Submit(before, r);
            && after.customers == before.customers
            && SameLabels(store.products, after.products)
            && after.orders == before.orders + [reply.value]
            && IsOrderOf(store, r, OrderCreated, reply.value)
  {
    StockAfterOrder(before, r, OrderCreated);
    SubmitStoresTheOrder(before, r);
    IsOrderStill(store, before, r, Submit(before, r).1.value);
  }

  /** Submitted one after another, the requests leave one order each, in that order, at the names and prices of the start. */
  lemma {:induction false} SerialOrders(store: Store, requests: seq<Request>)
    requires Serial(store, requests).Some?
    ensures var after := Serial(store, requests).value;
            && after.customers == store.customers
            && SameLabels(store.products, after.products)
            && store.orders <= after.orders
            && OrdersOf(store, requests, after.orders[|store.orders|..])
  {
    if requests != [] {
      var n := |requests| - 1;
      SerialOrders(store, requests[..n]);
      SubmitKeepsLabels(store, Serial(store, requests[..n]).value, requests[n]);
    }
  }

  /** Over every interleaving: the stored orders are those that were there, then one for each committed request in commit order. */
  lemma CommittedOrders(store: Store, steps: seq<Step>)
    requires ValidRun(Start(store), steps)
    ensures var s := Run(Start(store), steps);
            && store.orders <= s.store.orders
            && OrdersOf(store, s.log, s.store.orders[|store.orders|..])
  {
    Serializable(store, steps);
    SerialOrders(store, Run(Start(store), steps).log);
  }
}
