/**
  Exactly which orders can deadlock.

  Orders deadlock when they can be lined up in a circle so that each has locked rows nobody else in
  the circle wants first, and wants next a row that the one after it has locked.
 */
module OrderDeadlocks {
  import opened Results
  import opened Orders
  import opened OrderLocking

  predicate OnLine(items: seq<Item>, from: nat, to: nat, p: ProductId) {
    exists i :: from <= i < to && i < |items| && items[i].product == p
  }

  /** A product on one of the first `n` lines. */
  predicate Holds(r: Request, n: nat, p: ProductId) {
    OnLine(r.items, 0, n, p)
  }

  /** From this store the order can lock its first `n` rows and then ask for the next one. */
  predicate Reaches(store: Store, r: Request, n: nat) {
    && Admissible(store, r)
    && n < |r.items|
    && r.items[n].quantity > 0
    && forall i :: 0 <= i < n ==> 0 < r.items[i].quantity <= store.products[r.items[i].product].stock
  }

  function Next(k: nat, n: nat): nat {
    if k + 1 < n then k + 1 else 0
  }

  /** Order `k` wants a row that the order after it holds. */
  predicate Wants(rs: seq<Request>, stops: seq<nat>, k: nat) {
    && k < |rs| == |stops| && stops[k] < |rs[k].items|
    && Holds(rs[Next(k, |rs|)], stops[Next(k, |rs|)], rs[k].items[stops[k]].product)
  }

  /** No product is held by both orders. */
  ghost predicate Apart(a: Request, i: nat, b: Request, j: nat) {
    forall p :: !(Holds(a, i, p) && Holds(b, j, p))
  }

  /** The circle: each order stops at its line `stops[k]`, whose row is held by the one after it. */
  ghost predicate Circle(store: Store, rs: seq<Request>, stops: seq<nat>) {
    && |rs| == |stops| >= 2
    && (forall k :: 0 <= k < |rs| ==> Reaches(store, rs[k], stops[k]))
    && (forall k :: 0 <= k < |rs| ==> Wants(rs, stops, k))
    && (forall j, k :: 0 <= j < k < |rs| ==> Apart(rs[j], stops[j], rs[k], stops[k]))
  }

  /** Some transaction is running, and every running one waits. */
  predicate Stuck(s: System) {
    && (exists t :: t in s.txs && IsRunning(s, t))
    && (forall t :: t in s.txs && IsRunning(s, t) ==> Waits(s, t))
  }

  predicate From(requests: set<Request>, steps: seq<Step>) {
    forall k :: 0 <= k < |steps| && steps[k].Begin? ==> steps[k].request in requests
  }

  ghost predicate CanDeadlock(store: Store, requests: set<Request>) {
    exists steps :: ValidRun(Start(store), steps) && From(requests, steps) && Stuck(Run(Start(store), steps))
  }

  ghost predicate HasCircle(store: Store, requests: set<Request>) {
    exists rs, stops :: Circle(store, rs, stops) && forall k :: 0 <= k < |rs| ==> rs[k] in requests
  }

  /** The product whose lock a waiting transaction wants. */
  function Wanted(s: System, t: TxId): ProductId
    requires Waits(s, t)
  {
    s.txs[t].request.items[s.txs[t].next].product
  }

  // ----- A stuck state holds a circle -----

  /** Committed orders only ever lower stock. */
  lemma {:induction false} SerialOnlyLowers(store: Store, requests: seq<Request>)
    requires Serial(store, requests).Some?
    ensures var after := Serial(store, requests).value;
            && after.customers == store.customers
            && after.products.Keys == store.products.Keys
            && forall p :: p in store.products ==>
                 after.products[p].tenant == store.products[p].tenant && after.products[p].stock <= store.products[p].stock
  {
    if requests != [] {
      var n := |requests| - 1;
      SerialOnlyLowers(store, requests[..n]);
      var before := Serial(store, requests[..n]).value;
      StockAfterOrder(before, requests[n], OrderCreated);
      DraftEffect(before.products, requests[n].tenant, requests[n].items);
    }
  }

  /** A waiting transaction got as far as its order can get from the initial store. */
  lemma WaitingReaches(store: Store, s: System, t: TxId)
    requires Inv(store, s) && Waits(s, t)
    ensures Reaches(store, s.txs[t].request, s.txs[t].next)
  {
    var tx := s.txs[t];
    var r, taken := tx.request, tx.request.items[..tx.next];
    assert TxInv(s, t);
    SerialOnlyLowers(store, s.log);
    AcceptedExactlyWhen(s.store.products, r.tenant, taken);
    forall i | 0 <= i < |r.items| ensures Found(store.products, r.tenant, r.items[i].product) {
      assert Found(s.store.products, r.tenant, r.items[i].product);
    }
    forall i | 0 <= i < tx.next ensures 0 < r.items[i].quantity <= store.products[r.items[i].product].stock {
      assert taken[i] == r.items[i];
    }
  }

  function Owner(s: System, t: TxId): TxId
    requires Waits(s, t)
  {
    s.locks[Wanted(s, t)]
  }

  /** What a running transaction holds is exactly what it has locked. */
  lemma HoldsIsLocked(store: Store, s: System, t: TxId, p: ProductId)
    requires Inv(store, s) && IsRunning(s, t)
    ensures Holds(s.txs[t].request, s.txs[t].next, p) <==> p in s.locks && s.locks[p] == t
  {
    var tx := s.txs[t];
    assert TxInv(s, t);
    if p in s.locks && s.locks[p] == t {
      assert LockInv(s, p);
      var i :| 0 <= i < tx.next && tx.request.items[..tx.next][i].product == p;
      assert tx.request.items[i].product == p;
    }
  }

  predicate WaitsForNext(s: System, ts: seq<TxId>, k: nat) {
    k < |ts| && Waits(s, ts[k]) && Owner(s, ts[k]) == ts[Next(k, |ts|)]
  }

  /** Distinct transactions, each waiting for the one after it, the last for the first. */
  predicate WaitCircle(s: System, ts: seq<TxId>) {
    && |ts| >= 2
    && (forall j, k :: 0 <= j < k < |ts| ==> ts[j] != ts[k])
    && (forall k :: 0 <= k < |ts| ==> ts[k] in s.txs && IsRunning(s, ts[k]))
    && forall k :: 0 <= k < |ts| ==> WaitsForNext(s, ts, k)
  }

  function RequestsOf(s: System, ts: seq<TxId>): seq<Request>
    requires forall k :: 0 <= k < |ts| ==> ts[k] in s.txs
  {
    seq(|ts|, k requires 0 <= k < |ts| => s.txs[ts[k]].request)
  }

  function StopsOf(s: System, ts: seq<TxId>): seq<nat>
    requires forall k :: 0 <= k < |ts| ==> ts[k] in s.txs
  {
    seq(|ts|, k requires 0 <= k < |ts| => s.txs[ts[k]].next)
  }

  lemma WaitingWants(store: Store, s: System, ts: seq<TxId>, k: nat)
    requires Inv(store, s) && WaitCircle(s, ts) && k < |ts|
    ensures Reaches(store, s.txs[ts[k]].request, s.txs[ts[k]].next)
    ensures Wants(RequestsOf(s, ts), StopsOf(s, ts), k)
  {
    assert WaitsForNext(s, ts, k);
    WaitingReaches(store, s, ts[k]);
    HoldsIsLocked(store, s, ts[Next(k, |ts|)], Wanted(s, ts[k]));
  }

  lemma OthersAreApart(store: Store, s: System, t: TxId, u: TxId)
    requires Inv(store, s) && IsRunning(s, t) && IsRunning(s, u) && t != u
    ensures Apart(s.txs[t].request, s.txs[t].next, s.txs[u].request, s.txs[u].next)
  {
    forall p ensures !(Holds(s.txs[t].request, s.txs[t].next, p) && Holds(s.txs[u].request, s.txs[u].next, p)) {
      HoldsIsLocked(store, s, t, p);
      HoldsIsLocked(store, s, u, p);
    }
  }

  lemma WaitCircleIsCircle(store: Store, s: System, ts: seq<TxId>)
    requires Inv(store, s) && WaitCircle(s, ts)
    ensures Circle(store, RequestsOf(s, ts), StopsOf(s, ts))
  {
    var rs, stops := RequestsOf(s, ts), StopsOf(s, ts);
    forall k | 0 <= k < |ts| ensures Reaches(store, rs[k], stops[k]) && Wants(rs, stops, k) {
      WaitingWants(store, s, ts, k);
    }
    forall j, k | 0 <= j < k < |rs| ensures Apart(rs[j], stops[j], rs[k], stops[k]) {
      OthersAreApart(store, s, ts[j], ts[k]);
    }
  }

  /** Each element of the path points to the one after it. */
  predicate IsPath(next: map<TxId, TxId>, path: seq<TxId>) {
    && path != []
    && (forall j, k :: 0 <= j < k < |path| ==> path[j] != path[k])
    && (forall k :: 0 <= k < |path| ==> path[k] in next)
    && forall k :: 0 <= k < |path| - 1 ==> next[path[k]] == path[k + 1]
  }

  predicate IsCircle(next: map<TxId, TxId>, ts: seq<TxId>) {
    IsPath(next, ts) && next[ts[|ts| - 1]] == ts[0]
  }

  lemma LongerPath(next: map<TxId, TxId>, path: seq<TxId>)
    requires IsPath(next, path) && next[path[|path| - 1]] in next && next[path[|path| - 1]] !in path
    ensures IsPath(next, path + [next[path[|path| - 1]]])
  {
  }

  lemma RestOfPath(next: map<TxId, TxId>, path: seq<TxId>, i: nat)
    requires IsPath(next, path) && i < |path| && next[path[|path| - 1]] == path[i]
    ensures IsCircle(next, path[i..])
  {
  }

  /** Following the pointers of a finite map comes back to where it has been; `rest` is what is not on the path yet. */
  lemma {:induction false} PathCloses(next: map<TxId, TxId>, path: seq<TxId>, rest: set<TxId>) returns (ts: seq<TxId>)
    requires next.Values <= next.Keys && IsPath(next, path)
    requires forall t :: t in next.Keys ==> t in path || t in rest
    ensures IsCircle(next, ts)
    decreases |rest|
  {
    var last := path[|path| - 1];
    assert next[last] in next.Values;
    if next[last] in path {
      var i :| 0 <= i < |path| && path[i] == next[last];
      RestOfPath(next, path, i);
      ts := path[i..];
    } else {
      LongerPath(next, path);
      ts := PathCloses(next, path + [next[last]], rest - {next[last]});
    }
  }

  lemma {:induction false} RunIsFrom(requests: set<Request>, s: System, steps: seq<Step>)
    requires ValidRun(s, steps) && From(requests, steps)
    requires forall t :: t in s.txs ==> s.txs[t].request in requests
    ensures forall t :: t in Run(s, steps).txs ==> Run(s, steps).txs[t].request in requests
    decreases |steps|
  {
    if steps != [] {
      assert steps[0].Begin? ==> steps[0].request in requests;
      RunIsFrom(requests, Apply(s, steps[0]), steps[1..]);
    }
  }

  /** The running transactions of a stuck state, each with the one it waits for. */
  function Owners(s: System): map<TxId, TxId>
    requires Stuck(s)
  {
    map t | t in s.txs && IsRunning(s, t) :: Owner(s, t)
  }

  /** Each element points to another one of the map. */
  predicate PointsOn(next: map<TxId, TxId>) {
    next.Values <= next.Keys && forall t :: t in next ==> next[t] != t
  }

  lemma OwnerRuns(store: Store, s: System, t: TxId)
    requires Inv(store, s) && Waits(s, t)
    ensures IsRunning(s, Owner(s, t)) && Owner(s, t) != t
  {
    assert LockInv(s, Wanted(s, t));
  }

  lemma OwnersPointOn(store: Store, s: System)
    requires Inv(store, s) && Stuck(s)
    ensures PointsOn(Owners(s))
  {
    var next := Owners(s);
    forall t | t in next ensures next[t] in next.Keys && next[t] != t {
      OwnerRuns(store, s, t);
    }
  }

  lemma CircleOfOwners(s: System, ts: seq<TxId>)
    requires Stuck(s) && IsCircle(Owners(s), ts) && Owners(s)[ts[0]] != ts[0]
    ensures WaitCircle(s, ts)
  {
    forall k | 0 <= k < |ts| ensures IsRunning(s, ts[k]) && WaitsForNext(s, ts, k) {
      assert ts[k] in Owners(s);
    }
  }

  lemma StuckStateHasCircle(s: System) returns (ts: seq<TxId>)
    requires Stuck(s) && PointsOn(Owners(s))
    ensures WaitCircle(s, ts)
  {
    var t :| t in s.txs && IsRunning(s, t);
    ts := PathCloses(Owners(s), [t], Owners(s).Keys);
    CircleOfOwners(s, ts);
  }

  lemma StuckHasCircle(store: Store, requests: set<Request>, steps: seq<Step>)
    requires ValidRun(Start(store), steps) && From(requests, steps) && Stuck(Run(Start(store), steps))
    ensures HasCircle(store, requests)
  {
    var s := Run(Start(store), steps);
    RunKeepsInv(store, Start(store), steps);
    RunIsFrom(requests, Start(store), steps);
    OwnersPointOn(store, s);
    var ts := StuckStateHasCircle(s);
    WaitCircleIsCircle(store, s, ts);
    var rs := RequestsOf(s, ts);
    assert forall k :: 0 <= k < |rs| ==> rs[k] in requests;
  }

  // ----- A circle leads to a stuck state -----

  lemma {:induction false} RunAppend(s: System, first: seq<Step>, second: seq<Step>)
    requires ValidRun(s, first) && ValidRun(Run(s, first), second)
    ensures ValidRun(s, first + second) && Run(s, first + second) == Run(Run(s, first), second)
    decreases |first|
  {
    if first == [] {
      assert first + second == second;
    } else {
      assert (first + second)[1..] == first[1..] + second;
      RunAppend(Apply(s, first[0]), first[1..], second);
    }
  }

  /** Transaction `k` runs its order, has taken `n` rows, and holds exactly those. */
  ghost predicate Stopped(s: System, r: Request, k: TxId, n: nat) {
    && k in s.txs && s.txs[k].phase.Running? && s.txs[k].request == r && s.txs[k].next == n
    && forall p :: Holds(r, n, p) <==> p in s.locks && s.locks[p] == k
  }

  /** The orders are begun as transactions 0, 1, ..., and the first `m` of them have got to their stops. */
  ghost predicate Staged(s: System, store: Store, rs: seq<Request>, stops: seq<nat>, m: nat)
    requires m <= |rs| == |stops|
  {
    && s.store == store
    && (forall t :: t in s.txs <==> 0 <= t < |rs|)
    && (forall p :: p in s.locks ==> s.locks[p] < m)
    && (forall k :: 0 <= k < |rs| ==> Stopped(s, rs[k], k, if k < m then stops[k] else 0))
  }

  function Begins(rs: seq<Request>, n: nat): seq<Step>
    requires n <= |rs|
  {
    if n == 0 then [] else Begins(rs, n - 1) + [Begin(n - 1, rs[n - 1])]
  }

  lemma OneStep(s: System, step: Step)
    requires Enabled(s, step)
    ensures ValidRun(s, [step]) && Run(s, [step]) == Apply(s, step)
  {
    assert [step][1..] == [];
    assert Run(Apply(s, step), []) == Apply(s, step);
  }

  lemma {:induction false} BeginsRun(store: Store, rs: seq<Request>, n: nat)
    requires n <= |rs| && forall k :: 0 <= k < |rs| ==> Admissible(store, rs[k])
    ensures ValidRun(Start(store), Begins(rs, n))
    ensures Run(Start(store), Begins(rs, n)) ==
            System(store, map[], map t | 0 <= t < n :: Tx(rs[t], 0, EMPTY_DRAFT, Running), [])
  {
    if n > 0 {
      BeginsRun(store, rs, n - 1);
      var s := Run(Start(store), Begins(rs, n - 1));
      OneStep(s, Begin(n - 1, rs[n - 1]));
      RunAppend(Start(store), Begins(rs, n - 1), [Begin(n - 1, rs[n - 1])]);
    }
  }

  function Takes(t: TxId, n: nat): seq<Step> {
    if n == 0 then [] else [Take(t)] + Takes(t, n - 1)
  }

  /** Rows `t` may lock next: in stock, and not locked by anyone else. */
  predicate FreeFor(s: System, t: TxId, item: Item, tenant: TenantId) {
    && Found(s.store.products, tenant, item.product)
    && 0 < item.quantity <= s.store.products[item.product].stock
    && (item.product in s.locks ==> s.locks[item.product] == t)
  }

  /** `t` has taken its next `n` rows, and nothing else has happened. */
  ghost predicate Took(s: System, s': System, t: TxId, n: nat) {
    && IsRunning(s, t) && IsRunning(s', t)
    && s'.store == s.store
    && s'.txs == s.txs[t := s'.txs[t]]
    && s'.txs[t].request == s.txs[t].request && s'.txs[t].next == s.txs[t].next + n
    && (forall p :: p in s'.locks <==> p in s.locks || OnLine(s.txs[t].request.items, s.txs[t].next, s.txs[t].next + n, p))
    && (forall p :: p in s'.locks ==> s'.locks[p] == if p in s.locks then s.locks[p] else t)
  }

  lemma TakeOne(s: System, t: TxId)
    requires IsRunning(s, t) && s.txs[t].next < |s.txs[t].request.items|
    requires FreeFor(s, t, s.txs[t].request.items[s.txs[t].next], s.txs[t].request.tenant)
    ensures Enabled(s, Take(t)) && Took(s, Apply(s, Take(t)), t, 1)
  {
    var items, n := s.txs[t].request.items, s.txs[t].next;
    var next := n + 1;
    assert forall p :: OnLine(items, n, next, p) <==> items[n].product == p;
  }

  lemma LinesSplit(items: seq<Item>, a: nat, b: nat, c: nat, p: ProductId)
    requires a <= b <= c
    ensures OnLine(items, a, c, p) <==> OnLine(items, a, b, p) || OnLine(items, b, c, p)
  {
    if OnLine(items, a, c, p) {
      var i :| a <= i < c && i < |items| && items[i].product == p;
      assert if i < b then OnLine(items, a, b, p) else OnLine(items, b, c, p);
    }
  }

  lemma TookMore(s: System, s1: System, s2: System, t: TxId, n: nat)
    requires Took(s, s1, t, 1) && Took(s1, s2, t, n)
    ensures Took(s, s2, t, n + 1)
  {
    var items, k := s.txs[t].request.items, s.txs[t].next;
    var middle, last := k + 1, k + 1 + n;
    forall p ensures OnLine(items, k, last, p) <==> OnLine(items, k, middle, p) || OnLine(items, middle, last, p) {
      LinesSplit(items, k, middle, last, p);
    }
  }

  predicate FreeAhead(s: System, t: TxId, n: nat) {
    && IsRunning(s, t)
    && s.txs[t].next + n <= |s.txs[t].request.items|
    && forall i :: s.txs[t].next <= i < s.txs[t].next + n ==> FreeFor(s, t, s.txs[t].request.items[i], s.txs[t].request.tenant)
  }

  lemma StillFreeAhead(s: System, s1: System, t: TxId, n: nat)
    requires FreeAhead(s, t, n + 1) && Took(s, s1, t, 1)
    ensures FreeAhead(s1, t, n)
  {
    var tx := s.txs[t];
    forall i | tx.next + 1 <= i < tx.next + 1 + n ensures FreeFor(s1, t, tx.request.items[i], tx.request.tenant) {
      assert FreeFor(s, t, tx.request.items[i], tx.request.tenant);
    }
  }

  lemma TookNone(s: System, t: TxId)
    requires IsRunning(s, t)
    ensures Took(s, s, t, 0)
  {
  }

  lemma Prepend(s: System, step: Step, rest: seq<Step>)
    requires Enabled(s, step) && ValidRun(Apply(s, step), rest)
    ensures ValidRun(s, [step] + rest) && Run(s, [step] + rest) == Run(Apply(s, step), rest)
  {
    assert ([step] + rest)[1..] == rest;
  }

  lemma {:induction false} TakesRun(s: System, t: TxId, n: nat)
    requires FreeAhead(s, t, n)
    ensures ValidRun(s, Takes(t, n)) && Took(s, Run(s, Takes(t, n)), t, n)
    decreases n
  {
    if n == 0 {
      TookNone(s, t);
    } else {
      TakeOne(s, t);
      var s1 := Apply(s, Take(t));
      StillFreeAhead(s, s1, t, n - 1);
      TakesRun(s1, t, n - 1);
      Prepend(s, Take(t), Takes(t, n - 1));
      TookMore(s, s1, Run(s1, Takes(t, n - 1)), t, n - 1);
    }
  }

  lemma LockedByAnother(s: System, store: Store, rs: seq<Request>, stops: seq<nat>, m: nat, p: ProductId)
    requires Circle(store, rs, stops) && m < |rs| && Staged(s, store, rs, stops, m) && p in s.locks
    ensures !Holds(rs[m], stops[m], p)
  {
    var k := s.locks[p];
    assert Stopped(s, rs[k], k, stops[k]) && Apart(rs[k], stops[k], rs[m], stops[m]);
  }

  /** The rows of the next order are free, as nobody in the circle holds what it does. */
  lemma RowsAreFree(s: System, store: Store, rs: seq<Request>, stops: seq<nat>, m: nat, i: nat)
    requires Circle(store, rs, stops) && m < |rs| && Staged(s, store, rs, stops, m) && i < stops[m]
    ensures stops[m] < |rs[m].items| && FreeFor(s, m, rs[m].items[i], rs[m].tenant)
  {
    var r, n := rs[m], stops[m];
    assert Reaches(store, r, n);
    var p := r.items[i].product;
    assert Found(store.products, r.tenant, p);
    if p in s.locks {
      LockedByAnother(s, store, rs, stops, m, p);
    }
    assert Holds(r, n, p);
  }

  lemma StageNext(s: System, store: Store, rs: seq<Request>, stops: seq<nat>, m: nat)
    requires Circle(store, rs, stops) && m < |rs| && Staged(s, store, rs, stops, m)
    ensures ValidRun(s, Takes(m, stops[m]))
    ensures Staged(Run(s, Takes(m, stops[m])), store, rs, stops, m + 1)
  {
    var r, n := rs[m], stops[m];
    assert Reaches(store, r, n) && Stopped(s, r, m, 0);
    assert FreeAhead(s, m, n) by {
      forall i | 0 <= i < n ensures FreeFor(s, m, r.items[i], r.tenant) {
        RowsAreFree(s, store, rs, stops, m, i);
      }
    }
    TakesRun(s, m, n);
    var s' := Run(s, Takes(m, n));
    forall k | 0 <= k < |rs| ensures Stopped(s', rs[k], k, if k < m + 1 then stops[k] else 0) {
      assert Stopped(s, rs[k], k, if k < m then stops[k] else 0);
      if k == m {
        forall p | Holds(r, n, p) ensures p !in s.locks {
          assert p in s.locks ==> s.locks[p] < m;
          if p in s.locks {
            LockedByAnother(s, store, rs, stops, m, p);
          }
        }
        TakerStopped(s, s', r, m, n);
      } else {
        OtherStopped(s, s', rs[k], k, s.txs[k].next, m, n);
      }
    }
  }

  /** After its takes the taker holds the rows of its first `n` lines, all of which were free. */
  lemma TakerStopped(s: System, s': System, r: Request, m: TxId, n: nat)
    requires Stopped(s, r, m, 0) && Took(s, s', m, n)
    requires forall p :: Holds(r, n, p) ==> p !in s.locks
    ensures Stopped(s', r, m, n)
  {
    forall p ensures Holds(r, n, p) <==> p in s'.locks && s'.locks[p] == m {
      assert !Holds(r, 0, p);
    }
  }

  lemma OtherStopped(s: System, s': System, r: Request, k: TxId, before: nat, m: TxId, n: nat)
    requires Stopped(s, r, k, before) && Took(s, s', m, n) && k != m
    ensures Stopped(s', r, k, before)
  {
  }

  function Stages(rs: seq<Request>, stops: seq<nat>, m: nat): seq<Step>
    requires m <= |rs| == |stops|
  {
    if m == 0 then Begins(rs, |rs|) else Stages(rs, stops, m - 1) + Takes(m - 1, stops[m - 1])
  }

  lemma BeginsStage(store: Store, rs: seq<Request>, stops: seq<nat>)
    requires |rs| == |stops| && forall k :: 0 <= k < |rs| ==> Admissible(store, rs[k])
    ensures ValidRun(Start(store), Begins(rs, |rs|))
    ensures Staged(Run(Start(store), Begins(rs, |rs|)), store, rs, stops, 0)
  {
    BeginsRun(store, rs, |rs|);
  }

  lemma {:induction false} StagesRun(store: Store, rs: seq<Request>, stops: seq<nat>, m: nat)
    requires Circle(store, rs, stops) && m <= |rs|
    ensures ValidRun(Start(store), Stages(rs, stops, m))
    ensures Staged(Run(Start(store), Stages(rs, stops, m)), store, rs, stops, m)
  {
    if m == 0 {
      forall k | 0 <= k < |rs| ensures Admissible(store, rs[k]) {
        assert Reaches(store, rs[k], stops[k]);
      }
      BeginsStage(store, rs, stops);
    } else {
      StagesRun(store, rs, stops, m - 1);
      var s := Run(Start(store), Stages(rs, stops, m - 1));
      StageNext(s, store, rs, stops, m - 1);
      RunAppend(Start(store), Stages(rs, stops, m - 1), Takes(m - 1, stops[m - 1]));
    }
  }

  lemma StagedIsStuck(s: System, store: Store, rs: seq<Request>, stops: seq<nat>)
    requires Circle(store, rs, stops) && Staged(s, store, rs, stops, |rs|)
    ensures Stuck(s)
  {
    assert Stopped(s, rs[0], 0, stops[0]);
    assert 0 in s.txs && IsRunning(s, 0);
    forall t | t in s.txs && IsRunning(s, t) ensures Waits(s, t) {
      var owner := Next(t, |rs|);
      assert Reaches(store, rs[t], stops[t]) && Wants(rs, stops, t);
      assert Stopped(s, rs[t], t, stops[t]) && Stopped(s, rs[owner], owner, stops[owner]);
    }
  }

  lemma {:induction false} BeginsAreFrom(rs: seq<Request>, n: nat)
    requires n <= |rs|
    ensures forall k :: 0 <= k < |Begins(rs, n)| && Begins(rs, n)[k].Begin? ==> Begins(rs, n)[k].request in rs
  {
    if n > 0 {
      BeginsAreFrom(rs, n - 1);
    }
  }

  lemma {:induction false} TakesAreNotBegins(t: TxId, n: nat)
    ensures forall k :: 0 <= k < |Takes(t, n)| ==> Takes(t, n)[k].Take?
  {
    if n > 0 {
      TakesAreNotBegins(t, n - 1);
    }
  }

  lemma {:induction false} StagesAreFrom(rs: seq<Request>, stops: seq<nat>, m: nat)
    requires m <= |rs| == |stops|
    ensures forall k :: 0 <= k < |Stages(rs, stops, m)| && Stages(rs, stops, m)[k].Begin? ==>
              Stages(rs, stops, m)[k].request in rs
  {
    if m == 0 {
      BeginsAreFrom(rs, |rs|);
    } else {
      StagesAreFrom(rs, stops, m - 1);
      TakesAreNotBegins(m - 1, stops[m - 1]);
    }
  }

  lemma CircleGetsStuck(store: Store, requests: set<Request>, rs: seq<Request>, stops: seq<nat>)
    requires Circle(store, rs, stops) && forall k :: 0 <= k < |rs| ==> rs[k] in requests
    ensures CanDeadlock(store, requests)
  {
    var steps := Stages(rs, stops, |rs|);
    StagesRun(store, rs, stops, |rs|);
    StagedIsStuck(Run(Start(store), steps), store, rs, stops);
    StagesAreFrom(rs, stops, |rs|);
    assert From(requests, steps);
  }

  // ----- Main results -----

  /** The circle of two orders: each wants next what the other holds, and neither holds what the other does. */
  lemma CircleOfTwo(store: Store, a: Request, i: nat, b: Request, j: nat)
    ensures Circle(store, [a, b], [i, j]) <==>
              && Reaches(store, a, i) && Reaches(store, b, j)
              && Holds(b, j, a.items[i].product)
              && Holds(a, i, b.items[j].product)
              && Apart(a, i, b, j)
  {
    var rs, stops := [a, b], [i, j];
    assert rs[0] == a && rs[1] == b && stops[0] == i && stops[1] == j;
    if Reaches(store, a, i) && Reaches(store, b, j) {
      assert Wants(rs, stops, 0) <==> Holds(b, j, a.items[i].product);
      assert Wants(rs, stops, 1) <==> Holds(a, i, b.items[j].product);
    }
    if Circle(store, rs, stops) {
      assert Reaches(store, rs[0], stops[0]) && Reaches(store, rs[1], stops[1]);
      assert Wants(rs, stops, 0) && Wants(rs, stops, 1) && Apart(rs[0], stops[0], rs[1], stops[1]);
    }
  }

  /**
    Whatever the orders and however many of each run at once, their transactions can get stuck if and
    only if some of them can be lined up in a circle.
   */
  lemma DeadlockIff(store: Store, requests: set<Request>)
    ensures CanDeadlock(store, requests) <==> HasCircle(store, requests)
  {
    if CanDeadlock(store, requests) {
      var steps :| ValidRun(Start(store), steps) && From(requests, steps) && Stuck(Run(Start(store), steps));
      StuckHasCircle(store, requests, steps);
    }
    if HasCircle(store, requests) {
      var rs, stops :| Circle(store, rs, stops) && forall k :: 0 <= k < |rs| ==> rs[k] in requests;
      CircleGetsStuck(store, requests, rs, stops);
    }
  }

  predicate Ascending(items: seq<Item>) {
    forall i, j :: 0 <= i < j < |items| ==> items[i].product < items[j].product
  }

  predicate RunningAscend(s: System) {
    forall t :: t in s.txs && s.txs[t].phase.Running? ==> Ascending(s.txs[t].request.items)
  }

  /** What the next order holds, and this one wants, is less than what the next one wants. */
  lemma AscendingHolds(store: Store, rs: seq<Request>, stops: seq<nat>, k: nat)
    requires Circle(store, rs, stops) && k < |rs|
    requires forall i :: 0 <= i < |rs| ==> Ascending(rs[i].items)
    ensures rs[k].items[stops[k]].product < rs[Next(k, |rs|)].items[stops[Next(k, |rs|)]].product
  {
    var next := Next(k, |rs|);
    assert Reaches(store, rs[k], stops[k]) && Reaches(store, rs[next], stops[next]) && Wants(rs, stops, k);
    assert Ascending(rs[next].items);
  }

  /** So, around the circle, wanted products would climb for ever. */
  lemma {:induction false} WantedClimbs(store: Store, rs: seq<Request>, stops: seq<nat>, k: nat)
    requires Circle(store, rs, stops) && k < |rs|
    requires forall i :: 0 <= i < |rs| ==> Ascending(rs[i].items)
    ensures rs[0].items[stops[0]].product <= rs[k].items[stops[k]].product
  {
    if k > 0 {
      AscendingHolds(store, rs, stops, k - 1);
      WantedClimbs(store, rs, stops, k - 1);
    }
  }

  lemma AscendingIsNoCircle(store: Store, rs: seq<Request>, stops: seq<nat>)
    requires forall i :: 0 <= i < |rs| ==> Ascending(rs[i].items)
    ensures !Circle(store, rs, stops)
  {
    if Circle(store, rs, stops) {
      var n := |rs| - 1;
      WantedClimbs(store, rs, stops, n);
      AscendingHolds(store, rs, stops, n);
    }
  }

  /** Whatever else has run: while every running order lists its products in ascending order, some transaction can move. */
  lemma AscendingOrdersNeverDeadlock(store: Store, steps: seq<Step>, t: TxId)
    requires ValidRun(Start(store), steps)
    requires IsRunning(Run(Start(store), steps), t)
    requires RunningAscend(Run(Start(store), steps))
    ensures var s := Run(Start(store), steps);
            exists u :: Enabled(s, Take(u)) || Enabled(s, Commit(u))
  {
    var s := Run(Start(store), steps);
    RunKeepsInv(store, Start(store), steps);
    if Stuck(s) {
      OwnersPointOn(store, s);
      var ts := StuckStateHasCircle(s);
      WaitCircleIsCircle(store, s, ts);
      AscendingIsNoCircle(store, RequestsOf(s, ts), StopsOf(s, ts));
    } else {
      var u :| u in s.txs && IsRunning(s, u) && !Waits(s, u);
      assert TxInv(s, u);
      assert Enabled(s, Take(u)) || Enabled(s, Commit(u));
    }
  }

  // ----- A transaction on its own -----

  function AloneSteps(r: Request): seq<Step> {
    [Begin(0, r)] + (Takes(0, |r.items|) + [Commit(0)])
  }

  /** With nobody else running, the steps of a transaction that can be served all go through and do what the request does. */
  lemma AloneIsSubmit(store: Store, r: Request)
    requires Servable(store, r)
    ensures ValidRun(Start(store), AloneSteps(r))
    ensures Submit(store, r).1.Ok? && Run(Start(store), AloneSteps(r)).store == Submit(store, r).0
  {
    var n := |r.items|;
    var begun := Apply(Start(store), Begin(0, r));
    assert FreeAhead(begun, 0, n);
    TakesRun(begun, 0, n);
    var taken := Run(begun, Takes(0, n));
    OneStep(taken, Commit(0));
    RunAppend(begun, Takes(0, n), [Commit(0)]);
    Prepend(Start(store), Begin(0, r), Takes(0, n) + [Commit(0)]);
    Prepend(Start(store), Begin(0, r), Takes(0, n));
    RunKeepsInv(store, Start(store), [Begin(0, r)] + Takes(0, n));
    CommitIsSubmit(taken, 0);
  }
}
