/**
  Order placement inside one database transaction.

  The session keeps two copies of a product row: the row the transaction reads from the
  database (`view`) and the row as modified in memory but not yet flushed (`pending`).  Automatic
  flushing is off, and the locking read of each item discards what is pending on the row it reads.
 */
module Orders {
  import opened Results

  type TenantId = nat
  type CustomerId = nat
  type ProductId = nat
  type Cents = int

  datatype OrderStatus =
    | Cart | PendingConfirmation | OrderCreated | PaymentPending | Paid | Processing | Fulfilled | Completed
    | Cancelled | PaymentFailed | Expired | RefundPending | Refunded | ReturnRequested | Returned | ExchangeRequested

  datatype Product = Product(tenant: TenantId, name: string, price: Cents, stock: int, stockStatus: string)
  datatype Item = Item(product: ProductId, quantity: int)
  datatype Line = Line(product: ProductId, name: string, unitPrice: Cents, quantity: int, subtotal: Cents)
  datatype Order = Order(tenant: TenantId, customer: CustomerId, status: OrderStatus,
                         subtotal: Cents, total: Cents, currency: string, lines: seq<Line>)
  datatype OrderError =
    | InvalidInitialStatus | InvalidQuantity | ProductNotFound | InsufficientStock | CustomerNotFound

  type Products = map<ProductId, Product>
  datatype Store = Store(products: Products, customers: map<CustomerId, TenantId>, orders: seq<Order>)

  /** What a call to place an order asks for. */
  datatype Request = Request(tenant: TenantId, customer: CustomerId, currency: string, items: seq<Item>)

  predicate ValidInitialStatus(status: OrderStatus) {
    status in {Cart, PendingConfirmation, OrderCreated}
  }

  // ----- What one transaction does, item by item -----

  /** The in-memory effect of the items handled so far. */
  datatype Draft = Draft(pending: Products, lines: seq<Line>, subtotal: Cents)

  const EMPTY_DRAFT := Draft(map[], [], 0)

  function Deduct(row: Product, quantity: int): Product {
    var stock := row.stock - quantity;
    row.(stock := stock, stockStatus := if stock == 0 then "OUT_OF_STOCK" else row.stockStatus)
  }

  predicate Found(rows: Products, tenant: TenantId, p: ProductId) {
    p in rows && rows[p].tenant == tenant
  }

  function TakeItem(rows: Products, tenant: TenantId, deduct: bool, draft: Draft, item: Item): Result<Draft, OrderError> {
    if item.quantity <= 0 then Err(InvalidQuantity)
    else if !Found(rows, tenant, item.product) then Err(ProductNotFound)
    else
      var row := rows[item.product];
      if deduct && row.stock < item.quantity then Err(InsufficientStock)
      else
        var clean := draft.pending - {item.product};
        var pending := if deduct then clean[item.product := Deduct(row, item.quantity)] else clean;
        var amount := row.price * item.quantity;
        Ok(Draft(pending,
                 draft.lines + [Line(item.product, row.name, row.price, item.quantity, amount)],
                 draft.subtotal + amount))
  }

  function TakeItems(rows: Products, tenant: TenantId, deduct: bool, items: seq<Item>): Result<Draft, OrderError> {
    if items == [] then Ok(EMPTY_DRAFT)
    else
      match TakeItems(rows, tenant, deduct, items[..|items| - 1])
      case Err(e) => Err(e)
      case Ok(draft) => TakeItem(rows, tenant, deduct, draft, items[|items| - 1])
  }

  function OrderOf(r: Request, status: OrderStatus, draft: Draft): Order {
    Order(r.tenant, r.customer, status, draft.subtotal, draft.subtotal, r.currency, draft.lines)
  }

  /** The store once a transaction with this draft has been flushed. */
  function Flushed(store: Store, order: Order, draft: Draft): Store {
    store.(products := store.products + draft.pending, orders := store.orders + [order])
  }

  function PlaceOrder(store: Store, r: Request, deduct: bool, status: OrderStatus): Result<(Store, Order), OrderError> {
    if !ValidInitialStatus(status) then Err(InvalidInitialStatus)
    else
      match TakeItems(store.products, r.tenant, deduct, r.items)
      case Err(e) => Err(e)
      case Ok(draft) =>
        var order := OrderOf(r, status, draft);
        Ok((Flushed(store, order, draft), order))
  }

  /** The whole request: existence checks, placement with deduction, commit or rollback. */
  function Submit(store: Store, r: Request): (Store, Result<Order, OrderError>) {
    if !(r.customer in store.customers && store.customers[r.customer] == r.tenant) then (store, Err(CustomerNotFound))
    else if exists i :: 0 <= i < |r.items| && !Found(store.products, r.tenant, r.items[i].product) then
      (store, Err(ProductNotFound))
    else
      match PlaceOrder(store, r, true, OrderCreated)
      case Err(e) => (store, Err(e))
      case Ok(placed) => (placed.0, Ok(placed.1))
  }

  // ----- The session that does it step by step -----

  class OrderSession {
    var committed: Store
    var view: Store
    var pending: Products

    ghost predicate Idle()
      reads this
    {
      view == committed && pending == map[]
    }

    constructor (store: Store)
      ensures committed == store && Idle()
    {
      committed, view, pending := store, store, map[];
    }

    method Flush()
      modifies this`view, this`pending
      ensures view == old(view).(products := old(view).products + old(pending)) && pending == map[]
    {
      view := view.(products := view.products + pending);
      pending := map[];
    }

    method Commit()
      modifies this
      ensures committed == old(view).(products := old(view).products + old(pending)) && Idle()
    {
      Flush();
      committed := view;
    }

    method Rollback()
      modifies this
      ensures committed == old(committed) && Idle()
    {
      view, pending := committed, map[];
    }

    method CreateOrderWithItems(r: Request, deduct: bool, status: OrderStatus) returns (result: Result<Order, OrderError>)
      requires Idle()
      modifies this
      ensures committed == old(committed)
      ensures match PlaceOrder(old(view), r, deduct, status)
              case Err(e) => result == Err(e)
              case Ok(placed) => result == Ok(placed.1) && view == placed.0 && pending == map[]
    {
      if !ValidInitialStatus(status) {
        return Err(InvalidInitialStatus);
      }
      var subtotal: Cents := 0;
      var lines: seq<Line> := [];
      var i := 0;
      while i < |r.items|
        invariant 0 <= i <= |r.items|
        invariant view == old(view) && committed == old(committed)
        invariant TakeItems(view.products, r.tenant, deduct, r.items[..i]) == Ok(Draft(pending, lines, subtotal))
      {
        var item := r.items[i];
        NextItem(view.products, r.tenant, deduct, r.items, i, Draft(pending, lines, subtotal));
        if item.quantity <= 0 {
          return Err(InvalidQuantity);
        }
        if !Found(view.products, r.tenant, item.product) {
          return Err(ProductNotFound);
        }
        var row := view.products[item.product];
        pending := pending - {item.product};  // the locking read refreshes the row in memory
        if deduct {
          if row.stock < item.quantity {
            return Err(InsufficientStock);
          }
          pending := pending[item.product := Deduct(row, item.quantity)];
        }
        var amount := row.price * item.quantity;
        subtotal := subtotal + amount;
        lines := lines + [Line(item.product, row.name, row.price, item.quantity, amount)];
        i := i + 1;
      }
      assert r.items[..i] == r.items;
      var order := Order(r.tenant, r.customer, status, subtotal, subtotal, r.currency, lines);
      view := view.(orders := view.orders + [order]);
      Flush();
      result := Ok(order);
    }

    method SubmitOrder(r: Request) returns (result: Result<Order, OrderError>)
      requires Idle()
      modifies this
      ensures Idle()
      ensures (committed, result) == Submit(old(committed), r)
    {
      if !(r.customer in view.customers && view.customers[r.customer] == r.tenant) {
        return Err(CustomerNotFound);
      }
      var i := 0;
      while i < |r.items|
        invariant 0 <= i <= |r.items|
        invariant forall k :: 0 <= k < i ==> Found(view.products, r.tenant, r.items[k].product)
      {
        if !Found(view.products, r.tenant, r.items[i].product) {
          return Err(ProductNotFound);
        }
        i := i + 1;
      }
      result := CreateOrderWithItems(r, true, OrderCreated);
      if result.Ok? {
        assert view.products + pending == view.products;
        Commit();
      } else {
        Rollback();
      }
    }
  }

  /** An item that fails decides the whole order. */
  lemma {:induction false} FailurePropagates(rows: Products, tenant: TenantId, deduct: bool, items: seq<Item>, n: nat)
    requires n <= |items| && TakeItems(rows, tenant, deduct, items[..n]).Err?
    ensures TakeItems(rows, tenant, deduct, items) == TakeItems(rows, tenant, deduct, items[..n])
    decreases |items| - n
  {
    if n == |items| {
      assert items[..n] == items;
    } else {
      assert items[..n + 1][..n] == items[..n];
      FailurePropagates(rows, tenant, deduct, items, n + 1);
    }
  }

  /** After the first `n` items, the next one either extends the draft or decides the order. */
  lemma NextItem(rows: Products, tenant: TenantId, deduct: bool, items: seq<Item>, n: nat, draft: Draft)
    requires n < |items| && TakeItems(rows, tenant, deduct, items[..n]) == Ok(draft)
    ensures TakeItems(rows, tenant, deduct, items[..n + 1]) == TakeItem(rows, tenant, deduct, draft, items[n])
    ensures TakeItem(rows, tenant, deduct, draft, items[n]).Err? ==>
              TakeItems(rows, tenant, deduct, items) == TakeItem(rows, tenant, deduct, draft, items[n])
  {
    assert items[..n + 1][..n] == items[..n];
    if TakeItem(rows, tenant, deduct, draft, items[n]).Err? {
      FailurePropagates(rows, tenant, deduct, items, n + 1);
    }
  }

  // ----- What a placed order means for stock -----

  predicate Distinct(items: seq<Item>) {
    forall i, j :: 0 <= i < j < |items| ==> items[i].product != items[j].product
  }

  predicate Mentions(items: seq<Item>, p: ProductId) {
    exists i :: 0 <= i < |items| && items[i].product == p
  }

  /** The total quantity of `p` that the order's lines sell. */
  function Ordered(items: seq<Item>, p: ProductId): int {
    if items == [] then 0
    else Ordered(items[..|items| - 1], p) + (if items[|items| - 1].product == p then items[|items| - 1].quantity else 0)
  }

  /** The quantity on the last line for `p`: the only one whose deduction survives. */
  function LastQuantity(items: seq<Item>, p: ProductId): int {
    if items == [] then 0
    else if items[|items| - 1].product == p then items[|items| - 1].quantity
    else LastQuantity(items[..|items| - 1], p)
  }

  predicate EffectAt(rows: Products, tenant: TenantId, items: seq<Item>, pending: Products, p: ProductId) {
    && (p in pending <==> Mentions(items, p))
    && (p in pending ==>
          && Found(rows, tenant, p)
          && 0 < LastQuantity(items, p) <= rows[p].stock
          && pending[p] == Deduct(rows[p], LastQuantity(items, p)))
    && (p !in pending ==> LastQuantity(items, p) == 0)
  }

  lemma MentionsLast(items: seq<Item>, p: ProductId)
    requires items != []
    ensures Mentions(items, p) <==> Mentions(items[..|items| - 1], p) || items[|items| - 1].product == p
  {
    var n := |items| - 1;
    if Mentions(items, p) && items[n].product != p {
      var i :| 0 <= i < |items| && items[i].product == p;
      assert items[..n][i].product == p;
    }
    if Mentions(items[..n], p) {
      var i :| 0 <= i < n && items[..n][i].product == p;
      assert items[i].product == p;
    }
  }

  lemma {:induction false} DraftEffectAt(rows: Products, tenant: TenantId, items: seq<Item>, p: ProductId)
    requires TakeItems(rows, tenant, true, items).Ok?
    ensures EffectAt(rows, tenant, items, TakeItems(rows, tenant, true, items).value.pending, p)
  {
    if items != [] {
      DraftEffectAt(rows, tenant, items[..|items| - 1], p);
      MentionsLast(items, p);
    }
  }

  lemma DraftEffect(rows: Products, tenant: TenantId, items: seq<Item>)
    requires TakeItems(rows, tenant, true, items).Ok?
    ensures var pending := TakeItems(rows, tenant, true, items).value.pending;
            && (forall p :: p in pending <==> Mentions(items, p))
            && (forall p :: p in pending ==>
                  && Found(rows, tenant, p)
                  && 0 < LastQuantity(items, p) <= rows[p].stock
                  && pending[p] == Deduct(rows[p], LastQuantity(items, p)))
            && (forall p :: p !in pending ==> LastQuantity(items, p) == 0)
  {
    forall p ensures EffectAt(rows, tenant, items, TakeItems(rows, tenant, true, items).value.pending, p) {
      DraftEffectAt(rows, tenant, items, p);
    }
  }

  /** Placement changes the stock of each product by its last line's quantity, and nothing else about any row. */
  lemma StockAfterOrder(store: Store, r: Request, status: OrderStatus)
    requires PlaceOrder(store, r, true, status).Ok?
    ensures var after := PlaceOrder(store, r, true, status).value.0;
            && after.products.Keys == store.products.Keys
            && forall p :: p in store.products ==>
                 && after.products[p].stock == store.products[p].stock - LastQuantity(r.items, p)
                 && after.products[p].tenant == store.products[p].tenant
                 && after.products[p].name == store.products[p].name
                 && after.products[p].price == store.products[p].price
                 && (Mentions(r.items, p) ==> after.products[p].stock >= 0)
                 && after.products[p].stockStatus ==
                    (if Mentions(r.items, p) && after.products[p].stock == 0 then "OUT_OF_STOCK" else store.products[p].stockStatus)
                 && (!Mentions(r.items, p) ==> after.products[p] == store.products[p])
  {
    DraftEffect(store.products, r.tenant, r.items);
  }

  lemma {:induction false} LastAtMostOrdered(items: seq<Item>, p: ProductId)
    requires forall i :: 0 <= i < |items| ==> items[i].quantity > 0
    ensures 0 <= LastQuantity(items, p) <= Ordered(items, p)
    ensures Mentions(items, p) ==> 0 < LastQuantity(items, p)
    ensures !Mentions(items, p) ==> Ordered(items, p) == 0
  {
    if items != [] {
      var prefix := items[..|items| - 1];
      LastAtMostOrdered(prefix, p);
      if Mentions(items, p) && items[|items| - 1].product != p {
        var i :| 0 <= i < |items| && items[i].product == p;
        assert prefix[i].product == p;
      }
      if Mentions(prefix, p) {
        var i :| 0 <= i < |prefix| && prefix[i].product == p;
        assert items[i].product == p;
      }
    }
  }

  /** Every line's deduction survives exactly when no product is listed twice. */
  lemma {:induction false} NothingLostIffDistinct(items: seq<Item>)
    requires forall i :: 0 <= i < |items| ==> items[i].quantity > 0
    ensures (forall p :: LastQuantity(items, p) == Ordered(items, p)) <==> Distinct(items)
  {
    if items != [] {
      var n := |items| - 1;
      var prefix, last := items[..n], items[n];
      NothingLostIffDistinct(prefix);
      forall p {
        LastAtMostOrdered(prefix, p);
      }
      if Distinct(items) {
        assert !Mentions(prefix, last.product);
        assert Distinct(prefix);
        forall p ensures LastQuantity(items, p) == Ordered(items, p) {
          assert LastQuantity(prefix, p) == Ordered(prefix, p);
        }
      } else if Distinct(prefix) {
        var i, j :| 0 <= i < j < |items| && items[i].product == items[j].product;
        assert j == n && prefix[i].product == last.product;
        assert Mentions(prefix, last.product);
        assert LastQuantity(items, last.product) < Ordered(items, last.product);
      } else {
        var p :| LastQuantity(prefix, p) != Ordered(prefix, p);
        assert LastQuantity(items, p) < Ordered(items, p);
      }
    }
  }

  lemma {:induction false} AcceptedItemsArePositive(rows: Products, tenant: TenantId, deduct: bool, items: seq<Item>)
    requires TakeItems(rows, tenant, deduct, items).Ok?
    ensures forall i :: 0 <= i < |items| ==> items[i].quantity > 0
  {
    if items != [] {
      AcceptedItemsArePositive(rows, tenant, deduct, items[..|items| - 1]);
      forall i | 0 <= i < |items| ensures items[i].quantity > 0 {
        if i < |items| - 1 {
          assert items[..|items| - 1][i] == items[i];
        }
      }
    }
  }

  /**
    Stock falls by exactly what was sold if and only if the order lists each product once:
    the guard a caller can check before placing it.
   */
  lemma StockConservedIffDistinct(store: Store, r: Request, status: OrderStatus)
    requires PlaceOrder(store, r, true, status).Ok?
    ensures var after := PlaceOrder(store, r, true, status).value.0;
            (forall p :: p in store.products ==> after.products[p].stock + Ordered(r.items, p) == store.products[p].stock)
            <==> Distinct(r.items)
  {
    StockAfterOrder(store, r, status);
    AcceptedItemsArePositive(store.products, r.tenant, true, r.items);
    NothingLostIffDistinct(r.items);
    DraftEffect(store.products, r.tenant, r.items);
    forall p | p !in store.products ensures LastQuantity(r.items, p) == Ordered(r.items, p) {
      LastAtMostOrdered(r.items, p);
    }
  }

  /** Ten units, an order for three and then four of them: only four leave the stock. */
  lemma DuplicateLinesLoseADeduction(tenant: TenantId, customer: CustomerId)
    ensures var store := Store(map[1 := Product(tenant, "tea", 500, 10, "IN_STOCK")], map[customer := tenant], []);
            var placed := Submit(store, Request(tenant, customer, "IDR", [Item(1, 3), Item(1, 4)]));
            placed.1.Ok? && placed.0.products[1].stock == 6 && placed.1.value.total == 3500
  {
    var store := Store(map[1 := Product(tenant, "tea", 500, 10, "IN_STOCK")], map[customer := tenant], []);
    var items := [Item(1, 3), Item(1, 4)];
    assert items[..1] == [Item(1, 3)] && items[..1][..0] == [];
    assert TakeItems(store.products, tenant, true, items[..1][..0]) == Ok(EMPTY_DRAFT);
    assert TakeItems(store.products, tenant, true, items[..1]).Ok?;
  }

  /** Which orders are accepted, with no reference to the order in which rows are visited. */
  lemma {:induction false} AcceptedExactlyWhen(rows: Products, tenant: TenantId, items: seq<Item>)
    ensures TakeItems(rows, tenant, true, items).Ok? <==>
            forall i :: 0 <= i < |items| ==>
              && items[i].quantity > 0
              && Found(rows, tenant, items[i].product)
              && items[i].quantity <= rows[items[i].product].stock
  {
    if items != [] {
      var n := |items| - 1;
      AcceptedExactlyWhen(rows, tenant, items[..n]);
      assert forall i :: 0 <= i < n ==> items[..n][i] == items[i];
    }
  }

  function SumOfLines(lines: seq<Line>): Cents {
    if lines == [] then 0 else SumOfLines(lines[..|lines| - 1]) + lines[|lines| - 1].subtotal
  }

  /** One line per item, in order, priced from the row read under its lock; the totals add up. */
  lemma {:induction false} LinesMatchItems(rows: Products, tenant: TenantId, deduct: bool, items: seq<Item>)
    requires TakeItems(rows, tenant, deduct, items).Ok?
    ensures var draft := TakeItems(rows, tenant, deduct, items).value;
            && draft.subtotal == SumOfLines(draft.lines)
            && |draft.lines| == |items|
            && forall i :: 0 <= i < |items| ==>
                 && items[i].product in rows
                 && draft.lines[i] == Line(items[i].product, rows[items[i].product].name, rows[items[i].product].price,
                                           items[i].quantity, rows[items[i].product].price * items[i].quantity)
  {
    if items != [] {
      var n := |items| - 1;
      LinesMatchItems(rows, tenant, deduct, items[..n]);
      var before := TakeItems(rows, tenant, deduct, items[..n]).value;
      var draft := TakeItems(rows, tenant, deduct, items).value;
      assert draft.lines[..n] == before.lines;
      forall i | 0 <= i < |items|
        ensures items[i].product in rows
        ensures draft.lines[i] == Line(items[i].product, rows[items[i].product].name, rows[items[i].product].price,
                                       items[i].quantity, rows[items[i].product].price * items[i].quantity)
      {
        if i < n {
          assert items[..n][i] == items[i];
          assert draft.lines[i] == before.lines[i];
        }
      }
    }
  }

  // ----- What is stored -----

  /** The request can be served: the customer is the tenant's, and so is every line's product, with enough stock. */
  predicate Servable(store: Store, r: Request) {
    && r.customer in store.customers && store.customers[r.customer] == r.tenant
    && forall i :: 0 <= i < |r.items| ==>
         && r.items[i].product in store.products
         && store.products[r.items[i].product].tenant == r.tenant
         && 0 < r.items[i].quantity <= store.products[r.items[i].product].stock
  }

  /** The order of a request: its tenant, customer and currency, one line per item at the stored name and price, and their sum. */
  predicate IsOrderOf(store: Store, r: Request, status: OrderStatus, order: Order) {
    && order.tenant == r.tenant && order.customer == r.customer && order.currency == r.currency
    && order.status == status
    && |order.lines| == |r.items|
    && (forall i :: 0 <= i < |r.items| ==>
          && r.items[i].product in store.products
          && order.lines[i].product == r.items[i].product
          && order.lines[i].quantity == r.items[i].quantity
          && order.lines[i].name == store.products[r.items[i].product].name
          && order.lines[i].unitPrice == store.products[r.items[i].product].price
          && order.lines[i].subtotal == store.products[r.items[i].product].price * r.items[i].quantity)
    && order.subtotal == order.total == SumOfLines(order.lines)
  }

  /** A placement, with or without deduction, appends exactly the order of its request; without deduction no product changes. */
  lemma PlacementStores(store: Store, r: Request, deduct: bool, status: OrderStatus)
    requires PlaceOrder(store, r, deduct, status).Ok?
    ensures var (after, order) := PlaceOrder(store, r, deduct, status).value;
            && after.orders == store.orders + [order]
            && after.customers == store.customers
            && IsOrderOf(store, r, status, order)
            && status in {Cart, PendingConfirmation, OrderCreated}
            && (!deduct ==> after.products == store.products)
  {
    LinesMatchItems(store.products, r.tenant, deduct, r.items);
    if !deduct {
      NothingPending(store.products, r.tenant, r.items);
    }
  }

  /** A placement may start in three states only; then it needs its products and quantities, and stock if it deducts. */
  lemma PlacementAcceptedIff(store: Store, r: Request, deduct: bool, status: OrderStatus)
    ensures PlaceOrder(store, r, deduct, status) == Err(InvalidInitialStatus) <==> status !in {Cart, PendingConfirmation, OrderCreated}
    ensures PlaceOrder(store, r, deduct, status).Ok? <==>
              && status in {Cart, PendingConfirmation, OrderCreated}
              && forall i :: 0 <= i < |r.items| ==>
                   && r.items[i].quantity > 0
                   && r.items[i].product in store.products && store.products[r.items[i].product].tenant == r.tenant
                   && (deduct ==> r.items[i].quantity <= store.products[r.items[i].product].stock)
  {
    TakenIff(store.products, r.tenant, deduct, r.items);
  }

  lemma {:induction false} TakenIff(rows: Products, tenant: TenantId, deduct: bool, items: seq<Item>)
    ensures TakeItems(rows, tenant, deduct, items) != Err(InvalidInitialStatus)
    ensures TakeItems(rows, tenant, deduct, items).Ok? <==>
            forall i :: 0 <= i < |items| ==>
              && items[i].quantity > 0
              && Found(rows, tenant, items[i].product)
              && (deduct ==> items[i].quantity <= rows[items[i].product].stock)
  {
    if items != [] {
      var n := |items| - 1;
      TakenIff(rows, tenant, deduct, items[..n]);
      assert forall i :: 0 <= i < n ==> items[..n][i] == items[i];
    }
  }

  lemma {:induction false} NothingPending(rows: Products, tenant: TenantId, items: seq<Item>)
    requires TakeItems(rows, tenant, false, items).Ok?
    ensures TakeItems(rows, tenant, false, items).value.pending == map[]
  {
    if items != [] {
      NothingPending(rows, tenant, items[..|items| - 1]);
    }
  }

  /** A submitted order is accepted exactly if it can be served; then the store gains the order, and otherwise nothing changes. */
  lemma SubmitStoresTheOrder(store: Store, r: Request)
    ensures Submit(store, r).1.Ok? <==> Servable(store, r)
    ensures var (after, reply) := Submit(store, r);
            && after.customers == store.customers
            && (reply.Ok? ==> after.orders == store.orders + [reply.value] && IsOrderOf(store, r, OrderCreated, reply.value))
            && (reply.Err? ==> after == store)
  {
    AcceptedExactlyWhen(store.products, r.tenant, r.items);
    if Servable(store, r) {
      assert forall i :: 0 <= i < |r.items| ==> Found(store.products, r.tenant, r.items[i].product);
    }
    if Submit(store, r).1.Ok? {
      PlacementStores(store, r, true, OrderCreated);
    }
  }

  /** The line that decides a refused order: every line before it could be served. */
  predicate FirstBadLine(store: Store, items: seq<Item>, n: nat) {
    && n < |items|
    && (forall i :: 0 <= i < n ==>
          items[i].product in store.products && 0 < items[i].quantity <= store.products[items[i].product].stock)
    && items[n].product in store.products
    && !(0 < items[n].quantity <= store.products[items[n].product].stock)
  }

  lemma BadLineDecides(store: Store, tenant: TenantId, items: seq<Item>, n: nat)
    requires forall i :: 0 <= i < |items| ==> Found(store.products, tenant, items[i].product)
    requires FirstBadLine(store, items, n)
    ensures TakeItems(store.products, tenant, true, items) ==
            Err(if items[n].quantity <= 0 then InvalidQuantity else InsufficientStock)
  {
    AcceptedExactlyWhen(store.products, tenant, items[..n]);
    NextItem(store.products, tenant, true, items, n, TakeItems(store.products, tenant, true, items[..n]).value);
  }

  lemma {:induction false} FindBadLine(store: Store, tenant: TenantId, items: seq<Item>) returns (n: nat)
    requires forall i :: 0 <= i < |items| ==> Found(store.products, tenant, items[i].product)
    requires TakeItems(store.products, tenant, true, items).Err?
    ensures FirstBadLine(store, items, n)
  {
    var init := items[..|items| - 1];
    if TakeItems(store.products, tenant, true, init).Err? {
      n := FindBadLine(store, tenant, init);
    } else {
      n := |items| - 1;
      AcceptedExactlyWhen(store.products, tenant, init);
      AcceptedExactlyWhen(store.products, tenant, items);
      assert forall i :: 0 <= i < n ==> init[i] == items[i];
    }
  }

  /** Why a submitted order is refused: no such customer, then no such product on any line, then the first line that fails. */
  lemma SubmitRefuses(store: Store, r: Request)
    ensures var reply := Submit(store, r).1;
            var known := r.customer in store.customers && store.customers[r.customer] == r.tenant;
            var present := forall i :: 0 <= i < |r.items| ==>
              r.items[i].product in store.products && store.products[r.items[i].product].tenant == r.tenant;
            && (reply == Err(CustomerNotFound) <==> !known)
            && (reply == Err(ProductNotFound) <==> known && !present)
            && (reply.Err? && known && present ==>
                  exists n: nat :: FirstBadLine(store, r.items, n) &&
                    reply.error == if r.items[n].quantity <= 0 then InvalidQuantity else InsufficientStock)
  {
    if forall i :: 0 <= i < |r.items| ==> Found(store.products, r.tenant, r.items[i].product) {
      if TakeItems(store.products, r.tenant, true, r.items).Err? {
        var n := FindBadLine(store, r.tenant, r.items);
        BadLineDecides(store, r.tenant, r.items, n);
      }
    }
  }
}
