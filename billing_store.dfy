/** The billing store behind the `/api/billing` routes: the five tables the
    routes read and write, and each route's transaction as a function from
    the old store to the new store and the response. A transaction that
    throws is rolled back: its function returns the old tables unchanged
    (only the auto-increment counter a rolled-back insert consumed stays
    advanced, as InnoDB does). */
module BillingStore {
  import opened Common
  import opened Identifiers
  import opened ProductTable

  // ------------------------------------------------------------- tables

  /** An `orders` row: surrogate key, `ORDnnnn` id, `CUS-YYYY-nnnn` id. */
  datatype OrderRow = OrderRow(key: int, orderId: string, customerId: string)

  /** An `order_items` row; money in cents. */
  datatype ItemRow = ItemRow(orderKey: int, productId: int, itemType: string,
                             quantity: int, price: int, deposit: int, total: int)

  datatype InvoiceStatus = Pending | Paid | Cancelled

  /** An `invoices` row: surrogate key, `INVnnnn` id, owning order's key. */
  datatype InvoiceRow = InvoiceRow(key: int, invoiceId: string, orderKey: int,
                                   totalAmount: int, status: InvoiceStatus)

  /** A `payments` row, pointing at an invoice's surrogate key. */
  datatype PaymentRow = PaymentRow(invoiceKey: int, amount: int, payMethod: string,
                                   amountPaid: int, changeAmount: int)

  /** The tables in insertion order, and the next surrogate keys the
      `orders` and `invoices` auto-increment columns will hand out. */
  datatype Store = Store(products: Products, orders: seq<OrderRow>, items: seq<ItemRow>,
                         invoices: seq<InvoiceRow>, payments: seq<PaymentRow>,
                         nextOrderKey: int, nextInvoiceKey: int)

  function OrderKeys(orders: seq<OrderRow>): set<int>
  {
    set o | o in orders :: o.key
  }

  function InvoiceKeys(invoices: seq<InvoiceRow>): set<int>
  {
    set v | v in invoices :: v.key
  }

  /** Keys of the invoices that belong to the order with key `orderKey`. */
  function InvoiceKeysOf(invoices: seq<InvoiceRow>, orderKey: int): set<int>
  {
    set v | v in invoices && v.orderKey == orderKey :: v.key
  }

  predicate OrdersIncreasing(orders: seq<OrderRow>)
  {
    forall i, j :: 0 <= i < j < |orders| ==> orders[i].key < orders[j].key
  }

  predicate InvoicesIncreasing(invoices: seq<InvoiceRow>)
  {
    forall i, j :: 0 <= i < j < |invoices| ==> invoices[i].key < invoices[j].key
  }

  /** The invariant every route keeps: stock is never negative, surrogate
      keys grow with insertion order and stay below the auto-increment
      counters, and no row points at a missing parent row. */
  predicate ValidStore(s: Store)
  {
    StockNonNegative(s.products)
    && OrdersIncreasing(s.orders) && InvoicesIncreasing(s.invoices)
    && (forall o :: o in s.orders ==> o.key < s.nextOrderKey)
    && (forall v :: v in s.invoices ==> v.key < s.nextInvoiceKey)
    && (forall r :: r in s.items ==> r.orderKey in OrderKeys(s.orders))
    && (forall v :: v in s.invoices ==> v.orderKey in OrderKeys(s.orders))
    && (forall p :: p in s.payments ==> p.invoiceKey in InvoiceKeys(s.invoices))
  }

  /** `SELECT SUM(total) FROM order_items WHERE order_id = ?` */
  function ItemsTotal(items: seq<ItemRow>, orderKey: int): int
  {
    if items == [] then 0
    else
      ItemsTotal(items[..|items| - 1], orderKey)
      + (if items[|items| - 1].orderKey == orderKey then items[|items| - 1].total else 0)
  }

  /** `SELECT SUM(amount) FROM payments WHERE invoice_id = ?` (0 for no row). */
  function PaidTotal(payments: seq<PaymentRow>, invoiceKey: int): int
  {
    if payments == [] then 0
    else
      PaidTotal(payments[..|payments| - 1], invoiceKey)
      + (if payments[|payments| - 1].invoiceKey == invoiceKey then payments[|payments| - 1].amount else 0)
  }

  lemma {:induction false} ItemsTotalAppend(a: seq<ItemRow>, b: seq<ItemRow>, orderKey: int)
    ensures ItemsTotal(a + b, orderKey) == ItemsTotal(a, orderKey) + ItemsTotal(b, orderKey)
  {
    if b == [] {
      assert a + b == a;
    } else {
      ItemsTotalAppend(a, b[..|b| - 1], orderKey);
      assert (a + b)[..|a + b| - 1] == a + b[..|b| - 1];
    }
  }

  lemma {:induction false} ItemsTotalOfOthers(items: seq<ItemRow>, orderKey: int)
    requires forall r :: r in items ==> r.orderKey != orderKey
    ensures ItemsTotal(items, orderKey) == 0
  {
    if items != [] {
      ItemsTotalOfOthers(items[..|items| - 1], orderKey);
    }
  }

  lemma {:induction false} PaidTotalOfOthers(payments: seq<PaymentRow>, invoiceKey: int)
    requires forall p :: p in payments ==> p.invoiceKey != invoiceKey
    ensures PaidTotal(payments, invoiceKey) == 0
  {
    if payments != [] {
      PaidTotalOfOthers(payments[..|payments| - 1], invoiceKey);
    }
  }

  lemma PaidTotalAppend(payments: seq<PaymentRow>, p: PaymentRow, invoiceKey: int)
    ensures PaidTotal(payments + [p], invoiceKey)
         == PaidTotal(payments, invoiceKey) + (if p.invoiceKey == invoiceKey then p.amount else 0)
  {
    assert (payments + [p])[..|payments|] == payments;
  }

  // ------------------------------------------------------- POST /orders

  /** One entry of the request's `items` array; `deposit` may be missing. */
  datatype ItemRequest = ItemRequest(productId: int, itemType: string, quantity: int,
                                     price: int, deposit: Option<int>, total: int)

  datatype OrderError = NoItems | ProductNotFound(productId: int) | InsufficientStock(itemType: string)

  /** What the route reports about the order it created. */
  datatype PlacedOrder = PlacedOrder(orderKey: int, orderId: string, customerId: string,
                                     invoiceKey: int, invoiceId: string, totalAmount: int)

  function Lines(req: seq<ItemRequest>): (ls: seq<Line>)
    ensures |ls| == |req|
    ensures forall i :: 0 <= i < |req| ==> ls[i] == Line(req[i].productId, req[i].quantity)
  {
    seq(|req|, i requires 0 <= i < |req| => Line(req[i].productId, req[i].quantity))
  }

  /** `item.deposit || 0` */
  function DepositOrZero(d: Option<int>): int
  {
    match d
    case None => 0
    case Some(v) => v
  }

  function ItemRowOf(orderKey: int, r: ItemRequest): ItemRow
  {
    ItemRow(orderKey, r.productId, r.itemType, r.quantity, r.price, DepositOrZero(r.deposit), r.total)
  }

  function ItemRows(orderKey: int, req: seq<ItemRequest>): (rows: seq<ItemRow>)
    ensures |rows| == |req|
    ensures forall i :: 0 <= i < |req| ==> rows[i] == ItemRowOf(orderKey, req[i])
  {
    seq(|req|, i requires 0 <= i < |req| => ItemRowOf(orderKey, req[i]))
  }

  /** The sum of the `total` fields of the request. */
  function RequestTotal(req: seq<ItemRequest>): int
  {
    if req == [] then 0 else RequestTotal(req[..|req| - 1]) + req[|req| - 1].total
  }

  function OrderIds(orders: seq<OrderRow>): seq<string>
  {
    seq(|orders|, i requires 0 <= i < |orders| => orders[i].orderId)
  }

  function InvoiceIds(invoices: seq<InvoiceRow>): seq<string>
  {
    seq(|invoices|, i requires 0 <= i < |invoices| => invoices[i].invoiceId)
  }

  /** `SELECT customer_id FROM orders ORDER BY id DESC LIMIT 1` */
  function LatestCustomer(orders: seq<OrderRow>): Lookup
  {
    if orders == [] then NoRows else FirstRow(orders[|orders| - 1].customerId)
  }

  function ShortageError(req: seq<ItemRequest>, e: ReserveError): OrderError
    requires e.index < |req|
  {
    match e.reason
    case NotFound => ProductNotFound(req[e.index].productId)
    case Insufficient => InsufficientStock(req[e.index].itemType)
  }

  /** The three identifiers POST /orders issues, read from the store
      before anything is inserted. */
  datatype NewIds = NewIds(orderId: string, customerId: string, invoiceId: string)

  /** `ORDnnnn` after the newest order, `CUS-<year>-nnnn` after the newest
      order's customer, `INVnnnn` after the newest invoice. */
  function AllocateIds(s: Store, year: int): NewIds
  {
    NewIds(NextId("ORD", Last(OrderIds(s.orders))),
           NextCustomerId(year, LatestCustomer(s.orders)),
           NextId("INV", Last(InvoiceIds(s.invoices))))
  }

  /** POST /orders with the identifiers `ids`; `items` is `None` when the
      body has no `items` array. The route itself is
      `PlaceOrder(s, items, AllocateIds(s, year))`. */
  function PlaceOrder(s: Store, items: Option<seq<ItemRequest>>, ids: NewIds): (Store, Result<PlacedOrder, OrderError>)
  {
    if items.None? || items.value == [] then (s, Err(NoItems))
    else
      var req := items.value;
      var key := s.nextOrderKey;
      match Reserve(s.products, Lines(req))
      case Err(e) =>
        ReserveErrorIsFirst(s.products, Lines(req));
        (s.(nextOrderKey := key + 1), Err(ShortageError(req, e)))
      case Ok(products) =>
        var items' := s.items + ItemRows(key, req);
        var invoice := InvoiceRow(s.nextInvoiceKey, ids.invoiceId, key, ItemsTotal(items', key), Pending);
        (Store(products, s.orders + [OrderRow(key, ids.orderId, ids.customerId)], items',
               s.invoices + [invoice], s.payments, key + 1, s.nextInvoiceKey + 1),
         Ok(PlacedOrder(key, ids.orderId, ids.customerId, invoice.key, ids.invoiceId, invoice.totalAmount)))
  }

  /** A refused order leaves every table as it was; only the order key the
      rolled-back insert consumed may be gone. */
  lemma PlaceOrderAllOrNothing(s: Store, items: Option<seq<ItemRequest>>, ids: NewIds)
    ensures var (s', r) := PlaceOrder(s, items, ids);
      r.Err? ==> s'.(nextOrderKey := s.nextOrderKey) == s && s'.nextOrderKey >= s.nextOrderKey
  {
  }

  /** An order is accepted exactly when it has items and each item's
      product exists with enough stock left by the items before it. */
  lemma PlaceOrderSucceedsIff(s: Store, items: Option<seq<ItemRequest>>, ids: NewIds)
    ensures PlaceOrder(s, items, ids).1.Ok?
        <==> items.Some? && items.value != []
             && forall k :: 0 <= k < |items.value| ==> LineCovered(s.products, Lines(items.value), k)
  {
    if items.Some? {
      ReserveSucceedsIff(s.products, Lines(items.value));
    }
  }

  /** A refused order names the first item that failed. */
  lemma PlaceOrderReportsFirstFailure(s: Store, req: seq<ItemRequest>, ids: NewIds)
    requires req != [] && PlaceOrder(s, Some(req), ids).1.Err?
    ensures exists k :: (0 <= k < |req|
      && Reserve(s.products, Lines(req)[..k]).Ok?
      && !LineCovered(s.products, Lines(req), k)
      && PlaceOrder(s, Some(req), ids).1.error
         == (if req[k].productId !in s.products then ProductNotFound(req[k].productId)
             else InsufficientStock(req[k].itemType)))
  {
    var ls := Lines(req);
    ReserveErrorIsFirst(s.products, ls);
    var e := Reserve(s.products, ls).error;
    var k := e.index;
    var pre := ls[..k];
    ReserveEffect(s.products, pre);
    var id := req[k].productId;
    assert ls[k] == Line(id, req[k].quantity);
    if id in s.products {
      assert Reserve(s.products, pre).value[id].stock == s.products[id].stock - QuantityFor(pre, id);
    }
  }

  /** A successful order takes off each product's stock exactly the
      quantity ordered of it, and no stock goes negative. */
  lemma PlaceOrderStock(s: Store, req: seq<ItemRequest>, ids: NewIds)
    requires PlaceOrder(s, Some(req), ids).1.Ok?
    ensures PlaceOrder(s, Some(req), ids).0.products.Keys == s.products.Keys
    ensures forall id :: id in s.products ==>
      PlaceOrder(s, Some(req), ids).0.products[id]
        == s.products[id].(stock := s.products[id].stock - QuantityFor(Lines(req), id))
    ensures StockNonNegative(s.products) ==> StockNonNegative(PlaceOrder(s, Some(req), ids).0.products)
  {
    ReserveEffect(s.products, Lines(req));
    if StockNonNegative(s.products) {
      ReserveKeepsStockNonNegative(s.products, Lines(req));
    }
  }

  /** A successful order appends one order row, one item row per requested
      item and one pending invoice row, and leaves the payments alone. */
  lemma PlaceOrderRows(s: Store, req: seq<ItemRequest>, ids: NewIds)
    requires PlaceOrder(s, Some(req), ids).1.Ok?
    ensures PlaceOrder(s, Some(req), ids).0.orders
         == s.orders + [OrderRow(s.nextOrderKey, ids.orderId, ids.customerId)]
    ensures PlaceOrder(s, Some(req), ids).0.items == s.items + ItemRows(s.nextOrderKey, req)
    ensures PlaceOrder(s, Some(req), ids).0.invoices
         == s.invoices + [InvoiceRow(s.nextInvoiceKey, ids.invoiceId, s.nextOrderKey,
                                     PlaceOrder(s, Some(req), ids).1.value.totalAmount, Pending)]
    ensures PlaceOrder(s, Some(req), ids).0.payments == s.payments
    ensures PlaceOrder(s, Some(req), ids).0.nextOrderKey == s.nextOrderKey + 1
    ensures PlaceOrder(s, Some(req), ids).0.nextInvoiceKey == s.nextInvoiceKey + 1
    ensures PlaceOrder(s, Some(req), ids).1.value.orderKey == s.nextOrderKey
    ensures PlaceOrder(s, Some(req), ids).1.value.invoiceKey == s.nextInvoiceKey
    ensures PlaceOrder(s, Some(req), ids).1.value.invoiceId == ids.invoiceId
  {
  }

  /** The invoice total the route reads back with `SUM(total)` is the sum
      of the requested item totals: no earlier item row carries the new
      order's key. */
  lemma PlaceOrderTotal(s: Store, req: seq<ItemRequest>, ids: NewIds)
    requires ValidStore(s) && PlaceOrder(s, Some(req), ids).1.Ok?
    ensures PlaceOrder(s, Some(req), ids).1.value.totalAmount == RequestTotal(req)
  {
    var key := s.nextOrderKey;
    ItemsTotalAppend(s.items, ItemRows(key, req), key);
    assert forall r :: r in s.items ==> r.orderKey != key by {
      forall r | r in s.items ensures r.orderKey != key {
        var o :| o in s.orders && o.key == r.orderKey;
      }
    }
    ItemsTotalOfOthers(s.items, key);
    ItemsTotalOfRows(key, req);
  }

  lemma {:induction false} ItemsTotalOfRows(key: int, req: seq<ItemRequest>)
    ensures ItemsTotal(ItemRows(key, req), key) == RequestTotal(req)
  {
    if req != [] {
      var n := |req| - 1;
      ItemsTotalOfRows(key, req[..n]);
      assert ItemRows(key, req)[..n] == ItemRows(key, req[..n]);
    }
  }

  lemma PlaceOrderKeepsValid(s: Store, items: Option<seq<ItemRequest>>, ids: NewIds)
    requires ValidStore(s)
    ensures ValidStore(PlaceOrder(s, items, ids).0)
  {
    if PlaceOrder(s, items, ids).1.Ok? {
      var req, key := items.value, s.nextOrderKey;
      PlaceOrderStock(s, req, ids);
      PlaceOrderRows(s, req, ids);
      AppendOrderKeepsValid(s, PlaceOrder(s, items, ids).0.products,
                            OrderRow(key, ids.orderId, ids.customerId), ItemRows(key, req),
                            InvoiceRow(s.nextInvoiceKey, ids.invoiceId, key,
                                       PlaceOrder(s, items, ids).1.value.totalAmount, Pending));
    }
  }

  /** Appending an order under the next order key, rows of that order and
      an invoice of it under the next invoice key keeps the store valid. */
  lemma AppendOrderKeepsValid(s: Store, products: Products, order: OrderRow,
                              rows: seq<ItemRow>, invoice: InvoiceRow)
    requires ValidStore(s) && StockNonNegative(products)
    requires order.key == s.nextOrderKey && invoice.key == s.nextInvoiceKey
    requires invoice.orderKey == order.key
    requires forall r :: r in rows ==> r.orderKey == order.key
    ensures ValidStore(Store(products, s.orders + [order], s.items + rows, s.invoices + [invoice],
                             s.payments, s.nextOrderKey + 1, s.nextInvoiceKey + 1))
  {
    var orders, invoices := s.orders + [order], s.invoices + [invoice];
    assert OrderKeys(orders) == OrderKeys(s.orders) + {order.key};
    assert InvoiceKeys(invoices) == InvoiceKeys(s.invoices) + {invoice.key};
  }

  // ----------------------------------------------------- POST /payments

  /** The request body; `amount` is `parseFloat(amount)` in cents, `None`
      when it is missing, falsy or NaN; a missing string is `""`. */
  datatype PaymentRequest = PaymentRequest(invoiceId: string, amount: Option<int>, payMethod: string)

  datatype PayError = MissingInvoiceId | InvalidAmount | MissingMethod | UnknownInvoice | AlreadyPaid

  /** `payment_details` of the response. */
  datatype PaymentDetails = PaymentDetails(invoiceId: string, amount: int, totalPaid: int, remaining: int)

  /** `SELECT ... FROM invoices WHERE invoice_id = ?`: the first matching row. */
  function FindInvoice(invoices: seq<InvoiceRow>, invoiceId: string): (r: Option<nat>)
    ensures r.Some? ==> r.value < |invoices| && invoices[r.value].invoiceId == invoiceId
                        && forall j :: 0 <= j < r.value ==> invoices[j].invoiceId != invoiceId
    ensures r.None? ==> forall j :: 0 <= j < |invoices| ==> invoices[j].invoiceId != invoiceId
  {
    if invoices == [] then None
    else if invoices[0].invoiceId == invoiceId then Some(0)
    else match FindInvoice(invoices[1..], invoiceId)
      case None => None
      case Some(i) => Some(i + 1)
  }

  /** `UPDATE invoices SET status = "paid" WHERE id = ?` */
  function MarkPaid(invoices: seq<InvoiceRow>, key: int): (r: seq<InvoiceRow>)
    ensures |r| == |invoices|
    ensures forall j :: 0 <= j < |invoices| ==>
      r[j] == if invoices[j].key == key then invoices[j].(status := Paid) else invoices[j]
  {
    seq(|invoices|, j requires 0 <= j < |invoices| =>
      if invoices[j].key == key then invoices[j].(status := Paid) else invoices[j])
  }

  function PayCheck(s: Store, req: PaymentRequest): Result<nat, PayError>
  {
    if req.invoiceId == "" then Err(MissingInvoiceId)
    else if req.amount.None? || req.amount.value <= 0 then Err(InvalidAmount)
    else if req.payMethod == "" then Err(MissingMethod)
    else match FindInvoice(s.invoices, req.invoiceId)
      case None => Err(UnknownInvoice)
      case Some(i) => if s.invoices[i].status == Paid then Err(AlreadyPaid) else Ok(i)
  }

  /** POST /payments. */
  function Pay(s: Store, req: PaymentRequest): (Store, Result<PaymentDetails, PayError>)
  {
    match PayCheck(s, req)
    case Err(e) => (s, Err(e))
    case Ok(i) =>
      var inv := s.invoices[i];
      var a := req.amount.value;
      var payments := s.payments + [PaymentRow(inv.key, a, req.payMethod, a, 0)];
      var paid := PaidTotal(payments, inv.key);
      var invoices := if paid >= inv.totalAmount then MarkPaid(s.invoices, inv.key) else s.invoices;
      (s.(payments := payments, invoices := invoices),
       Ok(PaymentDetails(req.invoiceId, a, paid, inv.totalAmount - paid)))
  }

  /** A payment is refused, with the ledger untouched, exactly when the id,
      amount or method is missing or invalid, the invoice is unknown, or it
      is already paid. */
  lemma PayRefusedIff(s: Store, req: PaymentRequest)
    ensures var (s', r) := Pay(s, req);
      (r.Err? ==> s' == s)
      && (r.Err? <==>
            req.invoiceId == "" || req.amount.None? || req.amount.value <= 0 || req.payMethod == ""
            || FindInvoice(s.invoices, req.invoiceId).None?
            || s.invoices[FindInvoice(s.invoices, req.invoiceId).value].status == Paid)
  {
  }

  /** An accepted payment appends exactly one row (amount paid = amount,
      no change) and reports the invoice's new paid sum and the remaining
      balance, which may be negative. */
  lemma PayLedger(s: Store, req: PaymentRequest, i: nat)
    requires PayCheck(s, req) == Ok(i)
    ensures i < |s.invoices| && Pay(s, req).1.Ok?
    ensures Pay(s, req).0.payments
         == s.payments + [PaymentRow(s.invoices[i].key, req.amount.value, req.payMethod, req.amount.value, 0)]
    ensures Pay(s, req).1.value.amount == req.amount.value
    ensures Pay(s, req).1.value.totalPaid == PaidTotal(s.payments, s.invoices[i].key) + req.amount.value
    ensures Pay(s, req).1.value.totalPaid == PaidTotal(Pay(s, req).0.payments, s.invoices[i].key)
    ensures Pay(s, req).1.value.remaining == s.invoices[i].totalAmount - Pay(s, req).1.value.totalPaid
    ensures Pay(s, req).0.(payments := s.payments, invoices := s.invoices) == s
  {
    var inv := s.invoices[i];
    PaidTotalAppend(s.payments, PaymentRow(inv.key, req.amount.value, req.payMethod, req.amount.value, 0), inv.key);
  }

  /** An accepted payment marks the paid invoice `paid` exactly when the
      paid sum reaches its total, and touches no other invoice. */
  lemma PayStatus(s: Store, req: PaymentRequest, i: nat)
    requires InvoicesIncreasing(s.invoices) && PayCheck(s, req) == Ok(i)
    ensures i < |s.invoices| && Pay(s, req).1.Ok?
    ensures |Pay(s, req).0.invoices| == |s.invoices|
    ensures Pay(s, req).0.invoices[i]
         == s.invoices[i].(status := if Pay(s, req).1.value.totalPaid >= s.invoices[i].totalAmount
                                     then Paid else s.invoices[i].status)
    ensures forall j :: 0 <= j < |s.invoices| && j != i ==> Pay(s, req).0.invoices[j] == s.invoices[j]
  {
    var inv := s.invoices[i];
    forall j | 0 <= j < |s.invoices| && j != i ensures s.invoices[j].key != inv.key {
      if j < i {
        assert s.invoices[j].key < inv.key;
      } else {
        assert s.invoices[i].key < s.invoices[j].key;
      }
    }
  }

  /** The status rule never moves an invoice out of `paid`. */
  lemma PayKeepsPaid(s: Store, req: PaymentRequest, j: nat)
    requires j < |s.invoices| && s.invoices[j].status == Paid
    ensures |Pay(s, req).0.invoices| == |s.invoices| && Pay(s, req).0.invoices[j].status == Paid
  {
  }

  lemma PayKeepsValid(s: Store, req: PaymentRequest)
    requires ValidStore(s)
    ensures ValidStore(Pay(s, req).0)
  {
    if PayCheck(s, req).Ok? {
      var i := PayCheck(s, req).value;
      PayLedger(s, req, i);
      PayStatus(s, req, i);
      var s' := Pay(s, req).0;
      assert s.invoices[i] in s.invoices;
      SameInvoiceKeysKeepsValid(s, s'.invoices, s'.payments);
      assert s' == s.(invoices := s'.invoices, payments := s'.payments);
    }
  }

  /** Changing only invoice statuses, and adding payments to existing
      invoices, keeps the store valid. */
  lemma SameInvoiceKeysKeepsValid(s: Store, invoices: seq<InvoiceRow>, payments: seq<PaymentRow>)
    requires ValidStore(s)
    requires |invoices| == |s.invoices|
    requires forall j :: 0 <= j < |invoices| ==>
      invoices[j].key == s.invoices[j].key && invoices[j].orderKey == s.invoices[j].orderKey
    requires forall p :: p in payments ==> p.invoiceKey in InvoiceKeys(s.invoices)
    ensures ValidStore(s.(invoices := invoices, payments := payments))
  {
    forall v | v in invoices ensures v.key < s.nextInvoiceKey && v.orderKey in OrderKeys(s.orders) {
      var j :| 0 <= j < |invoices| && invoices[j] == v;
      assert s.invoices[j] in s.invoices;
    }
    forall p | p in payments ensures p.invoiceKey in InvoiceKeys(invoices) {
      var v :| v in s.invoices && v.key == p.invoiceKey;
      var j :| 0 <= j < |s.invoices| && s.invoices[j] == v;
      assert invoices[j] in invoices;
    }
  }

  /** Payments applied one after another. */
  function PayAll(s: Store, reqs: seq<PaymentRequest>): (Store, seq<Result<PaymentDetails, PayError>>)
  {
    if reqs == [] then (s, [])
    else
      var before := PayAll(s, reqs[..|reqs| - 1]);
      var last := Pay(before.0, reqs[|reqs| - 1]);
      (last.0, before.1 + [last.1])
  }

  function AmountsOf(reqs: seq<PaymentRequest>): seq<int>
  {
    seq(|reqs|, k requires 0 <= k < |reqs| => if reqs[k].amount.Some? then reqs[k].amount.value else 0)
  }

  /** Requests that each pay a positive amount by a named method into
      the invoice `inv`. */
  predicate Instalments(inv: InvoiceRow, reqs: seq<PaymentRequest>)
  {
    forall k :: 0 <= k < |reqs| ==>
      reqs[k].invoiceId == inv.invoiceId && reqs[k].payMethod != ""
      && reqs[k].amount.Some? && reqs[k].amount.value > 0
  }

  /** `b` holds the invoices of `a`, in the same order, with the same
      `invoice_id` and key (statuses may differ). */
  predicate SameInvoiceIds(a: seq<InvoiceRow>, b: seq<InvoiceRow>)
  {
    |a| == |b| && forall j :: 0 <= j < |a| ==> b[j].invoiceId == a[j].invoiceId && b[j].key == a[j].key
  }

  /** The outcome `out` of paying `reqs` into invoice `i` of `s`: every
      instalment accepted, the paid sum grown by all the amounts, the other
      invoices' ids and keys untouched, and invoice `i` `paid` exactly when the
      final sum reaches its total. */
  predicate Settled(s: Store, i: nat, reqs: seq<PaymentRequest>,
                    out: (Store, seq<Result<PaymentDetails, PayError>>))
    requires i < |s.invoices|
  {
    var key := s.invoices[i].key;
    |out.1| == |reqs| && (forall k :: 0 <= k < |reqs| ==> out.1[k].Ok?)
    && PaidTotal(out.0.payments, key) == PaidTotal(s.payments, key) + Sum(AmountsOf(reqs))
    && SameInvoiceIds(s.invoices, out.0.invoices)
    && out.0.invoices[i]
       == s.invoices[i].(status :=
            if reqs != [] && PaidTotal(s.payments, key) + Sum(AmountsOf(reqs)) >= s.invoices[i].totalAmount
            then Paid else Pending)
  }

  /** Valid instalments for one pending invoice: as long as the sum paid
      before the last instalment stays below the total, the instalments
      settle the invoice as `Settled` describes. */
  lemma {:induction false} InstalmentsSettle(s: Store, i: nat, reqs: seq<PaymentRequest>)
    requires InvoicesIncreasing(s.invoices)
    requires i < |s.invoices| && s.invoices[i].status == Pending && s.invoices[i].invoiceId != ""
    requires FindInvoice(s.invoices, s.invoices[i].invoiceId) == Some(i)
    requires Instalments(s.invoices[i], reqs)
    requires reqs != [] ==>
      PaidTotal(s.payments, s.invoices[i].key) + Sum(AmountsOf(reqs)[..|reqs| - 1]) < s.invoices[i].totalAmount
    ensures Settled(s, i, reqs, PayAll(s, reqs))
  {
    if reqs != [] {
      var n := |reqs| - 1;
      var amounts := AmountsOf(reqs);
      assert AmountsOf(reqs[..n]) == amounts[..n];
      if n > 0 {
        assert AmountsOf(reqs[..n])[..n - 1] == amounts[..n - 1];
        SumNonNegativeBelow(amounts, n);
      }
      InstalmentsSettle(s, i, reqs[..n]);
      SettleStep(s, i, reqs);
    }
  }

  /** The last instalment on top of the earlier ones. */
  lemma {:induction false} SettleStep(s: Store, i: nat, reqs: seq<PaymentRequest>)
    requires InvoicesIncreasing(s.invoices)
    requires i < |s.invoices| && s.invoices[i].status == Pending && s.invoices[i].invoiceId != ""
    requires FindInvoice(s.invoices, s.invoices[i].invoiceId) == Some(i)
    requires Instalments(s.invoices[i], reqs) && reqs != []
    requires PaidTotal(s.payments, s.invoices[i].key) + Sum(AmountsOf(reqs)[..|reqs| - 1]) < s.invoices[i].totalAmount
    requires Settled(s, i, reqs[..|reqs| - 1], PayAll(s, reqs[..|reqs| - 1]))
    ensures Settled(s, i, reqs, PayAll(s, reqs))
  {
    var n, key := |reqs| - 1, s.invoices[i].key;
    var mid := PayAll(s, reqs[..n]);
    var last := Pay(mid.0, reqs[n]);
    assert PayAll(s, reqs) == (last.0, mid.1 + [last.1]);
    var total := PaidTotal(s.payments, key) + Sum(AmountsOf(reqs));
    assert total == PaidTotal(mid.0.payments, key) + reqs[n].amount.value by {
      SumOfAmounts(reqs);
    }
    assert mid.0.invoices[i] == s.invoices[i] by {
      assert PaidTotal(s.payments, key) + Sum(AmountsOf(reqs[..n])) < s.invoices[i].totalAmount by {
        AmountsOfPrefix(reqs, n);
      }
    }
    PendingPayment(s, mid.0, i, reqs[n]);
  }

  lemma AmountsOfPrefix(reqs: seq<PaymentRequest>, n: nat)
    requires n <= |reqs|
    ensures AmountsOf(reqs[..n]) == AmountsOf(reqs)[..n]
  {
  }

  lemma SumOfAmounts(reqs: seq<PaymentRequest>)
    requires reqs != [] && reqs[|reqs| - 1].amount.Some?
    ensures Sum(AmountsOf(reqs))
         == Sum(AmountsOf(reqs[..|reqs| - 1])) + reqs[|reqs| - 1].amount.value
  {
    var n := |reqs| - 1;
    var amounts := AmountsOf(reqs);
    AmountsOfPrefix(reqs, n);
    assert amounts == amounts[..n] + [amounts[n]];
    SumAppend(amounts[..n], [amounts[n]]);
    assert Sum([amounts[n]]) == amounts[n] by {
      assert [amounts[n]][..0] == [];
    }
  }

  /** One instalment on a pending invoice `i` of a store `m` that differs
      from `s` only in payments and statuses. */
  lemma PendingPayment(s: Store, m: Store, i: nat, req: PaymentRequest)
    requires InvoicesIncreasing(s.invoices) && SameInvoiceIds(s.invoices, m.invoices)
    requires i < |s.invoices| && m.invoices[i] == s.invoices[i] && s.invoices[i].status == Pending
    requires s.invoices[i].invoiceId != ""
    requires FindInvoice(s.invoices, s.invoices[i].invoiceId) == Some(i)
    requires req.invoiceId == s.invoices[i].invoiceId && req.payMethod != ""
    requires req.amount.Some? && req.amount.value > 0
    ensures Pay(m, req).1.Ok?
    ensures PaidTotal(Pay(m, req).0.payments, s.invoices[i].key)
         == PaidTotal(m.payments, s.invoices[i].key) + req.amount.value
    ensures SameInvoiceIds(s.invoices, Pay(m, req).0.invoices)
    ensures Pay(m, req).0.invoices[i]
         == s.invoices[i].(status :=
              if PaidTotal(m.payments, s.invoices[i].key) + req.amount.value >= s.invoices[i].totalAmount
              then Paid else Pending)
  {
    assert InvoicesIncreasing(m.invoices);
    FindInvoiceSameIds(s.invoices, m.invoices, req.invoiceId);
    assert PayCheck(m, req) == Ok(i);
    PayLedger(m, req, i);
    PayStatus(m, req, i);
  }

  lemma SumNonNegativeBelow(amounts: seq<int>, n: nat)
    requires 0 < n <= |amounts|
    requires forall k :: 0 <= k < |amounts| ==> amounts[k] > 0
    ensures Sum(amounts[..n - 1]) < Sum(amounts[..n])
  {
    assert amounts[..n] == amounts[..n - 1] + [amounts[n - 1]];
    SumAppend(amounts[..n - 1], [amounts[n - 1]]);
    assert Sum([amounts[n - 1]]) == amounts[n - 1] by {
      assert [amounts[n - 1]][..0] == [];
    }
  }

  lemma FindInvoiceSameIds(a: seq<InvoiceRow>, b: seq<InvoiceRow>, invoiceId: string)
    requires |a| == |b| && forall j :: 0 <= j < |a| ==> a[j].invoiceId == b[j].invoiceId
    ensures FindInvoice(a, invoiceId) == FindInvoice(b, invoiceId)
  {
    if a != [] {
      FindInvoiceSameIds(a[1..], b[1..], invoiceId);
    }
  }

  // ---------------------------------------------- DELETE /orders/:id

  /** DELETE /orders/:id: the order's payments (through its invoices), its
      invoices, its items and the order itself; stock is not given back. */
  function DeleteOrder(s: Store, key: int): Store
  {
    var doomed := InvoiceKeysOf(s.invoices, key);
    s.(payments := Filter(s.payments, (p: PaymentRow) => p.invoiceKey !in doomed),
       invoices := Filter(s.invoices, (v: InvoiceRow) => v.orderKey != key),
       items := Filter(s.items, (r: ItemRow) => r.orderKey != key),
       orders := Filter(s.orders, (o: OrderRow) => o.key != key))
  }

  /** After the delete nothing of the order is left, every row of other
      orders is kept, and the products are untouched. */
  lemma DeleteOrderEffect(s: Store, key: int)
    ensures var s' := DeleteOrder(s, key);
      (forall o :: o in s'.orders ==> o.key != key)
      && (forall r :: r in s'.items ==> r.orderKey != key)
      && (forall v :: v in s'.invoices ==> v.orderKey != key)
      && (forall p :: p in s'.payments ==> p.invoiceKey !in InvoiceKeysOf(s.invoices, key))
      && (forall o :: o in s.orders && o.key != key ==> o in s'.orders)
      && (forall r :: r in s.items && r.orderKey != key ==> r in s'.items)
      && (forall v :: v in s.invoices && v.orderKey != key ==> v in s'.invoices)
      && (forall p :: p in s.payments && p.invoiceKey !in InvoiceKeysOf(s.invoices, key) ==> p in s'.payments)
      && s'.products == s.products
  {
  }

  lemma DeleteOrderKeepsValid(s: Store, key: int)
    requires ValidStore(s)
    ensures ValidStore(DeleteOrder(s, key))
  {
    var s' := DeleteOrder(s, key);
    DeleteOrderEffect(s, key);
    FilterKeepsIncreasing(s.orders, (o: OrderRow) => o.key != key, (o: OrderRow) => o.key);
    FilterKeepsIncreasing(s.invoices, (v: InvoiceRow) => v.orderKey != key, (v: InvoiceRow) => v.key);
    forall r | r in s'.items ensures r.orderKey in OrderKeys(s'.orders) {
      var o :| o in s.orders && o.key == r.orderKey;
    }
    forall v | v in s'.invoices ensures v.orderKey in OrderKeys(s'.orders) {
      var o :| o in s.orders && o.key == v.orderKey;
    }
    forall p | p in s'.payments ensures p.invoiceKey in InvoiceKeys(s'.invoices) {
      var v :| v in s.invoices && v.key == p.invoiceKey;
      assert v.key in InvoiceKeysOf(s.invoices, v.orderKey);
    }
  }

  // -------------------------------------------- DELETE /invoices/:id

  datatype Deletion = Deleted | NoSuchInvoice

  /** DELETE /invoices/:id: 404 without any change when no invoice has the
      key; otherwise its payments and the invoice go, the order stays. */
  function DeleteInvoice(s: Store, key: int): (Store, Deletion)
  {
    if key !in InvoiceKeys(s.invoices) then (s, NoSuchInvoice)
    else
      (s.(payments := Filter(s.payments, (p: PaymentRow) => p.invoiceKey != key),
          invoices := Filter(s.invoices, (v: InvoiceRow) => v.key != key)),
       Deleted)
  }

  lemma DeleteInvoiceEffect(s: Store, key: int)
    ensures DeleteInvoice(s, key).1 == Deleted <==> exists v :: v in s.invoices && v.key == key
    ensures DeleteInvoice(s, key).1 == NoSuchInvoice ==> DeleteInvoice(s, key).0 == s
    ensures DeleteInvoice(s, key).1 == Deleted ==>
      (forall v :: v in DeleteInvoice(s, key).0.invoices ==> v.key != key)
      && (forall p :: p in DeleteInvoice(s, key).0.payments ==> p.invoiceKey != key)
    ensures forall v :: v in s.invoices && v.key != key ==> v in DeleteInvoice(s, key).0.invoices
    ensures forall p :: p in s.payments && p.invoiceKey != key ==> p in DeleteInvoice(s, key).0.payments
    ensures var s' := DeleteInvoice(s, key).0;
      s'.orders == s.orders && s'.items == s.items && s'.products == s.products
      && s'.nextOrderKey == s.nextOrderKey && s'.nextInvoiceKey == s.nextInvoiceKey
  {
  }

  lemma DeleteInvoiceKeepsValid(s: Store, key: int)
    requires ValidStore(s)
    ensures ValidStore(DeleteInvoice(s, key).0)
  {
    var (s', d) := DeleteInvoice(s, key);
    if d == Deleted {
      DeleteInvoiceEffect(s, key);
      FilterKeepsIncreasing(s.invoices, (v: InvoiceRow) => v.key != key, (v: InvoiceRow) => v.key);
      forall p | p in s'.payments ensures p.invoiceKey in InvoiceKeys(s'.invoices) {
        var v :| v in s.invoices && v.key == p.invoiceKey;
      }
    }
  }

  // ------------------------------------------------------------- views

  /** `SELECT ... FROM orders WHERE id = ?`: the first matching row. */
  function FindOrder(orders: seq<OrderRow>, key: int): (r: Option<nat>)
    ensures r.Some? ==> r.value < |orders| && orders[r.value].key == key
    ensures r.None? ==> forall o :: o in orders ==> o.key != key
  {
    if orders == [] then None
    else if orders[0].key == key then Some(0)
    else match FindOrder(orders[1..], key)
      case None => None
      case Some(i) => Some(i + 1)
  }

  /** The first invoice of the order with key `orderKey`. */
  function FirstInvoiceOf(invoices: seq<InvoiceRow>, orderKey: int): (r: Option<nat>)
    ensures r.Some? ==> r.value < |invoices| && invoices[r.value].orderKey == orderKey
                        && forall j :: 0 <= j < r.value ==> invoices[j].orderKey != orderKey
    ensures r.None? ==> forall v :: v in invoices ==> v.orderKey != orderKey
  {
    if invoices == [] then None
    else if invoices[0].orderKey == orderKey then Some(0)
    else match FirstInvoiceOf(invoices[1..], orderKey)
      case None => None
      case Some(i) => Some(i + 1)
  }

  /** `SELECT * FROM payments WHERE invoice_id = ?` */
  function PaymentsOf(payments: seq<PaymentRow>, invoiceKey: int): seq<PaymentRow>
  {
    Filter(payments, (p: PaymentRow) => p.invoiceKey == invoiceKey)
  }

  /** `SELECT * FROM order_items WHERE order_id = ?` */
  function ItemsOf(items: seq<ItemRow>, orderKey: int): seq<ItemRow>
  {
    Filter(items, (r: ItemRow) => r.orderKey == orderKey)
  }

  /** The client-side `reduce` adding up the `amount` of listed payments. */
  function AmountSum(payments: seq<PaymentRow>): int
  {
    if payments == [] then 0 else AmountSum(payments[..|payments| - 1]) + payments[|payments| - 1].amount
  }

  /** The response of GET /invoices/order/:orderId. */
  datatype InvoiceView = InvoiceView(invoice: InvoiceRow, order: OrderRow, items: seq<ItemRow>,
                                     payments: seq<PaymentRow>, totalPaid: int, remaining: int)

  /** GET /invoices/order/:orderId: the order's first invoice (joined with
      the order), its items, the payments of that invoice, `total_paid` as
      the sum of their amounts and `remaining_balance` as total minus paid;
      `None` is the 404. */
  function InvoiceForOrder(s: Store, orderKey: int): Option<InvoiceView>
  {
    match FirstInvoiceOf(s.invoices, orderKey)
    case None => None
    case Some(i) =>
      match FindOrder(s.orders, orderKey)
      case None => None
      case Some(o) =>
        var inv := s.invoices[i];
        var ps := PaymentsOf(s.payments, inv.key);
        var paid := AmountSum(ps);
        Some(InvoiceView(inv, s.orders[o], ItemsOf(s.items, orderKey), ps, paid, inv.totalAmount - paid))
  }

  /** The `reduce` over the listed payments and the SQL `SUM` agree. */
  lemma {:induction false} AmountSumOfFilter(payments: seq<PaymentRow>, invoiceKey: int)
    ensures AmountSum(PaymentsOf(payments, invoiceKey)) == PaidTotal(payments, invoiceKey)
  {
    if payments != [] {
      var n := |payments| - 1;
      AmountSumOfFilter(payments[..n], invoiceKey);
      var f := PaymentsOf(payments[..n], invoiceKey);
      if payments[n].invoiceKey == invoiceKey {
        assert PaymentsOf(payments, invoiceKey) == f + [payments[n]];
        assert (f + [payments[n]])[..|f|] == f;
      } else {
        assert PaymentsOf(payments, invoiceKey) == f + [];
        assert f + [] == f;
      }
    }
  }

  /** The response of GET /orders/:id (`None` is the 404). It carries the
      total and status of the first joined invoice, or none when the order
      has no invoice, and every payment of every invoice of the order; it
      reports no paid sum. */
  datatype OrderDetails = OrderDetails(order: OrderRow, totalAmount: Option<int>,
                                       paymentStatus: Option<InvoiceStatus>,
                                       items: seq<ItemRow>, payments: seq<PaymentRow>)

  function OrderDetailsOf(s: Store, key: int): Option<OrderDetails>
  {
    match FindOrder(s.orders, key)
    case None => None
    case Some(o) =>
      var first := FirstInvoiceOf(s.invoices, key);
      var keys := InvoiceKeysOf(s.invoices, key);
      Some(OrderDetails(s.orders[o],
                        if first.Some? then Some(s.invoices[first.value].totalAmount) else None,
                        if first.Some? then Some(s.invoices[first.value].status) else None,
                        ItemsOf(s.items, key),
                        Filter(s.payments, (p: PaymentRow) => p.invoiceKey in keys)))
  }

  /** A freshly placed order shows its invoice with nothing paid and the
      whole total remaining. */
  lemma PlacedOrderView(s: Store, req: seq<ItemRequest>, ids: NewIds)
    requires ValidStore(s) && PlaceOrder(s, Some(req), ids).1.Ok?
    ensures InvoiceForOrder(PlaceOrder(s, Some(req), ids).0, s.nextOrderKey).Some?
    ensures InvoiceForOrder(PlaceOrder(s, Some(req), ids).0, s.nextOrderKey).value.invoice.invoiceId
         == ids.invoiceId
    ensures InvoiceForOrder(PlaceOrder(s, Some(req), ids).0, s.nextOrderKey).value.totalPaid == 0
    ensures InvoiceForOrder(PlaceOrder(s, Some(req), ids).0, s.nextOrderKey).value.remaining
         == RequestTotal(req)
  {
    var key := s.nextOrderKey;
    PlaceOrderRows(s, req, ids);
    PlaceOrderTotal(s, req, ids);
    assert forall v :: v in s.invoices ==> v.orderKey != key by {
      forall v | v in s.invoices ensures v.orderKey != key {
        var o :| o in s.orders && o.key == v.orderKey;
      }
    }
    FirstInvoiceAfterOthers(s.invoices, InvoiceRow(s.nextInvoiceKey, ids.invoiceId, key,
                                                   RequestTotal(req), Pending));
    FindOrderFresh(s.orders, OrderRow(key, ids.orderId, ids.customerId));
    PaidTotalOfOthers(s.payments, s.nextInvoiceKey);
    AmountSumOfFilter(s.payments, s.nextInvoiceKey);
  }

  lemma FirstInvoiceAfterOthers(invoices: seq<InvoiceRow>, v: InvoiceRow)
    requires forall w :: w in invoices ==> w.orderKey != v.orderKey
    ensures FirstInvoiceOf(invoices + [v], v.orderKey) == Some(|invoices|)
  {
    if invoices != [] {
      FirstInvoiceAfterOthers(invoices[1..], v);
      assert (invoices + [v])[1..] == invoices[1..] + [v];
    }
  }

  lemma FindOrderFresh(orders: seq<OrderRow>, o: OrderRow)
    requires forall w :: w in orders ==> w.key != o.key
    ensures FindOrder(orders + [o], o.key) == Some(|orders|)
  {
    if orders != [] {
      FindOrderFresh(orders[1..], o);
      assert (orders + [o])[1..] == orders[1..] + [o];
    }
  }

  /** After an accepted payment of invoice `i`, GET /invoices/order/:orderId
      for its order, when `i` is the order's first invoice, shows the same
      paid sum and remaining balance as the payment response. */
  lemma PaymentMatchesView(s: Store, req: PaymentRequest, i: nat)
    requires InvoicesIncreasing(s.invoices) && PayCheck(s, req) == Ok(i) && i < |s.invoices|
    requires FirstInvoiceOf(s.invoices, s.invoices[i].orderKey) == Some(i)
    requires FindOrder(s.orders, s.invoices[i].orderKey).Some?
    ensures InvoiceForOrder(Pay(s, req).0, s.invoices[i].orderKey).Some?
    ensures InvoiceForOrder(Pay(s, req).0, s.invoices[i].orderKey).value.totalPaid
         == Pay(s, req).1.value.totalPaid
    ensures InvoiceForOrder(Pay(s, req).0, s.invoices[i].orderKey).value.remaining
         == Pay(s, req).1.value.remaining
  {
    var t, rep := Pay(s, req).0, Pay(s, req).1;
    var orderKey := s.invoices[i].orderKey;
    assert rep.Ok? && rep.value.totalPaid == PaidTotal(t.payments, s.invoices[i].key)
           && rep.value.remaining == s.invoices[i].totalAmount - rep.value.totalPaid by {
      PayLedger(s, req, i);
    }
    assert t.orders == s.orders && i < |t.invoices| && t.invoices[i].key == s.invoices[i].key
           && t.invoices[i].totalAmount == s.invoices[i].totalAmount
           && FirstInvoiceOf(t.invoices, orderKey) == Some(i) by {
      PayStatus(s, req, i);
      FirstInvoiceSameOrders(s.invoices, t.invoices, orderKey);
    }
    ViewOfFirstInvoice(t, orderKey, i);
  }

  /** The view of an order shows the paid sum and the balance of its first
      invoice. */
  lemma ViewOfFirstInvoice(t: Store, orderKey: int, i: nat)
    requires FirstInvoiceOf(t.invoices, orderKey) == Some(i) && FindOrder(t.orders, orderKey).Some?
    ensures i < |t.invoices| && InvoiceForOrder(t, orderKey).Some?
    ensures InvoiceForOrder(t, orderKey).value.totalPaid == PaidTotal(t.payments, t.invoices[i].key)
    ensures InvoiceForOrder(t, orderKey).value.remaining
         == t.invoices[i].totalAmount - PaidTotal(t.payments, t.invoices[i].key)
  {
    AmountSumOfFilter(t.payments, t.invoices[i].key);
  }

  lemma FirstInvoiceSameOrders(a: seq<InvoiceRow>, b: seq<InvoiceRow>, orderKey: int)
    requires |a| == |b| && forall j :: 0 <= j < |a| ==> a[j].orderKey == b[j].orderKey
    ensures FirstInvoiceOf(a, orderKey) == FirstInvoiceOf(b, orderKey)
  {
    if a != [] {
      FirstInvoiceSameOrders(a[1..], b[1..], orderKey);
    }
  }

  /** After an order is deleted, neither read route finds it. */
  lemma DeletedOrderNotFound(s: Store, key: int)
    ensures InvoiceForOrder(DeleteOrder(s, key), key).None?
    ensures OrderDetailsOf(DeleteOrder(s, key), key).None?
  {
    DeleteOrderEffect(s, key);
  }
}
