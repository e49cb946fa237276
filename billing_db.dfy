/** The billing routes as the server runs them: one connection updating the
    five tables statement by statement inside a transaction, and rolling
    the transaction back when a step throws. Each route is proved to leave
    the tables exactly as the corresponding function of `BillingStore`
    says, and to keep the store's invariant. */
module BillingDb {
  import opened Common
  import opened Identifiers
  import opened ProductTable
  import opened BillingStore

  class Database {
    var products: Products
    var orders: seq<OrderRow>
    var items: seq<ItemRow>
    var invoices: seq<InvoiceRow>
    var payments: seq<PaymentRow>
    var nextOrderKey: int
    var nextInvoiceKey: int

    /** The tables as a value. */
    function State(): Store
      reads this
    {
      Store(products, orders, items, invoices, payments, nextOrderKey, nextInvoiceKey)
    }

    constructor (initial: Store)
      ensures State() == initial
    {
      products := initial.products;
      orders := initial.orders;
      items := initial.items;
      invoices := initial.invoices;
      payments := initial.payments;
      nextOrderKey := initial.nextOrderKey;
      nextInvoiceKey := initial.nextInvoiceKey;
    }

    /** `connection.rollback()`: every table goes back to the snapshot
        taken at `beginTransaction`; the order counter keeps the value the
        rolled-back insert advanced it to. */
    method Rollback(snapshot: Store, orderCounter: int)
      modifies this
      ensures State() == snapshot.(nextOrderKey := orderCounter)
    {
      products := snapshot.products;
      orders := snapshot.orders;
      items := snapshot.items;
      invoices := snapshot.invoices;
      payments := snapshot.payments;
      nextOrderKey := orderCounter;
      nextInvoiceKey := snapshot.nextInvoiceKey;
    }

    /** POST /orders in the calendar year `year`. The three identifiers
        are read from the tables as they are before the transaction: the
        route reads the invoice number after inserting the items, but
        nothing in between touches the invoices. */
    method CreateOrder(body: Option<seq<ItemRequest>>, year: int) returns (r: Result<PlacedOrder, OrderError>)
      modifies this
      ensures State() == PlaceOrder(old(State()), body, AllocateIds(old(State()), year)).0
      ensures r == PlaceOrder(old(State()), body, AllocateIds(old(State()), year)).1
      ensures ValidStore(old(State())) ==> ValidStore(State())
    {
      var ids := AllocateIds(State(), year);
      r := CreateOrderWith(body, ids);
    }

    /** The transaction of POST /orders, given the identifiers it issues. */
    method CreateOrderWith(body: Option<seq<ItemRequest>>, ids: NewIds) returns (r: Result<PlacedOrder, OrderError>)
      modifies this
      ensures State() == PlaceOrder(old(State()), body, ids).0
      ensures r == PlaceOrder(old(State()), body, ids).1
      ensures ValidStore(old(State())) ==> ValidStore(State())
    {
      if body.None? || body.value == [] {
        r := Err(NoItems);
        return;
      }
      var s := State();  // the transaction's snapshot
      if ValidStore(s) {
        PlaceOrderKeepsValid(s, body, ids);
      }
      var req := body.value;
      var key := nextOrderKey;
      orders := orders + [OrderRow(key, ids.orderId, ids.customerId)];
      nextOrderKey := key + 1;
      var refusal := InsertItems(key, req);
      if refusal.Some? {
        r := Err(refusal.value);
        RefusedOrder(s, req, ids);
        Rollback(s, key + 1);
        return;
      }
      var total := ItemsTotal(items, key);
      var invoiceKey := nextInvoiceKey;
      invoices := invoices + [InvoiceRow(invoiceKey, ids.invoiceId, key, total, Pending)];
      nextInvoiceKey := invoiceKey + 1;
      r := Ok(PlacedOrder(key, ids.orderId, ids.customerId, invoiceKey, ids.invoiceId, total));
      Accepted(s, req, ids);
    }

    /** The loop of POST /orders over the requested items: look the product
        up, refuse when it is missing or short, otherwise insert the item
        row of order `key` and take the quantity off the stock. A refusal
        leaves the rows written so far for the rollback to undo. */
    method InsertItems(key: int, req: seq<ItemRequest>) returns (refusal: Option<OrderError>)
      modifies this
      ensures refusal == Refusal(old(products), req)
      ensures refusal.None? ==> Reserve(old(products), Lines(req)) == Ok(products)
      ensures refusal.None? ==> items == old(items) + ItemRows(key, req)
      ensures orders == old(orders) && invoices == old(invoices) && payments == old(payments)
      ensures nextOrderKey == old(nextOrderKey) && nextInvoiceKey == old(nextInvoiceKey)
    {
      ghost var stock, rows := products, items;
      var k := 0;
      assert Lines(req)[..0] == [];
      while k < |req|
        invariant 0 <= k <= |req|
        invariant Reserve(stock, Lines(req)[..k]) == Ok(products)
        invariant items == rows + ItemRows(key, req[..k])
        invariant orders == old(orders) && invoices == old(invoices) && payments == old(payments)
        invariant nextOrderKey == old(nextOrderKey) && nextInvoiceKey == old(nextInvoiceKey)
      {
        var item := req[k];
        if item.productId !in products || products[item.productId].stock < item.quantity {
          refusal := Some(if item.productId !in products then ProductNotFound(item.productId)
                          else InsufficientStock(item.itemType));
          RefusedAt(stock, req, k, products);
          return;
        }
        ReserveStep(stock, req, k, products);
        ItemRowsStep(key, req, k);
        items := items + [ItemRowOf(key, item)];
        products := products[item.productId := products[item.productId].(stock := products[item.productId].stock - item.quantity)];
        k := k + 1;
      }
      refusal := None;
      assert Lines(req)[..|req|] == Lines(req);
      assert req[..|req|] == req;
    }

    /** POST /payments. */
    method RecordPayment(req: PaymentRequest) returns (r: Result<PaymentDetails, PayError>)
      modifies this
      ensures State() == Pay(old(State()), req).0
      ensures r == Pay(old(State()), req).1
      ensures ValidStore(old(State())) ==> ValidStore(State())
    {
      ghost var s := State();
      if ValidStore(s) {
        PayKeepsValid(s, req);
      }
      if req.invoiceId == "" {
        return Err(MissingInvoiceId);
      }
      if req.amount.None? || req.amount.value <= 0 {
        return Err(InvalidAmount);
      }
      if req.payMethod == "" {
        return Err(MissingMethod);
      }
      var found := FindInvoice(invoices, req.invoiceId);
      if found.None? {
        return Err(UnknownInvoice);
      }
      var invoice := invoices[found.value];
      if invoice.status == Paid {
        return Err(AlreadyPaid);
      }
      var amount := req.amount.value;
      payments := payments + [PaymentRow(invoice.key, amount, req.payMethod, amount, 0)];
      var totalPaid := PaidTotal(payments, invoice.key);
      if totalPaid >= invoice.totalAmount {
        invoices := MarkPaid(invoices, invoice.key);
      }
      r := Ok(PaymentDetails(req.invoiceId, amount, totalPaid, invoice.totalAmount - totalPaid));
    }

    /** DELETE /orders/:id, statement by statement. */
    method DeleteOrder(key: int)
      modifies this
      ensures State() == BillingStore.DeleteOrder(old(State()), key)
      ensures ValidStore(old(State())) ==> ValidStore(State())
    {
      ghost var s := State();
      if ValidStore(s) {
        DeleteOrderKeepsValid(s, key);
      }
      var doomed := InvoiceKeysOf(invoices, key);
      payments := Filter(payments, (p: PaymentRow) => p.invoiceKey !in doomed);
      invoices := Filter(invoices, (v: InvoiceRow) => v.orderKey != key);
      items := Filter(items, (r: ItemRow) => r.orderKey != key);
      orders := Filter(orders, (o: OrderRow) => o.key != key);
    }

    /** DELETE /invoices/:id. */
    method DeleteInvoice(key: int) returns (d: Deletion)
      modifies this
      ensures State() == BillingStore.DeleteInvoice(old(State()), key).0
      ensures d == BillingStore.DeleteInvoice(old(State()), key).1
      ensures ValidStore(old(State())) ==> ValidStore(State())
    {
      ghost var s := State();
      if ValidStore(s) {
        DeleteInvoiceKeepsValid(s, key);
      }
      if key !in InvoiceKeys(invoices) {
        return NoSuchInvoice;
      }
      payments := Filter(payments, (p: PaymentRow) => p.invoiceKey != key);
      invoices := Filter(invoices, (v: InvoiceRow) => v.key != key);
      d := Deleted;
    }
  }

  /** The reservation loop's step: one more line served from the stock
      `before` the earlier lines left. */
  lemma ReserveStep(p: Products, req: seq<ItemRequest>, k: nat, before: Products)
    requires k < |req| && Reserve(p, Lines(req)[..k]) == Ok(before)
    requires req[k].productId in before && before[req[k].productId].stock >= req[k].quantity
    ensures Reserve(p, Lines(req)[..k + 1])
         == Ok(before[req[k].productId := before[req[k].productId].(stock := before[req[k].productId].stock - req[k].quantity)])
  {
    assert Lines(req)[..k + 1][..k] == Lines(req)[..k];
  }

  lemma ItemRowsStep(key: int, req: seq<ItemRequest>, k: nat)
    requires k < |req|
    ensures ItemRows(key, req[..k + 1]) == ItemRows(key, req[..k]) + [ItemRowOf(key, req[k])]
  {
  }

  /** The tables and the reply after every line was served. */
  lemma Accepted(s: Store, req: seq<ItemRequest>, ids: NewIds)
    requires req != [] && Reserve(s.products, Lines(req)).Ok?
    ensures PlaceOrder(s, Some(req), ids).0
         == Store(Reserve(s.products, Lines(req)).value,
                  s.orders + [OrderRow(s.nextOrderKey, ids.orderId, ids.customerId)],
                  s.items + ItemRows(s.nextOrderKey, req),
                  s.invoices + [InvoiceRow(s.nextInvoiceKey, ids.invoiceId, s.nextOrderKey,
                                           ItemsTotal(s.items + ItemRows(s.nextOrderKey, req), s.nextOrderKey),
                                           Pending)],
                  s.payments, s.nextOrderKey + 1, s.nextInvoiceKey + 1)
    ensures PlaceOrder(s, Some(req), ids).1
         == Ok(PlacedOrder(s.nextOrderKey, ids.orderId, ids.customerId, s.nextInvoiceKey, ids.invoiceId,
                           ItemsTotal(s.items + ItemRows(s.nextOrderKey, req), s.nextOrderKey)))
  {
  }

  /** Why the items `req` cannot be served from the stock `p`, if they
      cannot: the first item whose product is missing or short. */
  function Refusal(p: Products, req: seq<ItemRequest>): Option<OrderError>
  {
    match Reserve(p, Lines(req))
    case Ok(_) => None
    case Err(e) =>
      ReserveErrorIsFirst(p, Lines(req));
      Some(ShortageError(req, e))
  }

  /** The loop stopping at line `k`, with `before` left by the earlier
      lines, reports the refusal of the whole reservation. */
  lemma RefusedAt(p: Products, req: seq<ItemRequest>, k: nat, before: Products)
    requires k < |req| && Reserve(p, Lines(req)[..k]) == Ok(before)
    requires req[k].productId !in before || before[req[k].productId].stock < req[k].quantity
    ensures Refusal(p, req)
         == Some(if req[k].productId !in before then ProductNotFound(req[k].productId)
                 else InsufficientStock(req[k].itemType))
  {
    var ls := Lines(req);
    assert ls[..k + 1][..k] == ls[..k];
    ReserveErrorPersists(p, ls, k + 1);
  }

  /** A refused reservation is the refusal `PlaceOrder` reports. */
  lemma RefusedOrder(s: Store, req: seq<ItemRequest>, ids: NewIds)
    requires req != [] && Refusal(s.products, req).Some?
    ensures PlaceOrder(s, Some(req), ids).0 == s.(nextOrderKey := s.nextOrderKey + 1)
    ensures PlaceOrder(s, Some(req), ids).1 == Err(Refusal(s.products, req).value)
  {
  }
}
