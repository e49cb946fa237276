/** The legacy invoice controller: `createInvoice` checks and takes stock
    item by item under a row lock, recomputes the total from the catalogue
    prices, refuses a total that differs from the client's by more than a
    cent, and writes one `completed` invoice with one item row per
    requested item; the list routes read the items back from a
    `productId:quantity:price` string; the by-order route adds up the
    payments of the order. */
module InvoiceController {
  import opened Common
  import opened ProductTable
  import opened BillingStore

  // ---------------------------------------------------- createInvoice

  /** One requested item; the client's `price` plays no part. */
  datatype LegacyItem = LegacyItem(productId: int, quantity: int, price: int)

  /** A row of the legacy `invoices` table; `total` in cents. */
  datatype LegacyInvoice = LegacyInvoice(key: int, customerId: string, total: int, status: string)

  /** An `invoice_items` row with the catalogue price in cents. */
  datatype InvoiceItemRow = InvoiceItemRow(invoiceKey: int, productId: int, quantity: int, price: int)

  /** The tables `createInvoice` touches and the next invoice key. */
  datatype Ledger = Ledger(products: Products, invoices: seq<LegacyInvoice>,
                           invoiceItems: seq<InvoiceItemRow>, nextKey: int)

  /** `NotIterable`: `items` is not an array, so the loop throws before its
      first step. `CustomerMissing`: the insert refuses an undefined
      `customerId` bind parameter. */
  datatype LegacyError = NotIterable | ProductMissing(productId: int) | StockShort(productId: int)
                       | TotalMismatch | CustomerMissing

  function ItemLines(items: seq<LegacyItem>): (ls: seq<Line>)
    ensures |ls| == |items|
    ensures forall i :: 0 <= i < |items| ==> ls[i] == Line(items[i].productId, items[i].quantity)
  {
    seq(|items|, i requires 0 <= i < |items| => Line(items[i].productId, items[i].quantity))
  }

  /** `calculatedTotal`: the catalogue price of each item's product times
      its quantity, added up. */
  function CatalogTotal(p: Products, items: seq<LegacyItem>): int
  {
    if items == [] then 0
    else
      var item := items[|items| - 1];
      CatalogTotal(p, items[..|items| - 1]) + (if item.productId in p then p[item.productId].price * item.quantity else 0)
  }

  /** The second loop's rows: each item with the price read from `p`. */
  function PricedRows(key: int, p: Products, items: seq<LegacyItem>): (rows: seq<InvoiceItemRow>)
    requires forall i :: 0 <= i < |items| ==> items[i].productId in p
    ensures |rows| == |items|
    ensures forall i :: 0 <= i < |items| ==>
      rows[i] == InvoiceItemRow(key, items[i].productId, items[i].quantity, p[items[i].productId].price)
  {
    seq(|items|, i requires 0 <= i < |items| =>
      InvoiceItemRow(key, items[i].productId, items[i].quantity, p[items[i].productId].price))
  }

  /** `Math.abs(calculatedTotal - total) > 0.01` in cents; an absent total
      makes the difference NaN and the comparison false. */
  predicate Mismatch(calculated: int, total: Option<int>)
  {
    total.Some? && Abs(calculated - total.value) > 1
  }

  function ReserveFailure(items: seq<LegacyItem>, e: ReserveError): LegacyError
    requires e.index < |items|
  {
    match e.reason
    case NotFound => ProductMissing(items[e.index].productId)
    case Insufficient => StockShort(items[e.index].productId)
  }

  /** `createInvoice` as one transaction: every refusal rolls back to the
      old tables. */
  function Invoicing(l: Ledger, customerId: Option<string>, items: Option<seq<LegacyItem>>,
                         total: Option<int>): (Ledger, Result<LegacyInvoice, LegacyError>)
  {
    if items.None? then (l, Err(NotIterable))
    else
      var req := items.value;
      match Reserve(l.products, ItemLines(req))
      case Err(e) =>
        ReserveErrorIsFirst(l.products, ItemLines(req));
        (l, Err(ReserveFailure(req, e)))
      case Ok(after) =>
        var calculated := CatalogTotal(l.products, req);
        if Mismatch(calculated, total) then (l, Err(TotalMismatch))
        else if customerId.None? then (l, Err(CustomerMissing))
        else
          ReservedKeys(l.products, ItemLines(req));
          var invoice := LegacyInvoice(l.nextKey, customerId.value, calculated, "completed");
          (Ledger(after, l.invoices + [invoice], l.invoiceItems + PricedRows(l.nextKey, after, req), l.nextKey + 1),
           Ok(invoice))
  }

  /** Every line of a successful reservation names a product that is still
      in the table afterwards. */
  lemma ReservedKeys(p: Products, lines: seq<Line>)
    requires Reserve(p, lines).Ok?
    ensures forall i :: 0 <= i < |lines| ==> lines[i].productId in Reserve(p, lines).value
  {
    ReserveEffect(p, lines);
    ReserveSucceedsIff(p, lines);
    forall i | 0 <= i < |lines| ensures lines[i].productId in p {
      assert LineCovered(p, lines, i);
    }
  }

  /** A refused invoice leaves every table, and the key counter, as it was. */
  lemma CreateInvoiceAllOrNothing(l: Ledger, customerId: Option<string>, items: Option<seq<LegacyItem>>,
                                  total: Option<int>)
    ensures Invoicing(l, customerId, items, total).1.Err? ==> Invoicing(l, customerId, items, total).0 == l
  {
  }

  /** An invoice is created exactly when `items` is a list whose every item
      is covered by the stock the earlier items left, the recomputed total
      is within a cent of the client's (or the client sent none), and a
      customer is given. */
  lemma CreateInvoiceSucceedsIff(l: Ledger, customerId: Option<string>, items: Option<seq<LegacyItem>>,
                                 total: Option<int>)
    ensures Invoicing(l, customerId, items, total).1.Ok?
        <==> items.Some?
             && (forall k :: 0 <= k < |items.value| ==> LineCovered(l.products, ItemLines(items.value), k))
             && !Mismatch(CatalogTotal(l.products, items.value), total)
             && customerId.Some?
  {
    if items.Some? {
      ReserveSucceedsIff(l.products, ItemLines(items.value));
    }
  }

  /** A created invoice is `completed`, carries the recomputed total, and
      comes with one item row per requested item at the catalogue price;
      each product's stock falls by the quantity requested of it. */
  lemma CreateInvoiceRows(l: Ledger, customerId: Option<string>, req: seq<LegacyItem>, total: Option<int>)
    requires Invoicing(l, customerId, Some(req), total).1.Ok?
    ensures Invoicing(l, customerId, Some(req), total).1.value
         == LegacyInvoice(l.nextKey, customerId.value, CatalogTotal(l.products, req), "completed")
    ensures Invoicing(l, customerId, Some(req), total).0.invoices
         == l.invoices + [Invoicing(l, customerId, Some(req), total).1.value]
    ensures |Invoicing(l, customerId, Some(req), total).0.invoiceItems| == |l.invoiceItems| + |req|
    ensures forall i :: 0 <= i < |req| ==>
      req[i].productId in l.products
      && Invoicing(l, customerId, Some(req), total).0.invoiceItems[|l.invoiceItems| + i]
         == InvoiceItemRow(l.nextKey, req[i].productId, req[i].quantity, l.products[req[i].productId].price)
    ensures Invoicing(l, customerId, Some(req), total).0.products.Keys == l.products.Keys
    ensures forall id :: id in l.products ==>
      Invoicing(l, customerId, Some(req), total).0.products[id]
        == l.products[id].(stock := l.products[id].stock - QuantityFor(ItemLines(req), id))
  {
    var lines := ItemLines(req);
    var after := Created(l, customerId, req, total);
    ReserveEffect(l.products, lines);
    forall i | 0 <= i < |req|
      ensures req[i].productId in l.products
      ensures after[req[i].productId].price == l.products[req[i].productId].price
    {
      assert lines[i].productId == req[i].productId;
    }
  }

  /** The tables after a created invoice, with `after` the stock the
      reservation leaves. */
  lemma Created(l: Ledger, customerId: Option<string>, req: seq<LegacyItem>, total: Option<int>)
    returns (after: Products)
    requires Invoicing(l, customerId, Some(req), total).1.Ok?
    ensures Reserve(l.products, ItemLines(req)) == Ok(after) && customerId.Some?
    ensures forall i :: 0 <= i < |req| ==> req[i].productId in after
    ensures Invoicing(l, customerId, Some(req), total)
         == (Ledger(after, l.invoices + [LegacyInvoice(l.nextKey, customerId.value, CatalogTotal(l.products, req), "completed")],
                    l.invoiceItems + PricedRows(l.nextKey, after, req), l.nextKey + 1),
             Ok(LegacyInvoice(l.nextKey, customerId.value, CatalogTotal(l.products, req), "completed")))
  {
    after := Reserve(l.products, ItemLines(req)).value;
    ReservedKeys(l.products, ItemLines(req));
  }

  /** The outcome depends on the items only through their products and
      quantities: the client's prices are ignored. */
  lemma ClientPricesIgnored(l: Ledger, customerId: Option<string>, a: seq<LegacyItem>, b: seq<LegacyItem>,
                            total: Option<int>)
    requires |a| == |b|
    requires forall i :: 0 <= i < |a| ==> a[i].productId == b[i].productId && a[i].quantity == b[i].quantity
    ensures Invoicing(l, customerId, Some(a), total) == Invoicing(l, customerId, Some(b), total)
  {
    assert ItemLines(a) == ItemLines(b);
    SameCatalogTotal(l.products, a, b);
    if Reserve(l.products, ItemLines(a)).Ok? {
      ReservedKeys(l.products, ItemLines(a));
      assert PricedRows(l.nextKey, Reserve(l.products, ItemLines(a)).value, a)
          == PricedRows(l.nextKey, Reserve(l.products, ItemLines(a)).value, b);
    } else {
      ReserveErrorIsFirst(l.products, ItemLines(a));
    }
  }

  lemma {:induction false} SameCatalogTotal(p: Products, a: seq<LegacyItem>, b: seq<LegacyItem>)
    requires |a| == |b|
    requires forall i :: 0 <= i < |a| ==> a[i].productId == b[i].productId && a[i].quantity == b[i].quantity
    ensures CatalogTotal(p, a) == CatalogTotal(p, b)
  {
    if a != [] {
      SameCatalogTotal(p, a[..|a| - 1], b[..|b| - 1]);
    }
  }

  /** The prices a reservation leaves are the ones it started from. */
  lemma PriceKept(p: Products, lines: seq<Line>, id: int)
    requires Reserve(p, lines).Ok? && id in p
    ensures id in Reserve(p, lines).value && Reserve(p, lines).value[id].price == p[id].price
  {
    ReserveEffect(p, lines);
  }

  // ----------------------------------------------- the transaction

  /** The legacy tables, updated statement by statement. */
  class LegacyDb {
    var products: Products
    var invoices: seq<LegacyInvoice>
    var invoiceItems: seq<InvoiceItemRow>
    var nextKey: int

    function State(): Ledger
      reads this
    {
      Ledger(products, invoices, invoiceItems, nextKey)
    }

    constructor (initial: Ledger)
      ensures State() == initial
    {
      products := initial.products;
      invoices := initial.invoices;
      invoiceItems := initial.invoiceItems;
      nextKey := initial.nextKey;
    }

    method Rollback(snapshot: Ledger)
      modifies this
      ensures State() == snapshot
    {
      products := snapshot.products;
      invoices := snapshot.invoices;
      invoiceItems := snapshot.invoiceItems;
      nextKey := snapshot.nextKey;
    }

    /** `createInvoice`: the stock loop, the total check, the invoice
        insert and the item loop, rolled back on the first refusal. */
    method CreateInvoice(customerId: Option<string>, items: Option<seq<LegacyItem>>, total: Option<int>)
      returns (r: Result<LegacyInvoice, LegacyError>)
      modifies this
      ensures State() == Invoicing(old(State()), customerId, items, total).0
      ensures r == Invoicing(old(State()), customerId, items, total).1
    {
      var snapshot := State();
      if items.None? {
        return Err(NotIterable);
      }
      var req := items.value;
      var failure, calculated := TakeStock(req);
      if failure.Some? {
        r := Err(failure.value);
        Rollback(snapshot);
        return;
      }
      if Mismatch(calculated, total) {
        r := Err(TotalMismatch);
        Rollback(snapshot);
        return;
      }
      if customerId.None? {
        r := Err(CustomerMissing);
        Rollback(snapshot);
        return;
      }
      ReservedKeys(snapshot.products, ItemLines(req));
      var key := nextKey;
      var invoice := LegacyInvoice(key, customerId.value, calculated, "completed");
      invoices := invoices + [invoice];
      nextKey := key + 1;
      InsertInvoiceItems(key, req);
      r := Ok(invoice);
    }

    /** The first loop: lock and read each product, refuse a missing or
        short one, take the quantity off and add price times quantity. */
    method TakeStock(req: seq<LegacyItem>) returns (failure: Option<LegacyError>, calculated: int)
      modifies this
      ensures failure.None? <==> Reserve(old(products), ItemLines(req)).Ok?
      ensures failure.Some? ==>
        (Reserve(old(products), ItemLines(req)).Err?
         && var e := Reserve(old(products), ItemLines(req)).error;
            e.index < |req| && failure.value == ReserveFailure(req, e))
      ensures failure.None? ==> products == Reserve(old(products), ItemLines(req)).value
      ensures failure.None? ==> calculated == CatalogTotal(old(products), req)
      ensures invoices == old(invoices) && invoiceItems == old(invoiceItems) && nextKey == old(nextKey)
    {
      ghost var start := products;
      calculated := 0;
      var k := 0;
      assert ItemLines(req)[..0] == [];
      while k < |req|
        invariant 0 <= k <= |req|
        invariant Reserve(start, ItemLines(req)[..k]) == Ok(products)
        invariant calculated == CatalogTotal(start, req[..k])
        invariant invoices == old(invoices) && invoiceItems == old(invoiceItems) && nextKey == old(nextKey)
      {
        var item := req[k];
        if item.productId !in products || products[item.productId].stock < item.quantity {
          failure := Some(if item.productId !in products then ProductMissing(item.productId)
                          else StockShort(item.productId));
          StopsAt(start, req, k, products);
          return;
        }
        PriceKeptAt(start, req, k, products);
        calculated := calculated + products[item.productId].price * item.quantity;
        TakeStep(start, req, k, products);
        products := products[item.productId := products[item.productId].(stock := products[item.productId].stock - item.quantity)];
        k := k + 1;
      }
      failure := None;
      assert ItemLines(req)[..|req|] == ItemLines(req);
      assert req[..|req|] == req;
    }

    /** The second loop: read each item's price and insert its row. */
    method InsertInvoiceItems(key: int, req: seq<LegacyItem>)
      requires forall i :: 0 <= i < |req| ==> req[i].productId in products
      modifies this
      ensures products == old(products) && invoices == old(invoices) && nextKey == old(nextKey)
      ensures invoiceItems == old(invoiceItems) + PricedRows(key, products, req)
    {
      var k := 0;
      while k < |req|
        invariant 0 <= k <= |req|
        invariant products == old(products) && invoices == old(invoices) && nextKey == old(nextKey)
        invariant invoiceItems == old(invoiceItems) + PricedRows(key, products, req[..k])
      {
        var item := req[k];
        var price := products[item.productId].price;
        invoiceItems := invoiceItems + [InvoiceItemRow(key, item.productId, item.quantity, price)];
        assert PricedRows(key, products, req[..k + 1]) == PricedRows(key, products, req[..k]) + [InvoiceItemRow(key, item.productId, item.quantity, price)];
        k := k + 1;
      }
      assert req[..|req|] == req;
    }
  }

  lemma TakeStep(p: Products, req: seq<LegacyItem>, k: nat, before: Products)
    requires k < |req| && Reserve(p, ItemLines(req)[..k]) == Ok(before)
    requires req[k].productId in before && before[req[k].productId].stock >= req[k].quantity
    ensures Reserve(p, ItemLines(req)[..k + 1])
         == Ok(before[req[k].productId := before[req[k].productId].(stock := before[req[k].productId].stock - req[k].quantity)])
  {
    assert ItemLines(req)[..k + 1][..k] == ItemLines(req)[..k];
  }

  /** The price the loop reads at item `k` is the catalogue price, and the
      running total grows by that price times the quantity. */
  lemma PriceKeptAt(p: Products, req: seq<LegacyItem>, k: nat, before: Products)
    requires k < |req| && Reserve(p, ItemLines(req)[..k]) == Ok(before)
    requires req[k].productId in before
    ensures CatalogTotal(p, req[..k + 1])
         == CatalogTotal(p, req[..k]) + before[req[k].productId].price * req[k].quantity
  {
    ReserveEffect(p, ItemLines(req)[..k]);
    assert req[..k + 1][..k] == req[..k];
  }

  lemma StopsAt(p: Products, req: seq<LegacyItem>, k: nat, before: Products)
    requires k < |req| && Reserve(p, ItemLines(req)[..k]) == Ok(before)
    requires req[k].productId !in before || before[req[k].productId].stock < req[k].quantity
    ensures Reserve(p, ItemLines(req)).Err?
    ensures Reserve(p, ItemLines(req)).error.index == k
    ensures ReserveFailure(req, Reserve(p, ItemLines(req)).error)
         == if req[k].productId !in before then ProductMissing(req[k].productId) else StockShort(req[k].productId)
  {
    var ls := ItemLines(req);
    assert ls[..k + 1][..k] == ls[..k];
    ReserveErrorPersists(p, ls, k + 1);
  }

  // ------------------------------------------ the items string

  /** `CONCAT(product_id, ':', quantity, ':', price)` of one item row; a
      `DECIMAL(10,2)` price prints with two decimals. */
  function ItemText(r: InvoiceItemRow): string
  {
    IntToString(r.productId) + ":" + IntToString(r.quantity) + ":" + CentsText(r.price)
  }

  function ItemTexts(rows: seq<InvoiceItemRow>): (ts: seq<string>)
    ensures |ts| == |rows|
    ensures forall i :: 0 <= i < |rows| ==> ts[i] == ItemText(rows[i])
  {
    seq(|rows|, i requires 0 <= i < |rows| => ItemText(rows[i]))
  }

  /** MySQL's default `group_concat_max_len`, which the list queries do
      not raise: a longer `GROUP_CONCAT` result is cut to this many bytes.
      The item texts are ASCII, so bytes and characters agree. */
  const GroupConcatMaxLen: nat := 1024

  function Truncate(s: string, n: nat): (r: string)
    ensures |r| == if |s| <= n then |s| else n
    ensures r == s[..|r|]
  {
    if |s| <= n then s else s[..n]
  }

  /** The `items` column of the list queries: `GROUP_CONCAT` of the rows,
      cut to the length limit, `NULL` (`None`) when the invoice has none. */
  function EncodeItems(rows: seq<InvoiceItemRow>): Option<string>
  {
    if rows == [] then None else Some(Truncate(Join(ItemTexts(rows), ','), GroupConcatMaxLen))
  }

  /** One listed item as the client receives it; `None` is NaN. */
  datatype ListedItem = ListedItem(productId: Option<int>, quantity: Option<int>, price: Option<Decimal>)

  /** The destructured field `i`; a missing one is `undefined`, which
      parses as NaN. */
  function Field(parts: seq<string>, i: nat): string
  {
    if i < |parts| then parts[i] else "undefined"
  }

  function DecodeItem(text: string): ListedItem
  {
    var parts := Split(text, ':');
    ListedItem(JsParseInt(Field(parts, 0)), JsParseInt(Field(parts, 1)), JsParseFloat(Field(parts, 2)))
  }

  function DecodeAll(texts: seq<string>): (items: seq<ListedItem>)
    ensures |items| == |texts|
    ensures forall i :: 0 <= i < |texts| ==> items[i] == DecodeItem(texts[i])
  {
    seq(|texts|, i requires 0 <= i < |texts| => DecodeItem(texts[i]))
  }

  /** The `items` mapping in getInvoices and getInvoiceById: a null string
      gives no items, otherwise split on `,` and each part on `:`. */
  function DecodeItems(column: Option<string>): seq<ListedItem>
  {
    match column
    case None => []
    case Some(s) => if s == "" then [] else DecodeAll(Split(s, ','))
  }

  /** What the client should see for a row: both integers and the price
      as a two-decimal number. */
  function Listed(r: InvoiceItemRow): ListedItem
  {
    ListedItem(Some(r.productId), Some(r.quantity), Some(Decimal(r.price, 2)))
  }

  /** Reading the items string back gives every row, in order, with its
      product, quantity and price, as long as the joined texts fit the
      `GROUP_CONCAT` limit. */
  lemma DecodeEncodeItems(rows: seq<InvoiceItemRow>)
    requires |Join(ItemTexts(rows), ',')| <= GroupConcatMaxLen
    ensures |DecodeItems(EncodeItems(rows))| == |rows|
    ensures forall i :: 0 <= i < |rows| ==> DecodeItems(EncodeItems(rows))[i] == Listed(rows[i])
  {
    if rows != [] {
      var ts := ItemTexts(rows);
      SplitItemTexts(rows);
      assert DecodeItems(EncodeItems(rows)) == DecodeAll(ts);
      forall i | 0 <= i < |rows| ensures DecodeItem(ts[i]) == Listed(rows[i]) {
        DecodeItemText(rows[i]);
      }
    }
  }

  /** An invoice whose item texts are each at most `width` characters fits
      the limit when its rows, one separator each, take no more than it
      plus one. */
  lemma ItemsFitLimit(rows: seq<InvoiceItemRow>, width: nat)
    requires forall i :: 0 <= i < |rows| ==> |ItemText(rows[i])| <= width
    requires |rows| * (width + 1) <= GroupConcatMaxLen + 1
    ensures |Join(ItemTexts(rows), ',')| <= GroupConcatMaxLen
  {
    if rows != [] {
      JoinLengthBound(ItemTexts(rows), ',', width);
    }
  }

  /** Joining `n` parts of at most `width` characters takes at most
      `n * (width + 1) - 1` characters. */
  lemma {:induction false} JoinLengthBound(parts: seq<string>, sep: char, width: nat)
    requires parts != []
    requires forall i :: 0 <= i < |parts| ==> |parts[i]| <= width
    ensures |Join(parts, sep)| <= |parts| * (width + 1) - 1
  {
    if |parts| > 1 {
      JoinLengthBound(parts[1..], sep, width);
    }
  }

  /** The `GROUP_CONCAT` string of some rows splits back into their texts. */
  lemma SplitItemTexts(rows: seq<InvoiceItemRow>)
    requires rows != []
    ensures Join(ItemTexts(rows), ',') != ""
    ensures Split(Join(ItemTexts(rows), ','), ',') == ItemTexts(rows)
  {
    var ts := ItemTexts(rows);
    forall i | 0 <= i < |ts| ensures ',' !in ts[i] {
      ItemTextChars(rows[i]);
    }
    SplitJoin(ts, ',');
    ItemTextChars(rows[0]);
    JoinStartsWith(ts, ',');
  }

  lemma DecodeItemText(r: InvoiceItemRow)
    ensures DecodeItem(ItemText(r)) == Listed(r)
  {
    var a, b, c := IntToString(r.productId), IntToString(r.quantity), CentsText(r.price);
    var parts := Split(ItemText(r), ':');
    assert parts == [a, b, c] by {
      ItemTextChars(r);
      SplitThree(a, b, c, ':');
    }
    ParseIntOfIntToString(r.productId);
    ParseIntOfIntToString(r.quantity);
    ParseFloatOfCentsText(r.price);
  }

  lemma SplitThree(a: string, b: string, c: string, sep: char)
    requires sep !in a && sep !in b && sep !in c
    ensures Split(a + [sep] + b + [sep] + c, sep) == [a, b, c]
  {
    assert a + [sep] + b + [sep] + c == a + [sep] + (b + [sep] + c);
    SplitAtFirstSep(a, sep, b + [sep] + c);
    SplitAtFirstSep(b, sep, c);
    SplitWithoutSep(c, sep);
  }

  /** None of the three printed fields holds a separator. */
  lemma ItemTextChars(r: InvoiceItemRow)
    ensures ':' !in IntToString(r.productId) && ',' !in IntToString(r.productId)
    ensures ':' !in IntToString(r.quantity) && ',' !in IntToString(r.quantity)
    ensures ':' !in CentsText(r.price) && ',' !in CentsText(r.price)
    ensures ',' !in ItemText(r) && ItemText(r) != ""
  {
    IntTextChars(r.productId);
    IntTextChars(r.quantity);
    CentsTextChars(r.price);
  }

  lemma IntTextChars(i: int)
    ensures ':' !in IntToString(i) && ',' !in IntToString(i)
  {
    DigitsChars(NatToString(Abs(i)));
  }

  lemma CentsTextChars(c: int)
    ensures ':' !in CentsText(c) && ',' !in CentsText(c)
  {
    var q, r := Abs(c) / 100, Abs(c) % 100;
    DigitsChars(NatToString(q));
    PaddedDigitsValue(NatToString(r), 2);
    DigitsChars(PadStart(NatToString(r), 2, '0'));
  }

  lemma DigitsChars(s: string)
    requires AllDigits(s)
    ensures ':' !in s && ',' !in s
  {
  }

  lemma JoinStartsWith(parts: seq<string>, sep: char)
    requires parts != [] && parts[0] != ""
    ensures Join(parts, sep) != ""
  {
  }

  // ------------------------------------ getInvoiceByOrderId

  /** The response of the controller's by-order route. */
  datatype OrderInvoice = OrderInvoice(invoice: InvoiceRow, order: OrderRow, items: seq<ItemRow>,
                                       payments: seq<PaymentRow>, totalPaid: int, remaining: int)

  /** The payments of every invoice of the order. */
  function OrderPayments(s: Store, orderKey: int): seq<PaymentRow>
  {
    var keys := InvoiceKeysOf(s.invoices, orderKey);
    Filter(s.payments, (p: PaymentRow) => p.invoiceKey in keys)
  }

  /** `getInvoiceByOrderId` for the path parameter `param`: `parseInt`
      of it (NaN finds nothing), the order's first invoice joined with the
      order (`None` is the 404), its items, the payments of all its
      invoices, their sum and the first invoice's total minus that sum. */
  function InvoiceByOrderId(s: Store, param: string): Option<OrderInvoice>
  {
    match JsParseInt(param)
    case None => None
    case Some(orderKey) =>
      match FirstInvoiceOf(s.invoices, orderKey)
      case None => None
      case Some(i) =>
        match FindOrder(s.orders, orderKey)
        case None => None
        case Some(o) =>
          var ps := OrderPayments(s, orderKey);
          var paid := AmountSum(ps);
          Some(OrderInvoice(s.invoices[i], s.orders[o], ItemsOf(s.items, orderKey), ps, paid,
                            s.invoices[i].totalAmount - paid))
  }

  /** The reported paid sum is the sum over the order's invoices of what
      was paid into each, and the balance is the first invoice's total
      minus it. */
  lemma InvoiceByOrderIdTotals(s: Store, param: string)
    requires InvoiceByOrderId(s, param).Some?
    ensures var v := InvoiceByOrderId(s, param).value;
      v.totalPaid == AmountSum(OrderPayments(s, v.invoice.orderKey))
      && v.remaining == v.invoice.totalAmount - v.totalPaid
      && v.invoice in s.invoices && v.order in s.orders && v.order.key == v.invoice.orderKey
  {
  }

  /** When the order has one invoice, the legacy route and the billing
      route report the same paid sum and balance. */
  lemma SingleInvoiceAgrees(s: Store, orderKey: int)
    requires InvoiceForOrder(s, orderKey).Some?
    requires InvoiceKeysOf(s.invoices, orderKey) == {InvoiceForOrder(s, orderKey).value.invoice.key}
    ensures InvoiceByOrderId(s, IntToString(orderKey)).Some?
    ensures InvoiceByOrderId(s, IntToString(orderKey)).value.totalPaid == InvoiceForOrder(s, orderKey).value.totalPaid
    ensures InvoiceByOrderId(s, IntToString(orderKey)).value.remaining == InvoiceForOrder(s, orderKey).value.remaining
  {
    ParseIntOfIntToString(orderKey);
    var key := InvoiceForOrder(s, orderKey).value.invoice.key;
    SameFilter(s.payments, (p: PaymentRow) => p.invoiceKey in InvoiceKeysOf(s.invoices, orderKey),
               (p: PaymentRow) => p.invoiceKey == key);
    assert OrderPayments(s, orderKey) == PaymentsOf(s.payments, key);
  }

  lemma {:induction false} SameFilter<T>(s: seq<T>, f: T -> bool, g: T -> bool)
    requires forall x :: f(x) == g(x)
    ensures Filter(s, f) == Filter(s, g)
  {
    if s != [] {
      SameFilter(s[..|s| - 1], f, g);
    }
  }
}
