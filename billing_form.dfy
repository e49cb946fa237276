/** The billing page: the new-order form with its validator and line-total
    rule, the payment pre-checks, the delete permission and the order
    search. Money is in cents; a JavaScript number that may be NaN or
    `undefined` is an `Option`. */
module BillingForm {
  import opened Common
  import opened Identifiers
  import opened BillingStore

  // ------------------------------------------------------------ the form

  /** A product as the catalogue lists it. */
  datatype CatalogEntry = CatalogEntry(id: int, name: string, price: int, stock: int)

  /** One row of the new-order form. `productId` is `None` while no product
      is selected; `quantity`, `price`, `deposit` and `total` are `None`
      when they hold NaN. */
  datatype FormItem = FormItem(productId: Option<int>, itemType: string, quantity: Option<int>,
                               price: Option<int>, deposit: Option<int>, total: Option<int>)

  /** The payment amount field: empty, a number, or text that is not one. */
  datatype AmountField = Empty | Number(cents: int) | NotANumber

  /** The row the form starts with. */
  const BlankItem := FormItem(None, "", Some(1), Some(0), Some(0), Some(0))

  /** `quantity * price - deposit`; NaN in any operand gives NaN. */
  function LineTotal(quantity: Option<int>, price: Option<int>, deposit: Option<int>): (t: Option<int>)
    ensures t.Some? <==> quantity.Some? && price.Some? && deposit.Some?
    ensures t.Some? ==> t.value + deposit.value == quantity.value * price.value
  {
    if quantity.Some? && price.Some? && deposit.Some? then Some(quantity.value * price.value - deposit.value)
    else None
  }

  /** Every row's total is its line total. */
  predicate Consistent(items: seq<FormItem>)
  {
    forall i :: 0 <= i < |items| ==> items[i].total == LineTotal(items[i].quantity, items[i].price, items[i].deposit)
  }

  /** `products.find(p => p.id === id)`. */
  function FindEntry(products: seq<CatalogEntry>, id: int): (r: Option<CatalogEntry>)
    ensures r.Some? ==> r.value in products && r.value.id == id
    ensures r.None? ==> forall p :: p in products ==> p.id != id
  {
    if products == [] then None
    else if products[0].id == id then Some(products[0])
    else FindEntry(products[1..], id)
  }

  /** `item.total || 0`: NaN counts as 0. */
  function TotalOrZero(item: FormItem): int
  {
    if item.total.Some? then item.total.value else 0
  }

  /** `calculateOrderTotal`. */
  function OrderTotal(items: seq<FormItem>): int
  {
    if items == [] then 0 else OrderTotal(items[..|items| - 1]) + TotalOrZero(items[|items| - 1])
  }

  /** Replacing one row changes the order total by the difference of the
      two rows' totals, and by nothing else. */
  lemma {:induction false} OrderTotalOfEdit(items: seq<FormItem>, i: nat, item: FormItem)
    requires i < |items|
    ensures OrderTotal(items[i := item]) == OrderTotal(items) - TotalOrZero(items[i]) + TotalOrZero(item)
  {
    var n := |items| - 1;
    if i < n {
      OrderTotalOfEdit(items[..n], i, item);
      assert items[i := item][..n] == items[..n][i := item];
    } else {
      assert items[i := item][..n] == items[..n];
    }
  }

  /** Keys of the `errors` object `validateOrder` builds. */
  datatype ErrorKey = ItemsKey | ProductKey(index: nat) | QuantityKey(index: nat) | PriceKey(index: nat)
                    | DepositKey(index: nat) | TotalKey(index: nat) | PaymentAmountKey | PaymentMethodKey

  /** One entry of the `errors` object, in the order it was written. */
  datatype Recorded = Recorded(key: ErrorKey, message: Message)

  /** The messages, `OnlyInStock` carrying the stock it reports. */
  datatype Message = AddItem | SelectProduct | InvalidQuantity | OnlyInStock(stock: int) | InvalidPrice
                   | NegativeDeposit | DepositOverPrice | NegativeTotal | InvalidPaymentAmount | SelectMethod

  function ProductError(item: FormItem): Option<Message>
  {
    if item.productId.None? || item.productId == Some(0) then Some(SelectProduct) else None
  }

  function QuantityError(item: FormItem, products: seq<CatalogEntry>): Option<Message>
  {
    if item.quantity.None? || item.quantity.value <= 0 then Some(InvalidQuantity)
    else if item.productId.None? then None
    else match FindEntry(products, item.productId.value)
      case Some(p) => if item.quantity.value > p.stock then Some(OnlyInStock(p.stock)) else None
      case None => None
  }

  function PriceError(item: FormItem): Option<Message>
  {
    if item.price.None? || item.price.value <= 0 then Some(InvalidPrice) else None
  }

  /** A NaN quantity or price makes `quantity * price` NaN, and the
      comparison with it false. */
  function DepositError(item: FormItem): Option<Message>
  {
    if item.deposit.None? || item.deposit.value < 0 then Some(NegativeDeposit)
    else if item.quantity.Some? && item.price.Some? && item.deposit.value > item.quantity.value * item.price.value
    then Some(DepositOverPrice)
    else None
  }

  function TotalError(item: FormItem): Option<Message>
  {
    if TotalOrZero(item) < 0 then Some(NegativeTotal) else None
  }

  function AmountError(amount: AmountField): Option<Message>
  {
    if amount.Empty? || amount.NotANumber? || amount.cents < 0 then Some(InvalidPaymentAmount) else None
  }

  /** What `validateOrder` records under `key`, if anything. */
  function Expected(key: ErrorKey, items: seq<FormItem>, products: seq<CatalogEntry>, amount: AmountField,
                    payMethod: string): Option<Message>
  {
    match key
    case ItemsKey => if items == [] then Some(AddItem) else None
    case ProductKey(i) => if i < |items| then ProductError(items[i]) else None
    case QuantityKey(i) => if i < |items| then QuantityError(items[i], products) else None
    case PriceKey(i) => if i < |items| then PriceError(items[i]) else None
    case DepositKey(i) => if i < |items| then DepositError(items[i]) else None
    case TotalKey(i) => if i < |items| then TotalError(items[i]) else None
    case PaymentAmountKey => AmountError(amount)
    case PaymentMethodKey => if payMethod == "" then Some(SelectMethod) else None
  }

  /** The rules the form demands, stated field by field. */
  predicate OrderValid(items: seq<FormItem>, products: seq<CatalogEntry>, amount: AmountField, payMethod: string)
  {
    items != []
    && (forall i :: 0 <= i < |items| ==>
          items[i].productId.Some? && items[i].productId.value != 0
          && items[i].quantity.Some? && items[i].quantity.value > 0
          && (FindEntry(products, items[i].productId.value).Some? ==>
                items[i].quantity.value <= FindEntry(products, items[i].productId.value).value.stock)
          && items[i].price.Some? && items[i].price.value > 0
          && items[i].deposit.Some? && 0 <= items[i].deposit.value <= items[i].quantity.value * items[i].price.value
          && TotalOrZero(items[i]) >= 0)
    && amount.Number? && amount.cents >= 0
    && payMethod != ""
  }

  /** No key is recorded exactly when the order obeys every rule. */
  lemma NoErrorsIffValid(items: seq<FormItem>, products: seq<CatalogEntry>, amount: AmountField, payMethod: string)
    ensures (forall key :: Expected(key, items, products, amount, payMethod).None?)
        <==> OrderValid(items, products, amount, payMethod)
  {
    if forall key :: Expected(key, items, products, amount, payMethod).None? {
      assert Expected(ItemsKey, items, products, amount, payMethod).None?;
      assert Expected(PaymentAmountKey, items, products, amount, payMethod).None?;
      assert Expected(PaymentMethodKey, items, products, amount, payMethod).None?;
      forall i | 0 <= i < |items|
        ensures items[i].productId.Some? && items[i].productId.value != 0
        ensures items[i].quantity.Some? && items[i].quantity.value > 0
        ensures FindEntry(products, items[i].productId.value).Some? ==>
                items[i].quantity.value <= FindEntry(products, items[i].productId.value).value.stock
        ensures items[i].price.Some? && items[i].price.value > 0
        ensures items[i].deposit.Some? && 0 <= items[i].deposit.value <= items[i].quantity.value * items[i].price.value
        ensures TotalOrZero(items[i]) >= 0
      {
        assert Expected(ProductKey(i), items, products, amount, payMethod).None?;
        assert Expected(QuantityKey(i), items, products, amount, payMethod).None?;
        assert Expected(PriceKey(i), items, products, amount, payMethod).None?;
        assert Expected(DepositKey(i), items, products, amount, payMethod).None?;
        assert Expected(TotalKey(i), items, products, amount, payMethod).None?;
      }
    }
  }

  /** The new-order dialog's state. */
  class OrderForm {
    var items: seq<FormItem>
    var amount: AmountField
    var payMethod: string
    var orderErrors: seq<Recorded>

    /** The dialog as it opens: one blank row, no amount, cash. */
    constructor ()
      ensures items == [BlankItem] && amount == Empty && payMethod == "cash" && orderErrors == []
      ensures Consistent(items)
    {
      items := [BlankItem];
      amount := Empty;
      payMethod := "cash";
      orderErrors := [];
    }

    /** The product select of row `index`: the row takes the product's
        name and price (or `''` and 0 when none is found) and its total is
        recomputed. */
    method SelectItemProduct(index: nat, productId: Option<int>, products: seq<CatalogEntry>)
      requires index < |items|
      modifies this
      ensures |items| == |old(items)|
      ensures forall j :: 0 <= j < |items| && j != index ==> items[j] == old(items)[j]
      ensures var found := if productId.Some? then FindEntry(products, productId.value) else None;
        items[index] == old(items)[index].(productId := productId,
                                           itemType := if found.Some? then found.value.name else "",
                                           price := Some(if found.Some? then found.value.price else 0),
                                           total := LineTotal(old(items)[index].quantity,
                                                              Some(if found.Some? then found.value.price else 0),
                                                              old(items)[index].deposit))
      ensures Consistent(old(items)) ==> Consistent(items)
      ensures amount == old(amount) && payMethod == old(payMethod) && orderErrors == old(orderErrors)
    {
      var product := if productId.Some? then FindEntry(products, productId.value) else None;
      var item := items[index];
      var price := Some(if product.Some? then product.value.price else 0);
      item := item.(productId := productId, itemType := if product.Some? then product.value.name else "",
                    price := price, total := LineTotal(item.quantity, price, item.deposit));
      items := items[index := item];
    }

    /** The quantity field of row `index` (`parseInt` of the input). */
    method SetQuantity(index: nat, quantity: Option<int>)
      requires index < |items|
      modifies this
      ensures |items| == |old(items)|
      ensures forall j :: 0 <= j < |items| && j != index ==> items[j] == old(items)[j]
      ensures items[index] == old(items)[index].(quantity := quantity,
        total := LineTotal(quantity, old(items)[index].price, old(items)[index].deposit))
      ensures Consistent(old(items)) ==> Consistent(items)
      ensures amount == old(amount) && payMethod == old(payMethod) && orderErrors == old(orderErrors)
    {
      var item := items[index];
      item := item.(quantity := quantity, total := LineTotal(quantity, item.price, item.deposit));
      items := items[index := item];
    }

    /** The price field of row `index` (`parseFloat` of the input). */
    method SetPrice(index: nat, price: Option<int>)
      requires index < |items|
      modifies this
      ensures |items| == |old(items)|
      ensures forall j :: 0 <= j < |items| && j != index ==> items[j] == old(items)[j]
      ensures items[index] == old(items)[index].(price := price,
        total := LineTotal(old(items)[index].quantity, price, old(items)[index].deposit))
      ensures Consistent(old(items)) ==> Consistent(items)
      ensures amount == old(amount) && payMethod == old(payMethod) && orderErrors == old(orderErrors)
    {
      var item := items[index];
      item := item.(price := price, total := LineTotal(item.quantity, price, item.deposit));
      items := items[index := item];
    }

    /** The deposit field of row `index` (`parseFloat` of the input). */
    method SetDeposit(index: nat, deposit: Option<int>)
      requires index < |items|
      modifies this
      ensures |items| == |old(items)|
      ensures forall j :: 0 <= j < |items| && j != index ==> items[j] == old(items)[j]
      ensures items[index] == old(items)[index].(deposit := deposit,
        total := LineTotal(old(items)[index].quantity, old(items)[index].price, deposit))
      ensures Consistent(old(items)) ==> Consistent(items)
      ensures amount == old(amount) && payMethod == old(payMethod) && orderErrors == old(orderErrors)
    {
      var item := items[index];
      item := item.(deposit := deposit, total := LineTotal(item.quantity, item.price, deposit));
      items := items[index := item];
    }

    /** `validateOrder`: records an error under each key whose rule fails
        and reports whether none did. */
    method ValidateOrder(products: seq<CatalogEntry>) returns (ok: bool)
      modifies this
      ensures orderErrors == ErrorsOf(items, products, amount, payMethod)
      ensures ok <==> orderErrors == []
      ensures ok <==> OrderValid(items, products, amount, payMethod)
      ensures items == old(items) && amount == old(amount) && payMethod == old(payMethod)
    {
      var errors: seq<Recorded> := [];
      if |items| == 0 {
        errors := errors + [Recorded(ItemsKey, AddItem)];
      }
      var rows := ForEachItem(items, products);
      errors := errors + rows;
      if amount.Empty? || amount.NotANumber? || amount.cents < 0 {
        errors := errors + [Recorded(PaymentAmountKey, InvalidPaymentAmount)];
      }
      if payMethod == "" {
        errors := errors + [Recorded(PaymentMethodKey, SelectMethod)];
      }
      orderErrors := errors;
      ok := |errors| == 0;
      ErrorsOfEmptyIff(items, products, amount, payMethod);
    }
  }

  /** The `forEach` over the rows. */
  method ForEachItem(items: seq<FormItem>, products: seq<CatalogEntry>) returns (errors: seq<Recorded>)
    ensures errors == RowsErrors(items, products)
  {
    errors := [];
    var k := 0;
    assert items[..0] == [];
    while k < |items|
      invariant 0 <= k <= |items|
      invariant errors == RowsErrors(items[..k], products)
    {
      var row := RowErrors(k, items[k], products);
      errors := errors + row;
      assert items[..k + 1][..k] == items[..k];
      k := k + 1;
    }
    assert items[..|items|] == items;
  }

  /** `key` with the message, if there is one. */
  function Opt(key: ErrorKey, m: Option<Message>): seq<Recorded>
  {
    if m.Some? then [Recorded(key, m.value)] else []
  }

  /** The errors recorded for row `k`, in the order they are written. */
  function RowErrorList(k: nat, item: FormItem, products: seq<CatalogEntry>): seq<Recorded>
  {
    Opt(ProductKey(k), ProductError(item)) + Opt(QuantityKey(k), QuantityError(item, products))
    + Opt(PriceKey(k), PriceError(item)) + Opt(DepositKey(k), DepositError(item))
    + Opt(TotalKey(k), TotalError(item))
  }

  /** The errors recorded for all the rows. */
  function RowsErrors(items: seq<FormItem>, products: seq<CatalogEntry>): seq<Recorded>
  {
    if items == [] then []
    else RowsErrors(items[..|items| - 1], products) + RowErrorList(|items| - 1, items[|items| - 1], products)
  }

  /** The `errors` object `validateOrder` ends with. */
  function ErrorsOf(items: seq<FormItem>, products: seq<CatalogEntry>, amount: AmountField, payMethod: string)
    : seq<Recorded>
  {
    Opt(ItemsKey, if items == [] then Some(AddItem) else None) + RowsErrors(items, products)
    + Opt(PaymentAmountKey, AmountError(amount)) + Opt(PaymentMethodKey, if payMethod == "" then Some(SelectMethod) else None)
  }

  /** `errors[key]`: the message last written under `key`. */
  function Lookup(errors: seq<Recorded>, key: ErrorKey): (m: Option<Message>)
    ensures m.Some? ==> Recorded(key, m.value) in errors
  {
    if errors == [] then None
    else if errors[|errors| - 1].key == key then Some(errors[|errors| - 1].message)
    else Lookup(errors[..|errors| - 1], key)
  }

  lemma {:induction false} LookupAppend(a: seq<Recorded>, b: seq<Recorded>, key: ErrorKey)
    ensures Lookup(a + b, key) == if Lookup(b, key).Some? then Lookup(b, key) else Lookup(a, key)
  {
    if b != [] {
      var n := |b| - 1;
      assert (a + b)[..|a + b| - 1] == a + b[..n];
      LookupAppend(a, b[..n], key);
    } else {
      assert a + b == a;
    }
  }

  lemma LookupOpt(k: ErrorKey, m: Option<Message>, key: ErrorKey)
    ensures Lookup(Opt(k, m), key) == if key == k then m else None
  {
    if m.Some? {
      assert Opt(k, m)[..0] == [];
    }
  }

  /** Whether `key` names a field of row `k`. */
  predicate OfRow(key: ErrorKey, k: nat)
  {
    RowKey(key) && key.index == k
  }

  predicate RowKey(key: ErrorKey)
  {
    key.ProductKey? || key.QuantityKey? || key.PriceKey? || key.DepositKey? || key.TotalKey?
  }

  lemma RowLookup(k: nat, item: FormItem, products: seq<CatalogEntry>, key: ErrorKey)
    ensures Lookup(RowErrorList(k, item, products), key) == if OfRow(key, k) then RowError(key, item, products) else None
  {
    var a, b, c, d, e := Opt(ProductKey(k), ProductError(item)), Opt(QuantityKey(k), QuantityError(item, products)),
      Opt(PriceKey(k), PriceError(item)), Opt(DepositKey(k), DepositError(item)), Opt(TotalKey(k), TotalError(item));
    LookupAppend(a + b + c + d, e, key);
    LookupAppend(a + b + c, d, key);
    LookupAppend(a + b, c, key);
    LookupAppend(a, b, key);
    LookupOpt(ProductKey(k), ProductError(item), key);
    LookupOpt(QuantityKey(k), QuantityError(item, products), key);
    LookupOpt(PriceKey(k), PriceError(item), key);
    LookupOpt(DepositKey(k), DepositError(item), key);
    LookupOpt(TotalKey(k), TotalError(item), key);
  }

  lemma {:induction false} RowsLookup(items: seq<FormItem>, products: seq<CatalogEntry>, key: ErrorKey)
    ensures Lookup(RowsErrors(items, products), key)
         == if RowKey(key) && key.index < |items| then RowError(key, items[key.index], products) else None
  {
    if items != [] {
      var n := |items| - 1;
      RowsLookup(items[..n], products, key);
      LookupAppend(RowsErrors(items[..n], products), RowErrorList(n, items[n], products), key);
      RowLookup(n, items[n], products, key);
      if RowKey(key) && key.index < n {
        assert items[..n][key.index] == items[key.index];
      }
    }
  }

  /** Each key of the errors holds exactly what its own rule reports. */
  lemma ErrorsOfLookup(items: seq<FormItem>, products: seq<CatalogEntry>, amount: AmountField, payMethod: string,
                       key: ErrorKey)
    ensures Lookup(ErrorsOf(items, products, amount, payMethod), key) == Expected(key, items, products, amount, payMethod)
  {
    var a := Opt(ItemsKey, if items == [] then Some(AddItem) else None);
    var b := RowsErrors(items, products);
    var c := Opt(PaymentAmountKey, AmountError(amount));
    var d := Opt(PaymentMethodKey, if payMethod == "" then Some(SelectMethod) else None);
    LookupAppend(a + b + c, d, key);
    LookupAppend(a + b, c, key);
    LookupAppend(a, b, key);
    LookupOpt(ItemsKey, if items == [] then Some(AddItem) else None, key);
    LookupOpt(PaymentAmountKey, AmountError(amount), key);
    LookupOpt(PaymentMethodKey, if payMethod == "" then Some(SelectMethod) else None, key);
    RowsLookup(items, products, key);
  }

  /** No error is recorded exactly when the order obeys every rule. */
  lemma ErrorsOfEmptyIff(items: seq<FormItem>, products: seq<CatalogEntry>, amount: AmountField, payMethod: string)
    ensures ErrorsOf(items, products, amount, payMethod) == [] <==> OrderValid(items, products, amount, payMethod)
  {
    var errors := ErrorsOf(items, products, amount, payMethod);
    NoErrorsIffValid(items, products, amount, payMethod);
    if errors == [] {
      forall key ensures Expected(key, items, products, amount, payMethod).None? {
        ErrorsOfLookup(items, products, amount, payMethod, key);
      }
    } else {
      var key := errors[|errors| - 1].key;
      ErrorsOfLookup(items, products, amount, payMethod, key);
    }
  }

  /** What `validateOrder` records for a row, by the kind of key,
      whatever its index. */
  function RowError(key: ErrorKey, item: FormItem, products: seq<CatalogEntry>): Option<Message>
  {
    match key
    case ProductKey(_) => ProductError(item)
    case QuantityKey(_) => QuantityError(item, products)
    case PriceKey(_) => PriceError(item)
    case DepositKey(_) => DepositError(item)
    case TotalKey(_) => TotalError(item)
    case _ => None
  }

  /** One pass of the `forEach` body over row `k`: the errors it records. */
  method RowErrors(k: nat, item: FormItem, products: seq<CatalogEntry>) returns (errors: seq<Recorded>)
    ensures errors == RowErrorList(k, item, products)
  {
    var first := ProductChecks(k, item, products);
    var second := PriceChecks(k, item);
    errors := first + second;
  }

  /** Rules 2 and 3 of the body: the product and the quantity. */
  method ProductChecks(k: nat, item: FormItem, products: seq<CatalogEntry>) returns (errors: seq<Recorded>)
    ensures errors == Opt(ProductKey(k), ProductError(item)) + Opt(QuantityKey(k), QuantityError(item, products))
  {
    errors := [];
    if item.productId.None? || item.productId == Some(0) {
      errors := errors + [Recorded(ProductKey(k), SelectProduct)];
    }
    assert errors == Opt(ProductKey(k), ProductError(item));
    if item.quantity.None? || item.quantity.value <= 0 {
      errors := errors + [Recorded(QuantityKey(k), InvalidQuantity)];
    } else {
      var product := if item.productId.Some? then FindEntry(products, item.productId.value) else None;
      if product.Some? && item.quantity.value > product.value.stock {
        errors := errors + [Recorded(QuantityKey(k), OnlyInStock(product.value.stock))];
      }
    }
  }

  /** Rules 4 to 6 of the body: the price, the deposit and the total. */
  method PriceChecks(k: nat, item: FormItem) returns (errors: seq<Recorded>)
    ensures errors == Opt(PriceKey(k), PriceError(item)) + Opt(DepositKey(k), DepositError(item))
                      + Opt(TotalKey(k), TotalError(item))
  {
    errors := [];
    if item.price.None? || item.price.value <= 0 {
      errors := errors + [Recorded(PriceKey(k), InvalidPrice)];
    }
    assert errors == Opt(PriceKey(k), PriceError(item));
    ghost var before := errors;
    if item.deposit.None? || item.deposit.value < 0 {
      errors := errors + [Recorded(DepositKey(k), NegativeDeposit)];
    } else if item.quantity.Some? && item.price.Some? && item.deposit.value > item.quantity.value * item.price.value {
      errors := errors + [Recorded(DepositKey(k), DepositOverPrice)];
    }
    assert errors == before + Opt(DepositKey(k), DepositError(item));
    before := errors;
    if TotalOrZero(item) < 0 {
      errors := errors + [Recorded(TotalKey(k), NegativeTotal)];
    }
  }

  // ----------------------------------------------------- payment dialog

  datatype PreCheckError = NoInvoiceSelected | PaymentAmountInvalid | NoMethod | DetailsUnavailable
                         | ExceedsBalance(remaining: int)

  /** The payment dialog's amount. The field is free text, and the page
      reads it two ways: `Number(text)` for the `<= 0` check (`coerced`)
      and `parseFloat(text)` for the balance check and the posted body
      (`parsed`), each in cents, `None` for NaN. The two differ on a text
      such as `12abc` (NaN, 12) or `0x10` (16, 0). `NoAmount` is the empty
      text, the only falsy string. */
  datatype PaymentAmount = NoAmount | Typed(coerced: Option<int>, parsed: Option<int>)

  /** Passes `!amount || amount <= 0`: a non-empty text whose `Number`
      reading is not a number at most 0 (NaN compares false). */
  predicate AmountGiven(amount: PaymentAmount)
  {
    amount.Typed? && !(amount.coerced.Some? && amount.coerced.value <= 0)
  }

  /** `parseFloat(amount) > remainingBalance`, false for NaN. */
  predicate Overshoots(amount: PaymentAmount, remaining: int)
  {
    amount.Typed? && amount.parsed.Some? && amount.parsed.value > remaining
  }

  /** The body posted to the payment route: the amount is `parseFloat`
      of the text. */
  function RequestFor(invoiceId: string, amount: PaymentAmount, payMethod: string): PaymentRequest
  {
    PaymentRequest(invoiceId, if amount.Typed? then amount.parsed else None, payMethod)
  }

  /** `total_amount || 0`. */
  function TotalAmountOrZero(details: OrderDetails): int
  {
    if details.totalAmount.Some? then details.totalAmount.value else 0
  }

  /** `handleRecordPayment` as written: `invoiceId` is the selected order's
      invoice id (`None` when no order is selected), `details` the order
      details response (`None` when the request fails). The details carry
      no `total_paid`, so the paid amount is always taken as 0. */
  function PaymentPreCheck(invoiceId: Option<string>, amount: PaymentAmount, payMethod: string,
                           details: Option<OrderDetails>): Result<PaymentRequest, PreCheckError>
  {
    PreCheckWith(invoiceId, amount, payMethod, details, 0)
  }

  /** The checks with `currentPaid` as the amount taken as already paid. */
  function PreCheckWith(invoiceId: Option<string>, amount: PaymentAmount, payMethod: string,
                        details: Option<OrderDetails>, currentPaid: int): (r: Result<PaymentRequest, PreCheckError>)
    ensures r.Ok? ==> invoiceId.Some? && amount.Typed?
                      && r.value == PaymentRequest(invoiceId.value, amount.parsed, payMethod)
  {
    if invoiceId.None? || invoiceId.value == "" then Err(NoInvoiceSelected)
    else if !AmountGiven(amount) then Err(PaymentAmountInvalid)
    else if payMethod == "" then Err(NoMethod)
    else if details.None? then Err(DetailsUnavailable)
    else
      var remaining := TotalAmountOrZero(details.value) - currentPaid;
      if Overshoots(amount, remaining) then Err(ExceedsBalance(remaining))
      else Ok(RequestFor(invoiceId.value, amount, payMethod))
  }

  /** The checks run in order, for any amount taken as already paid: the
      request is built exactly when every check passes, and each refusal
      is the first check that fails. */
  lemma PreCheckWithChecks(invoiceId: Option<string>, amount: PaymentAmount, payMethod: string,
                           details: Option<OrderDetails>, currentPaid: int)
    ensures PreCheckWith(invoiceId, amount, payMethod, details, currentPaid).Ok?
        <==> invoiceId.Some? && invoiceId.value != "" && AmountGiven(amount)
             && payMethod != "" && details.Some?
             && !Overshoots(amount, TotalAmountOrZero(details.value) - currentPaid)
    ensures PreCheckWith(invoiceId, amount, payMethod, details, currentPaid) == Err(NoInvoiceSelected)
        <==> invoiceId.None? || invoiceId.value == ""
    ensures PreCheckWith(invoiceId, amount, payMethod, details, currentPaid) == Err(PaymentAmountInvalid)
        <==> invoiceId.Some? && invoiceId.value != "" && !AmountGiven(amount)
    ensures PreCheckWith(invoiceId, amount, payMethod, details, currentPaid) == Err(NoMethod)
        <==> invoiceId.Some? && invoiceId.value != "" && AmountGiven(amount) && payMethod == ""
    ensures PreCheckWith(invoiceId, amount, payMethod, details, currentPaid) == Err(DetailsUnavailable)
        <==> invoiceId.Some? && invoiceId.value != "" && AmountGiven(amount) && payMethod != "" && details.None?
    ensures PreCheckWith(invoiceId, amount, payMethod, details, currentPaid).Err?
            && PreCheckWith(invoiceId, amount, payMethod, details, currentPaid).error.ExceedsBalance?
        <==> invoiceId.Some? && invoiceId.value != "" && AmountGiven(amount)
             && payMethod != "" && details.Some?
             && Overshoots(amount, TotalAmountOrZero(details.value) - currentPaid)
    ensures PreCheckWith(invoiceId, amount, payMethod, details, currentPaid).Err?
            && PreCheckWith(invoiceId, amount, payMethod, details, currentPaid).error.ExceedsBalance? ==>
      PreCheckWith(invoiceId, amount, payMethod, details, currentPaid).error.remaining
        == TotalAmountOrZero(details.value) - currentPaid
  {
  }

  /** As written, the balance check compares the amount with the whole
      invoice total, whatever has been paid on it already. */
  lemma PaymentPreCheckChecks(invoiceId: Option<string>, amount: PaymentAmount, payMethod: string,
                              details: Option<OrderDetails>)
    ensures PaymentPreCheck(invoiceId, amount, payMethod, details).Ok?
        <==> invoiceId.Some? && invoiceId.value != "" && AmountGiven(amount)
             && payMethod != "" && details.Some?
             && !Overshoots(amount, TotalAmountOrZero(details.value))
    ensures PaymentPreCheck(invoiceId, amount, payMethod, details).Err?
            && PaymentPreCheck(invoiceId, amount, payMethod, details).error.ExceedsBalance? ==>
      PaymentPreCheck(invoiceId, amount, payMethod, details).error.remaining == TotalAmountOrZero(details.value)
  {
    PreCheckWithChecks(invoiceId, amount, payMethod, details, 0);
  }

  /** The two readings disagree: a text such as `12abc` (`Number` NaN,
      `parseFloat` 12) passes the `<= 0` check and posts 12, and one such
      as `-5abc` (NaN, -5) passes it too and posts -5. */
  lemma MixedTextPosted(invoiceId: string, payMethod: string, details: OrderDetails, parsed: int)
    requires invoiceId != "" && payMethod != "" && parsed <= TotalAmountOrZero(details)
    ensures PaymentPreCheck(Some(invoiceId), Typed(None, Some(parsed)), payMethod, Some(details))
              == Ok(PaymentRequest(invoiceId, Some(parsed), payMethod))
  {
  }

  /** The check as evidently intended: the paid amount is the sum of the
      payments the details list. */
  function PaymentPreCheckFixed(invoiceId: Option<string>, amount: PaymentAmount, payMethod: string,
                                details: Option<OrderDetails>): Result<PaymentRequest, PreCheckError>
  {
    PreCheckWith(invoiceId, amount, payMethod, details,
                 if details.Some? then AmountSum(details.value.payments) else 0)
  }

  /** The corrected check refuses exactly a missing invoice, an empty or
      non-positive amount, a missing payMethod, failed details and an amount
      above the remaining balance; an amount it posts never takes the
      payments beyond the invoice total. */
  lemma PaymentPreCheckFixedIff(invoiceId: Option<string>, amount: PaymentAmount, payMethod: string,
                                details: Option<OrderDetails>)
    ensures PaymentPreCheckFixed(invoiceId, amount, payMethod, details).Ok?
        <==> invoiceId.Some? && invoiceId.value != "" && AmountGiven(amount)
             && payMethod != "" && details.Some?
             && !(amount.parsed.Some? && AmountSum(details.value.payments) + amount.parsed.value
                                           > TotalAmountOrZero(details.value))
    ensures PaymentPreCheckFixed(invoiceId, amount, payMethod, details).Ok?
            && PaymentPreCheckFixed(invoiceId, amount, payMethod, details).value.amount.Some? ==>
      AmountSum(details.value.payments) + PaymentPreCheckFixed(invoiceId, amount, payMethod, details).value.amount.value
        <= TotalAmountOrZero(details.value)
  {
    PreCheckWithChecks(invoiceId, amount, payMethod, details,
                       if details.Some? then AmountSum(details.value.payments) else 0);
  }

  /** As written, a payment that overshoots the balance left by earlier
      payments passes: 800 of 1000 already paid, 500 more accepted. */
  lemma PreCheckIgnoresEarlierPayments()
    ensures var details := OrderDetails(OrderRow(1, "ORD0001", "CUS-2025-0001"), Some(100000), Some(Pending), [],
                                        [PaymentRow(1, 80000, "cash", 80000, 0)]);
      var amount := Typed(Some(50000), Some(50000));
      PaymentPreCheck(Some("INV0001"), amount, "cash", Some(details)).Ok?
      && AmountSum(details.payments) + 50000 > TotalAmountOrZero(details)
      && PaymentPreCheckFixed(Some("INV0001"), amount, "cash", Some(details)) == Err(ExceedsBalance(20000))
  {
    var details := OrderDetails(OrderRow(1, "ORD0001", "CUS-2025-0001"), Some(100000), Some(Pending), [],
                                [PaymentRow(1, 80000, "cash", 80000, 0)]);
    assert details.payments[..0] == [];
  }

  // ----------------------------------------------------- list controls

  /** `canDeleteOrder`: the stored user's role, if any. */
  function CanDeleteOrder(role: Option<string>): (r: bool)
    ensures r <==> role == Some("admin") || role == Some("manager")
  {
    match role
    case None => false
    case Some(name) => name == "admin" || name == "manager"
  }

  /** The order search as written: a blank query shows every order,
      otherwise the lower-cased query must occur in the customer id as it
      is. */
  function SearchOrders(orders: seq<OrderRow>, query: string): (r: seq<OrderRow>)
    ensures IsBlank(query) ==> r == orders
  {
    TrimEmptyIffBlank(query);
    if Trim(query) == "" then orders
    else Filter(orders, (o: OrderRow) => Contains(o.customerId, ToLower(query)))
  }

  /** No lower-case ASCII letter occurs in `s`. */
  predicate NoLowerCase(s: string)
  {
    forall i :: 0 <= i < |s| ==> !('a' <= s[i] <= 'z')
  }

  /** A string without lower-case letters contains no string that has one. */
  lemma {:induction false} NoLowerNoContains(s: string, sub: string, j: nat)
    requires NoLowerCase(s) && j < |sub| && 'a' <= sub[j] <= 'z'
    ensures !Contains(s, sub)
    decreases |s|
  {
    if j < |s| {
      assert s[j] != sub[j];
    }
    if s != [] {
      NoLowerNoContains(s[1..], sub, j);
    }
  }

  /** As written, a query with an upper-case letter finds no order whose
      customer id has no lower-case letter. */
  lemma SearchMissesUpperCase(orders: seq<OrderRow>, query: string, j: nat)
    requires !IsBlank(query) && j < |query| && 'A' <= query[j] <= 'Z'
    requires forall i :: 0 <= i < |orders| ==> NoLowerCase(orders[i].customerId)
    ensures SearchOrders(orders, query) == []
  {
    TrimEmptyIffBlank(query);
    var q := ToLower(query);
    forall i | 0 <= i < |orders| ensures !Contains(orders[i].customerId, q) {
      NoLowerNoContains(orders[i].customerId, q, j);
    }
    FilterNone(orders, (o: OrderRow) => Contains(o.customerId, q));
  }

  /** The generated customer ids are upper case and begin with `CUS`. */
  lemma GeneratedIdUpperCase(year: nat, n: nat)
    ensures NoLowerCase(FormatCustomerId(year, n)) && "CUS" <= FormatCustomerId(year, n)
  {
    PaddedDigitsValue(NatToString(n), 4);
    PrefixedDigits(NatToString(year), PadStart(NatToString(n), 4, '0'));
  }

  lemma PrefixedDigits(y: string, p: string)
    requires AllDigits(y) && AllDigits(p)
    ensures NoLowerCase("CUS-" + y + "-" + p) && "CUS" <= "CUS-" + y + "-" + p
  {
    var s := "CUS-" + y + "-" + p;
    forall i | 0 <= i < |s| ensures !('a' <= s[i] <= 'z') {
      if i < 4 {
      } else if i < 4 + |y| {
        assert s[i] == y[i - 4];
      } else if i == 4 + |y| {
      } else {
        assert s[i] == p[i - 5 - |y|];
      }
    }
  }

  /** So the search for `CUS` misses an order whose customer id begins
      with it, as every generated one does. */
  lemma SearchForPrefix(o: OrderRow)
    requires NoLowerCase(o.customerId) && "CUS" <= o.customerId
    ensures Contains(o.customerId, "CUS")
    ensures SearchOrders([o], "CUS") == []
  {
    NotBlankCus();
    SearchMissesUpperCase([o], "CUS", 0);
  }

  /** The corrected search finds that order. */
  lemma SearchFixedForPrefix(o: OrderRow)
    requires "CUS" <= o.customerId
    ensures SearchOrdersFixed([o], "CUS") == [o]
  {
    assert Contains(ToLower(o.customerId), ToLower("CUS")) by {
      LowerKeepsPrefix("CUS", o.customerId);
    }
    NotBlankCus();
    SearchOrdersFixedKeeps([o], "CUS");
    var r := SearchOrdersFixed([o], "CUS");
    assert r == [o] by {
      assert o in r && |r| <= 1 && r[0] in [o];
    }
  }

  lemma NotBlankCus()
    ensures !IsBlank("CUS")
  {
    assert !IsSpace("CUS"[0]);
  }

  lemma LowerKeepsPrefix(a: string, s: string)
    requires a <= s
    ensures ToLower(a) <= ToLower(s)
  {
    assert ToLower(s)[..|a|] == ToLower(a);
  }

  /** The search as evidently intended: both sides lower-cased. */
  function SearchOrdersFixed(orders: seq<OrderRow>, query: string): (r: seq<OrderRow>)
    ensures IsBlank(query) ==> r == orders
  {
    TrimEmptyIffBlank(query);
    if Trim(query) == "" then orders
    else Filter(orders, (o: OrderRow) => Contains(ToLower(o.customerId), ToLower(query)))
  }

  /** The corrected search keeps, in order, the orders whose id contains
      the query in any case, and only those; blank shows all. */
  lemma SearchOrdersFixedKeeps(orders: seq<OrderRow>, query: string)
    requires !IsBlank(query)
    ensures forall o :: o in SearchOrdersFixed(orders, query) <==>
      o in orders && Contains(ToLower(o.customerId), ToLower(query))
  {
    TrimEmptyIffBlank(query);
  }
}
