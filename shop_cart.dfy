/** The shop page: a fixed catalogue, a cart that maps a product id to
    its count, its total, and the checkout request. The cart's keys are
    integer-like, so its entries come out in ascending id order; the
    catalogue lists its ids in ascending order, so the entries of a cart
    are the catalogue's products that are in the cart, in catalogue
    order. */
module ShopCart {
  import opened Common

  datatype CatalogueItem = CatalogueItem(id: int, name: string, price: int)

  const Catalogue: seq<CatalogueItem> := [
    CatalogueItem(1, "500ml Bottle", 10),
    CatalogueItem(2, "1L Bottle", 15),
    CatalogueItem(3, "5L Bottle", 50),
    CatalogueItem(4, "20L Bottle", 150),
    CatalogueItem(5, "Head Clip", 20),
    CatalogueItem(6, "Bottle Holder", 30)
  ]

  predicate Listed(cat: seq<CatalogueItem>, id: int)
  {
    exists i :: 0 <= i < |cat| && cat[i].id == id
  }

  predicate IdsIncrease(cat: seq<CatalogueItem>)
  {
    forall i, j :: 0 <= i < j < |cat| ==> cat[i].id < cat[j].id
  }

  lemma CatalogueIdsIncrease()
    ensures IdsIncrease(Catalogue)
  {
  }

  /** `products.find(p => p.id === id)`: the first product with that id. */
  function Find(cat: seq<CatalogueItem>, id: int): (r: Option<CatalogueItem>)
    ensures r.Some? <==> Listed(cat, id)
    ensures r.Some? ==> r.value in cat && r.value.id == id
  {
    if cat == [] then None
    else if cat[0].id == id then Some(cat[0])
    else
      var r := Find(cat[1..], id);
      assert Listed(cat[1..], id) ==> Listed(cat, id) by {
        if Listed(cat[1..], id) {
          var i :| 0 <= i < |cat[1..]| && cat[1..][i].id == id;
          assert cat[i + 1].id == id;
        }
      }
      assert Listed(cat, id) ==> Listed(cat[1..], id) by {
        if Listed(cat, id) {
          var i :| 0 <= i < |cat| && cat[i].id == id;
          assert cat[1..][i - 1].id == id;
        }
      }
      r
  }

  /** In a catalogue with distinct ids, `find` returns the product itself. */
  lemma {:induction false} FindListed(cat: seq<CatalogueItem>)
    requires IdsIncrease(cat)
    ensures forall i :: 0 <= i < |cat| ==> Find(cat, cat[i].id) == Some(cat[i])
  {
    if cat != [] {
      FindListed(cat[1..]);
      forall i | 0 < i < |cat| ensures Find(cat, cat[i].id) == Some(cat[i]) {
        assert cat[1..][i - 1] == cat[i];
      }
    }
  }

  predicate InCatalogue(id: int)
  {
    Listed(Catalogue, id)
  }

  /** The price `calculateTotal` finds for a product id. */
  function PriceOf(id: int): int
    requires InCatalogue(id)
  {
    PriceIn(Catalogue, id)
  }

  type Cart = map<int, int>

  /** Every key is a catalogue product with a count of at least 1. */
  predicate ValidCart(cart: Cart)
  {
    forall id :: id in cart ==> InCatalogue(id) && cart[id] >= 1
  }

  /** The count of a product, an absent one counting as 0. */
  function Quantity(cart: Cart, id: int): int
  {
    if id in cart then cart[id] else 0
  }

  // ------------------------------------------------------ add and remove

  /** `handleAddToCart`. */
  function Add(cart: Cart, id: int): (r: Cart)
    ensures id in r && r[id] == Quantity(cart, id) + 1
    ensures forall k :: k != id ==> (k in r <==> k in cart) && (k in cart ==> r[k] == cart[k])
  {
    cart[id := Quantity(cart, id) + 1]
  }

  /** The cart after `handleRemoveFromCart`, as a value. */
  function Removed(cart: Cart, id: int): (r: Cart)
    ensures id in cart && cart[id] > 1 ==> id in r && r[id] == cart[id] - 1
    ensures !(id in cart && cart[id] > 1) ==> id !in r
    ensures forall k :: k != id ==> (k in r <==> k in cart) && (k in cart ==> r[k] == cart[k])
  {
    if id in cart && cart[id] > 1 then cart[id := cart[id] - 1] else cart - {id}
  }

  /** `handleRemoveFromCart`: copy the cart, then decrement the count or
      delete the key. */
  method RemoveFromCart(prev: Cart, id: int) returns (newCart: Cart)
    ensures newCart == Removed(prev, id)
  {
    newCart := prev;
    if id in newCart && newCart[id] > 1 {
      newCart := newCart[id := newCart[id] - 1];
    } else {
      newCart := newCart - {id};
    }
  }

  /** Adding a catalogue product and removing any product keep every
      stored count at least 1. */
  lemma EditsKeepCartValid(cart: Cart, id: int)
    requires ValidCart(cart)
    ensures InCatalogue(id) ==> ValidCart(Add(cart, id))
    ensures ValidCart(Removed(cart, id))
  {
  }

  /** The counts after an edit: one more, or one fewer down to 0, and
      every other count unchanged. */
  lemma EditQuantities(cart: Cart, id: int)
    requires ValidCart(cart)
    ensures Quantity(Add(cart, id), id) == Quantity(cart, id) + 1
    ensures Quantity(Removed(cart, id), id) == if Quantity(cart, id) == 0 then 0 else Quantity(cart, id) - 1
    ensures forall k :: k != id ==>
              Quantity(Add(cart, id), k) == Quantity(cart, k) && Quantity(Removed(cart, id), k) == Quantity(cart, k)
  {
  }

  /** Removing what was just added gives back the cart. */
  lemma RemoveUndoesAdd(cart: Cart, id: int)
    requires ValidCart(cart)
    ensures Removed(Add(cart, id), id) == cart
  {
    var r := Removed(Add(cart, id), id);
    assert forall k :: k in r <==> k in cart;
  }

  // ------------------------------------------------------------ entries

  /** The cart's entries, taken in the order of the catalogue `cat`. */
  function EntriesIn(cat: seq<CatalogueItem>, cart: Cart): (r: seq<(int, int)>)
    ensures forall i :: 0 <= i < |r| ==> Listed(cat, r[i].0)
  {
    if cat == [] then []
    else
      var rest := EntriesIn(cat[1..], cart);
      assert forall i :: 0 <= i < |rest| ==> Listed(cat, rest[i].0) by {
        forall i | 0 <= i < |rest| ensures Listed(cat, rest[i].0) {
          var j :| 0 <= j < |cat[1..]| && cat[1..][j].id == rest[i].0;
          assert cat[j + 1].id == rest[i].0;
        }
      }
      (if cat[0].id in cart then [(cat[0].id, cart[cat[0].id])] else []) + rest
  }

  /** `Object.entries(cart)` with the keys read back by `parseInt`. */
  function Entries(cart: Cart): seq<(int, int)>
  {
    EntriesIn(Catalogue, cart)
  }

  lemma {:induction false} EntriesInContents(cat: seq<CatalogueItem>, cart: Cart)
    ensures forall e :: e in EntriesIn(cat, cart) <==> e.0 in cart && e.1 == cart[e.0] && Listed(cat, e.0)
  {
    if cat != [] {
      EntriesInContents(cat[1..], cart);
      forall e: (int, int) | e.0 in cart && e.1 == cart[e.0] && Listed(cat, e.0) && e.0 != cat[0].id
        ensures Listed(cat[1..], e.0)
      {
        var i :| 0 <= i < |cat| && cat[i].id == e.0;
        assert cat[1..][i - 1].id == e.0;
      }
    }
  }

  lemma {:induction false} EntriesInIncrease(cat: seq<CatalogueItem>, cart: Cart)
    requires IdsIncrease(cat)
    ensures forall i, j :: 0 <= i < j < |EntriesIn(cat, cart)| ==> EntriesIn(cat, cart)[i].0 < EntriesIn(cat, cart)[j].0
  {
    if cat != [] {
      EntriesInIncrease(cat[1..], cart);
      var rest := EntriesIn(cat[1..], cart);
      forall i | 0 <= i < |rest| ensures cat[0].id < rest[i].0 {
        var j :| 0 <= j < |cat[1..]| && cat[1..][j].id == rest[i].0;
        assert cat[j + 1].id == rest[i].0;
      }
    }
  }

  /** The entries of a valid cart: each product of the cart once, with its
      count, in ascending id order. */
  lemma EntriesOfCart(cart: Cart)
    requires ValidCart(cart)
    ensures forall e :: e in Entries(cart) <==> e.0 in cart && e.1 == cart[e.0]
    ensures forall i, j :: 0 <= i < j < |Entries(cart)| ==> Entries(cart)[i].0 < Entries(cart)[j].0
  {
    EntriesInContents(Catalogue, cart);
    CatalogueIdsIncrease();
    EntriesInIncrease(Catalogue, cart);
  }

  // -------------------------------------------------------------- total

  /** The price `find` gives a listed product id. */
  function PriceIn(cat: seq<CatalogueItem>, id: int): int
    requires Listed(cat, id)
  {
    Find(cat, id).value.price
  }

  /** The `reduce` of `calculateTotal` over a list of entries, pricing
      each from the catalogue `cat`. */
  function LinesTotal(cat: seq<CatalogueItem>, entries: seq<(int, int)>): int
    requires forall i :: 0 <= i < |entries| ==> Listed(cat, entries[i].0)
  {
    if entries == [] then 0
    else PriceIn(cat, entries[0].0) * entries[0].1 + LinesTotal(cat, entries[1..])
  }

  lemma {:induction false} LinesTotalAppend(cat: seq<CatalogueItem>, a: seq<(int, int)>, b: seq<(int, int)>)
    requires forall i :: 0 <= i < |a| ==> Listed(cat, a[i].0)
    requires forall i :: 0 <= i < |b| ==> Listed(cat, b[i].0)
    ensures LinesTotal(cat, a + b) == LinesTotal(cat, a) + LinesTotal(cat, b)
  {
    if a == [] {
      assert a + b == b;
    } else {
      LinesTotalAppend(cat, a[1..], b);
      assert (a + b)[1..] == a[1..] + b;
      assert (a + b)[0] == a[0];
    }
  }

  /** `calculateTotal`. */
  function Total(cart: Cart): int
  {
    LinesTotal(Catalogue, Entries(cart))
  }

  /** Σ price × count over the products of `cat`. */
  function CatalogueTotal(cat: seq<CatalogueItem>, cart: Cart): int
  {
    if cat == [] then 0
    else cat[0].price * Quantity(cart, cat[0].id) + CatalogueTotal(cat[1..], cart)
  }

  lemma {:induction false} EntriesTotal(full: seq<CatalogueItem>, cat: seq<CatalogueItem>, cart: Cart)
    requires forall i :: 0 <= i < |cat| ==> Find(full, cat[i].id) == Some(cat[i])
    ensures forall i :: 0 <= i < |EntriesIn(cat, cart)| ==> Listed(full, EntriesIn(cat, cart)[i].0)
    ensures LinesTotal(full, EntriesIn(cat, cart)) == CatalogueTotal(cat, cart)
  {
    if cat != [] {
      assert forall i :: 0 <= i < |cat[1..]| ==> Find(full, cat[1..][i].id) == Some(cat[1..][i]) by {
        forall i | 0 <= i < |cat[1..]| ensures Find(full, cat[1..][i].id) == Some(cat[1..][i]) {
          assert cat[1..][i] == cat[i + 1];
        }
      }
      EntriesTotal(full, cat[1..], cart);
      var id := cat[0].id;
      assert Find(full, id) == Some(cat[0]);
      var head := if id in cart then [(id, cart[id])] else [];
      LinesTotalAppend(full, head, EntriesIn(cat[1..], cart));
    }
  }

  /** Changing one product's count changes the sum by its price times the
      change. */
  lemma {:induction false} CatalogueTotalChange(cat: seq<CatalogueItem>, a: Cart, b: Cart, id: int, d: int)
    requires IdsIncrease(cat)
    requires forall x :: x != id ==> Quantity(a, x) == Quantity(b, x)
    requires Quantity(b, id) == Quantity(a, id) + d
    ensures CatalogueTotal(cat, b) == CatalogueTotal(cat, a) + (if Listed(cat, id) then PriceIn(cat, id) * d else 0)
  {
    if cat != [] {
      assert IdsIncrease(cat[1..]) by {
        forall i, j | 0 <= i < j < |cat[1..]| ensures cat[1..][i].id < cat[1..][j].id {
          assert cat[1..][i] == cat[i + 1] && cat[1..][j] == cat[j + 1];
        }
      }
      CatalogueTotalChange(cat[1..], a, b, id, d);
    }
  }

  lemma EntriesTotalIn(cat: seq<CatalogueItem>, cart: Cart)
    requires IdsIncrease(cat)
    ensures LinesTotal(cat, EntriesIn(cat, cart)) == CatalogueTotal(cat, cart)
  {
    FindListed(cat);
    EntriesTotal(cat, cat, cart);
  }

  /** The entries' total after one count changed by `d`. */
  lemma EntriesTotalChange(cat: seq<CatalogueItem>, a: Cart, b: Cart, id: int, d: int)
    requires IdsIncrease(cat) && Listed(cat, id)
    requires forall x :: x != id ==> Quantity(a, x) == Quantity(b, x)
    requires Quantity(b, id) == Quantity(a, id) + d
    ensures LinesTotal(cat, EntriesIn(cat, b)) == LinesTotal(cat, EntriesIn(cat, a)) + PriceIn(cat, id) * d
  {
    EntriesTotalIn(cat, a);
    EntriesTotalIn(cat, b);
    CatalogueTotalChange(cat, a, b, id, d);
  }

  /** Over a catalogue with increasing ids, adding a listed product raises
      the entries' total by its price and removing a product in the cart
      lowers it by its price. */
  lemma TotalAfterEditIn(cat: seq<CatalogueItem>, cart: Cart, id: int)
    requires IdsIncrease(cat) && Listed(cat, id)
    ensures LinesTotal(cat, EntriesIn(cat, Add(cart, id))) == LinesTotal(cat, EntriesIn(cat, cart)) + PriceIn(cat, id)
    ensures id in cart && cart[id] >= 1 ==>
              LinesTotal(cat, EntriesIn(cat, Removed(cart, id))) == LinesTotal(cat, EntriesIn(cat, cart)) - PriceIn(cat, id)
  {
    var added := Add(cart, id);
    assert forall x :: x != id ==> Quantity(cart, x) == Quantity(added, x);
    EntriesTotalChange(cat, cart, added, id, 1);
    if id in cart && cart[id] >= 1 {
      var removed := Removed(cart, id);
      assert forall x :: x != id ==> Quantity(cart, x) == Quantity(removed, x);
      EntriesTotalChange(cat, cart, removed, id, -1);
    }
  }

  /** The total is the sum of price × count over the whole catalogue. */
  lemma TotalIsCatalogueSum(cart: Cart)
    ensures Total(cart) == CatalogueTotal(Catalogue, cart)
  {
    CatalogueIdsIncrease();
    EntriesTotalIn(Catalogue, cart);
  }

  /** Adding a catalogue product raises the total by its price, and
      removing a product in the cart lowers it by its price. */
  lemma TotalAfterEdit(cart: Cart, id: int)
    requires ValidCart(cart) && InCatalogue(id)
    ensures Total(Add(cart, id)) == Total(cart) + PriceOf(id)
    ensures id in cart ==> Total(Removed(cart, id)) == Total(cart) - PriceOf(id)
  {
    CatalogueIdsIncrease();
    TotalAfterEditIn(Catalogue, cart, id);
  }

  // ----------------------------------------------------------- checkout

  datatype CartLine = CartLine(productId: int, quantity: int)
  datatype CheckoutRequest = CheckoutRequest(customerId: string, items: seq<CartLine>, total: int)

  /** One request line per entry. */
  function CartLines(entries: seq<(int, int)>): (r: seq<CartLine>)
    ensures |r| == |entries|
    ensures forall i :: 0 <= i < |entries| ==> r[i] == CartLine(entries[i].0, entries[i].1)
  {
    seq(|entries|, i requires 0 <= i < |entries| => CartLine(entries[i].0, entries[i].1))
  }

  /** The lines of a valid cart are its products with their counts. */
  lemma LinesOfCart(cart: Cart)
    requires ValidCart(cart)
    ensures forall l: CartLine :: l in CartLines(Entries(cart)) <==> l.productId in cart && l.quantity == cart[l.productId]
  {
    EntriesOfCart(cart);
    var entries := Entries(cart);
    var items := CartLines(entries);
    forall l: CartLine | l in items ensures l.productId in cart && l.quantity == cart[l.productId] {
      var i :| 0 <= i < |items| && items[i] == l;
      assert entries[i] in entries;
    }
    forall l: CartLine | l.productId in cart && l.quantity == cart[l.productId] ensures l in items {
      var e := (l.productId, l.quantity);
      assert e in entries;
      var i :| 0 <= i < |entries| && entries[i] == e;
      assert items[i] == l;
    }
  }

  /** The request `handleCheckout` posts, or nothing when the customer id
      is empty. */
  function CheckoutRequestOf(customerId: string, cart: Cart): (r: Option<CheckoutRequest>)
  {
    if customerId == "" then None
    else Some(CheckoutRequest(customerId, CartLines(Entries(cart)), Total(cart)))
  }

  /** The cart after checkout: emptied when the server accepted the
      purchase, unchanged otherwise. */
  function CartAfterCheckout(customerId: string, cart: Cart, accepted: bool): (r: Cart)
  {
    if customerId != "" && accepted then map[] else cart
  }

  /** Checkout sends nothing and keeps the cart without a customer id;
      otherwise the request carries one line per cart entry with its count
      and the cart total, and an accepted purchase empties the cart. */
  lemma CheckoutShape(customerId: string, cart: Cart, accepted: bool)
    requires ValidCart(cart)
    ensures customerId == "" ==> CheckoutRequestOf(customerId, cart).None?
                                 && CartAfterCheckout(customerId, cart, accepted) == cart
    ensures customerId != "" ==>
              CheckoutRequestOf(customerId, cart).Some?
              && CheckoutRequestOf(customerId, cart).value.customerId == customerId
              && CheckoutRequestOf(customerId, cart).value.total == Total(cart)
              && (forall l: CartLine :: l in CheckoutRequestOf(customerId, cart).value.items <==>
                    l.productId in cart && l.quantity == cart[l.productId])
    ensures customerId != "" ==> (CartAfterCheckout(customerId, cart, accepted) == map[] <==> accepted || cart == map[])
  {
    LinesOfCart(cart);
  }
}
