/** The `products` table and the stock reservation both order-taking routes
    perform inside their transaction: for each requested line in turn, look
    the product up, refuse when it is missing or its current stock is below
    the requested quantity, otherwise decrement the stock. Because each line
    re-reads the row, two lines for the same product draw on the same stock. */
module ProductTable {
  import opened Common

  /** A `products` row; `price` is in cents. */
  datatype Product = Product(name: string, price: int, stock: int, description: string)

  /** The table, keyed by the product's surrogate id. */
  type Products = map<int, Product>

  /** One requested line: which product and how many. */
  datatype Line = Line(productId: int, quantity: int)

  datatype Shortage = NotFound | Insufficient

  /** Which line (0-based) was refused, and why. */
  datatype ReserveError = ReserveError(index: nat, reason: Shortage)

  predicate StockNonNegative(p: Products)
  {
    forall id :: id in p ==> p[id].stock >= 0
  }

  /** One line: `SELECT ... WHERE id = ?`, the two checks, then
      `UPDATE products SET stock = stock - ?`. */
  function Take(p: Products, l: Line): Result<Products, Shortage>
  {
    if l.productId !in p then Err(NotFound)
    else if p[l.productId].stock < l.quantity then Err(Insufficient)
    else Ok(p[l.productId := p[l.productId].(stock := p[l.productId].stock - l.quantity)])
  }

  /** All lines in order; the first refused line aborts the reservation. */
  function Reserve(p: Products, lines: seq<Line>): Result<Products, ReserveError>
  {
    if lines == [] then Ok(p)
    else
      match Reserve(p, lines[..|lines| - 1])
      case Err(e) => Err(e)
      case Ok(before) =>
        match Take(before, lines[|lines| - 1])
        case Err(why) => Err(ReserveError(|lines| - 1, why))
        case Ok(after) => Ok(after)
  }

  /** Total quantity the lines request of product `id`. */
  function QuantityFor(lines: seq<Line>, id: int): int
  {
    if lines == [] then 0
    else
      QuantityFor(lines[..|lines| - 1], id)
      + (if lines[|lines| - 1].productId == id then lines[|lines| - 1].quantity else 0)
  }

  /** Line `k` can be served from what the earlier lines left. */
  predicate LineCovered(p: Products, lines: seq<Line>, k: nat)
    requires k < |lines|
  {
    var id := lines[k].productId;
    id in p && p[id].stock - QuantityFor(lines[..k], id) >= lines[k].quantity
  }

  /** A successful reservation keeps every row but its stock, and takes off
      each product's stock exactly the quantity the lines request of it. */
  lemma {:induction false} ReserveEffect(p: Products, lines: seq<Line>)
    requires Reserve(p, lines).Ok?
    ensures var q := Reserve(p, lines).value;
      q.Keys == p.Keys
      && forall id :: id in p ==>
           q[id] == p[id].(stock := p[id].stock - QuantityFor(lines, id))
  {
    if lines != [] {
      ReserveEffect(p, lines[..|lines| - 1]);
    }
  }

  /** The stock never goes below zero through a reservation. */
  lemma {:induction false} ReserveKeepsStockNonNegative(p: Products, lines: seq<Line>)
    requires StockNonNegative(p) && Reserve(p, lines).Ok?
    ensures StockNonNegative(Reserve(p, lines).value)
  {
    if lines != [] {
      ReserveKeepsStockNonNegative(p, lines[..|lines| - 1]);
    }
  }

  /** A reservation succeeds exactly when every line is covered by the
      stock the earlier lines left. */
  lemma {:induction false} ReserveSucceedsIff(p: Products, lines: seq<Line>)
    ensures Reserve(p, lines).Ok? <==> forall k :: 0 <= k < |lines| ==> LineCovered(p, lines, k)
  {
    if lines != [] {
      var n := |lines| - 1;
      var init := lines[..n];
      ReserveSucceedsIff(p, init);
      assert forall k :: 0 <= k < n ==> (LineCovered(p, lines, k) <==> LineCovered(p, init, k)) by {
        forall k | 0 <= k < n ensures LineCovered(p, lines, k) <==> LineCovered(p, init, k) {
          assert lines[..k] == init[..k];
        }
      }
      assert init == lines[..n];
      if Reserve(p, init).Ok? {
        ReserveEffect(p, init);
        var before := Reserve(p, init).value;
        var id := lines[n].productId;
        assert id in p ==> before[id].stock == p[id].stock - QuantityFor(init, id);
        assert LineCovered(p, lines, n) <==> Take(before, lines[n]).Ok?;
      }
    }
  }

  /** A refused reservation names the first line that could not be served:
      every line before it went through. */
  lemma {:induction false} ReserveErrorIsFirst(p: Products, lines: seq<Line>)
    requires Reserve(p, lines).Err?
    ensures var e := Reserve(p, lines).error;
      e.index < |lines|
      && Reserve(p, lines[..e.index]).Ok?
      && Take(Reserve(p, lines[..e.index]).value, lines[e.index]) == Err(e.reason)
  {
    var n := |lines| - 1;
    if Reserve(p, lines[..n]).Err? {
      ReserveErrorIsFirst(p, lines[..n]);
      var e := Reserve(p, lines).error;
      assert lines[..n][..e.index] == lines[..e.index];
    }
  }

  /** Lines after a refused one change nothing: the outcome is already
      decided. */
  lemma {:induction false} ReserveErrorPersists(p: Products, lines: seq<Line>, k: nat)
    requires k <= |lines| && Reserve(p, lines[..k]).Err?
    ensures Reserve(p, lines) == Reserve(p, lines[..k])
  {
    if k < |lines| {
      var n := |lines| - 1;
      assert lines[..n][..k] == lines[..k];
      ReserveErrorPersists(p, lines[..n], k);
    } else {
      assert lines[..k] == lines;
    }
  }
}
