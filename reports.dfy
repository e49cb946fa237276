/** The reports page: the invoices of the chosen period, their summary,
    the paid/not-paid split, and the headline figures of the billing
    report. It reads the same invoice rows as the invoices page; its
    `Number(x) || 0` reads a money value the way that page's
    `parseFloat(x) || 0` does. */
module Reports {
  import opened Common
  import opened InvoiceListing

  // -------------------------------------------------------- time range

  datatype Period = Day | Week | Month | Year

  /** The period a `timeRange` value names, if any. */
  function PeriodOf(timeRange: string): Option<Period>
  {
    if timeRange == "day" then Some(Day)
    else if timeRange == "week" then Some(Week)
    else if timeRange == "month" then Some(Month)
    else if timeRange == "year" then Some(Year)
    else None
  }

  /** The four names of the range selector select their periods. */
  lemma KnownRanges()
    ensures PeriodOf("day") == Some(Day) && PeriodOf("week") == Some(Week)
    ensures PeriodOf("month") == Some(Month) && PeriodOf("year") == Some(Year)
  {
    assert "week"[0] != "day"[0];
    assert "month"[0] != "day"[0] && "month"[0] != "week"[0];
    assert "year"[0] != "day"[0] && "year"[0] != "week"[0] && "year"[0] != "month"[0];
  }

  /** Whether an invoice stays in the chosen range. `sameAsNow(p, m)` is
      the date library's `isSameDay`/`isSameWeek` (weeks from Monday)/
      `isSameMonth`/`isSameYear` of `m` and the current instant; the
      clock and the calendar arithmetic are not modelled. */
  predicate InRange(inv: ListedInvoice, timeRange: string, sameAsNow: (Period, Moment) -> bool)
  {
    match PeriodOf(timeRange)
    case Some(p) => sameAsNow(p, inv.createdAt)
    case None => true
  }

  /** `filterInvoicesByTimeRange`: the invoices of the named period, every
      invoice for a range it does not name. */
  function FilterByTimeRange(invoices: seq<ListedInvoice>, timeRange: string, sameAsNow: (Period, Moment) -> bool)
      : (r: seq<ListedInvoice>)
    ensures PeriodOf(timeRange).None? ==> r == invoices
    ensures PeriodOf(timeRange).Some? ==>
              forall inv :: inv in r <==> inv in invoices && sameAsNow(PeriodOf(timeRange).value, inv.createdAt)
  {
    var keep := (inv: ListedInvoice) => InRange(inv, timeRange, sameAsNow);
    if PeriodOf(timeRange).None? then
      FilterAll(invoices, keep);
      Filter(invoices, keep)
    else
      Filter(invoices, keep)
  }

  // ---------------------------------------------------- invoice summary

  /** The `invoiceSummary` memo: the count first, then one pass adding
      each invoice's amount, payment and outstanding part. */
  method InvoiceSummary(filtered: seq<ListedInvoice>) returns (summary: Summary)
    ensures summary == SummaryOf(filtered)
  {
    var totalSales, totalPaid, pendingAmount := 0, 0, 0;
    var totalInvoices := |filtered|;
    var k := 0;
    while k < |filtered|
      invariant 0 <= k <= |filtered|
      invariant totalSales == Sum(Sales(filtered[..k]))
      invariant totalPaid == Sum(Paid(filtered[..k]))
      invariant pendingAmount == Sum(Pendings(filtered[..k]))
    {
      var inv := filtered[k];
      var total := AmountOf(inv.totalAmount);
      var paid := AmountOf(inv.paidAmount);
      AccumulateStep(filtered, k);
      totalSales := totalSales + total;
      totalPaid := totalPaid + paid;
      if paid > total {
        paid := total;
      }
      pendingAmount := pendingAmount + (total - paid);
      k := k + 1;
    }
    assert filtered[..k] == filtered;
    summary := Summary(totalSales, totalPaid, totalInvoices, pendingAmount);
  }

  // ------------------------------------------------- paid and not paid

  /** `Number(paid_amount) >= Number(total_amount)`. `None` is a value
      that is not a number, where the comparison is false; a SQL NULL, which
      `Number` reads as 0, is not told apart from it. */
  predicate IsPaid(inv: ListedInvoice)
  {
    inv.paidAmount.Some? && inv.totalAmount.Some? && inv.paidAmount.value >= inv.totalAmount.value
  }

  /** `paidCount` and `notPaidCount`. */
  function PaidSplit(filtered: seq<ListedInvoice>): (counts: (nat, int))
  {
    var paidCount := |Filter(filtered, IsPaid)|;
    (paidCount, |filtered| - paidCount)
  }

  /** Both counts are non-negative and add up to the number of invoices;
      the invoices counted as paid are exactly the paid ones. */
  lemma PaidSplitCounts(filtered: seq<ListedInvoice>)
    ensures PaidSplit(filtered).1 >= 0
    ensures PaidSplit(filtered).0 + PaidSplit(filtered).1 == |filtered|
    ensures forall inv :: inv in Filter(filtered, IsPaid) <==> inv in filtered && IsPaid(inv)
  {
  }

  /** Everything counts as paid exactly when every invoice is paid, and
      nothing does exactly when none is. */
  lemma PaidSplitExtremes(filtered: seq<ListedInvoice>)
    ensures PaidSplit(filtered).1 == 0 <==> forall i :: 0 <= i < |filtered| ==> IsPaid(filtered[i])
    ensures PaidSplit(filtered).0 == 0 <==> forall i :: 0 <= i < |filtered| ==> !IsPaid(filtered[i])
  {
    FilterLengthExtremes(filtered, IsPaid);
  }

  // ------------------------------------------------------ headline figures

  /** The report rows behind the headline figures. MySQL's `SUM` of a
      DECIMAL or INT column is a DECIMAL, which the driver hands over as
      its decimal text (`"1000.00"`, `"5"`); `COUNT` arrives as a number.
      `None` is SQL NULL, the sum over no item. */
  datatype RevenuePoint = RevenuePoint(revenue: Option<string>)
  datatype SalesPoint = SalesPoint(sales: Option<int>, orders: Option<string>)
  datatype TopProduct = TopProduct(name: Option<string>)
  datatype BillingData = BillingData(revenueData: seq<RevenuePoint>, salesData: seq<SalesPoint>)

  function SalesFigures(d: seq<SalesPoint>): (r: seq<int>)
    ensures |r| == |d|
  {
    seq(|d|, i requires 0 <= i < |d| => AmountOf(d[i].sales))
  }

  /** `(topProducts[0] && topProducts[0].name) || ''`. */
  function TopName(top: seq<TopProduct>): (name: string)
    ensures name != "" ==> top != [] && top[0].name == Some(name)
    ensures top != [] && top[0].name.Some? ==> name == top[0].name.value
  {
    if top != [] && top[0].name.Some? then top[0].name.value else ""
  }

  // --- as written: `sum + (d.revenue || 0)` on decimal texts

  /** A JavaScript value built by `+`: a number, or a string once a string
      took part. */
  datatype JsSum = Number(n: int) | Text(s: string)

  /** `acc + (v || 0)`: NULL and `""` are falsy and add the number 0; a
      number plus a number adds; anything with a string concatenates the
      printed forms. */
  function AddOrJoin(acc: JsSum, v: Option<string>): JsSum
  {
    if v.None? || v.value == "" then
      match acc
      case Number(n) => Number(n)
      case Text(t) => Text(t + "0")
    else
      match acc
      case Number(n) => Text(IntToString(n) + v.value)
      case Text(t) => Text(t + v.value)
  }

  /** `values.reduce((sum, v) => sum + (v || 0), 0)`. */
  function ReduceSum(values: seq<Option<string>>): JsSum
  {
    if values == [] then Number(0)
    else AddOrJoin(ReduceSum(values[..|values| - 1]), values[|values| - 1])
  }

  function RevenueTexts(d: seq<RevenuePoint>): (r: seq<Option<string>>)
    ensures |r| == |d|
  {
    seq(|d|, i requires 0 <= i < |d| => d[i].revenue)
  }

  function OrderTexts(d: seq<SalesPoint>): (r: seq<Option<string>>)
    ensures |r| == |d|
  {
    seq(|d|, i requires 0 <= i < |d| => d[i].orders)
  }

  /** The headline as the page computes it: revenue and orders are what `+`
      makes of the decimal texts. */
  datatype HeadlineAsWritten = HeadlineAsWritten(totalRevenue: JsSum, totalSales: int, totalOrders: JsSum, topProduct: string)

  /** `updateSummary` as written. */
  function UpdateSummary(data: BillingData, top: seq<TopProduct>): HeadlineAsWritten
  {
    HeadlineAsWritten(ReduceSum(RevenueTexts(data.revenueData)), Sum(SalesFigures(data.salesData)),
                      ReduceSum(OrderTexts(data.salesData)), TopName(top))
  }

  /** A value `|| 0` turns into the number 0. */
  predicate Falsy(v: Option<string>)
  {
    v.None? || v.value == ""
  }

  /** What joining a value onto a string adds: its text, or `0`. */
  function Piece(v: Option<string>): string
  {
    if Falsy(v) then "0" else v.value
  }

  function Pieces(vs: seq<Option<string>>): string
  {
    if vs == [] then "" else Pieces(vs[..|vs| - 1]) + Piece(vs[|vs| - 1])
  }

  /** With only NULL or empty values the sum stays the number 0. */
  lemma {:induction false} ReduceSumOfFalsy(vs: seq<Option<string>>)
    requires forall i :: 0 <= i < |vs| ==> Falsy(vs[i])
    ensures ReduceSum(vs) == Number(0)
  {
    if vs != [] {
      ReduceSumOfFalsy(vs[..|vs| - 1]);
    }
  }

  /** From the first non-empty text on, the sum is a string: `0`, that
      text, and the texts (or `0`) of every later value, joined. */
  lemma {:induction false} ReduceSumJoins(zeros: seq<Option<string>>, first: string, rest: seq<Option<string>>)
    requires forall i :: 0 <= i < |zeros| ==> Falsy(zeros[i])
    requires first != ""
    ensures ReduceSum(zeros + [Some(first)] + rest) == Text("0" + first + Pieces(rest))
  {
    if rest == [] {
      ReduceSumSnoc(zeros, Some(first));
      ReduceSumOfFalsy(zeros);
      assert IntToString(0) == "0";
      assert zeros + [Some(first)] + rest == zeros + [Some(first)];
    } else {
      var init, last := rest[..|rest| - 1], rest[|rest| - 1];
      var front := zeros + [Some(first)] + init;
      assert rest == init + [last];
      assert zeros + [Some(first)] + rest == front + [last];
      ReduceSumJoins(zeros, first, init);
      JoinStep(front, "0" + first, init, last);
    }
  }

  /** One more value onto a sum that is already a string. */
  lemma {:induction false} JoinStep(front: seq<Option<string>>, t: string, init: seq<Option<string>>, last: Option<string>)
    requires ReduceSum(front) == Text(t + Pieces(init))
    ensures ReduceSum(front + [last]) == Text(t + Pieces(init + [last]))
  {
    var p, q := Pieces(init), Piece(last);
    ReduceSumSnoc(front, last);
    JoinOnto(t + p, last);
    PiecesSnoc(init, last);
    assert t + p + q == t + (p + q);
  }

  /** Adding a value to a string appends its piece. */
  lemma JoinOnto(t: string, v: Option<string>)
    ensures AddOrJoin(Text(t), v) == Text(t + Piece(v))
  {
  }

  lemma {:induction false} ReduceSumSnoc(vs: seq<Option<string>>, v: Option<string>)
    ensures ReduceSum(vs + [v]) == AddOrJoin(ReduceSum(vs), v)
  {
    assert (vs + [v])[..|vs|] == vs;
  }

  lemma {:induction false} PiecesSnoc(vs: seq<Option<string>>, v: Option<string>)
    ensures Pieces(vs + [v]) == Pieces(vs) + Piece(v)
  {
    assert (vs + [v])[..|vs|] == vs;
  }

  /** Two days of revenue, 1000.00 and 500.00, give the text
      `01000.00500.00` instead of a total of 1500.00. */
  lemma RevenueTextsJoined(top: seq<TopProduct>)
    ensures UpdateSummary(BillingData([RevenuePoint(Some("1000.00")), RevenuePoint(Some("500.00"))], []), top).totalRevenue
         == Text("01000.00500.00")
  {
    var d := [RevenuePoint(Some("1000.00")), RevenuePoint(Some("500.00"))];
    assert RevenueTexts(d) == [Some("1000.00"), Some("500.00")];
    TwoTextsJoined("1000.00", "500.00");
    assert "0" + "1000.00" + "500.00" == "01000.00500.00";
  }

  /** Two non-empty texts sum to `0` and both, joined. */
  lemma TwoTextsJoined(a: string, b: string)
    requires a != "" && b != ""
    ensures ReduceSum([Some(a), Some(b)]) == Text("0" + a + b)
  {
    ReduceSumSnoc([], Some(a));
    ReduceSumSnoc([Some(a)], Some(b));
    assert [Some(a), Some(b)] == [Some(a)] + [Some(b)];
    assert IntToString(0) == "0";
  }

  // --- corrected: `Number(d.revenue) || 0`, as the invoice summary reads its amounts

  /** `Number(t) || 0` of a decimal text, counted in units of `10^-places`;
      NULL, a text that is not a number, and one with more than `places`
      fraction digits are 0. */
  function NumberAt(t: Option<string>, places: nat): int
  {
    if t.None? then 0
    else match JsParseFloat(t.value)
      case None => 0
      case Some(d) => if d.scale <= places then d.mantissa * Pow10(places - d.scale) else 0
  }

  /** A DECIMAL(10,2) text reads back as its number of cents. */
  lemma NumberOfRendered(cents: int)
    ensures NumberAt(Some(CentsText(cents)), 2) == cents
  {
    ParseFloatOfCentsText(cents);
    assert Pow10(0) == 1;
  }

  /** A whole-number text reads back as its value. */
  lemma NumberOfWhole(n: nat)
    ensures NumberAt(Some(NatToString(n)), 0) == n
  {
    ParseIntOfDigits(NatToString(n));
    WholeParsesFloat(NatToString(n));
  }

  lemma WholeParsesFloat(w: string)
    requires w != [] && AllDigits(w)
    ensures JsParseFloat(w) == Some(Decimal(DigitsValue(w), 0))
  {
    assert !IsSpace(w[0]) && !HasSign(w);
    LeadingDigitsThenStop(w, []);
    assert w + [] == w;
    assert w[|w|..] == [];
    ParseFloatSteps(w, false, w, w, []);
  }

  /** One figure per report row. */
  function Figures<T>(d: seq<T>, f: T -> int): (r: seq<int>)
    ensures |r| == |d|
    ensures forall i :: 0 <= i < |d| ==> r[i] == f(d[i])
  {
    seq(|d|, i requires 0 <= i < |d| => f(d[i]))
  }

  lemma FiguresAppend<T>(a: seq<T>, b: seq<T>, f: T -> int)
    ensures Figures(a + b, f) == Figures(a, f) + Figures(b, f)
  {
  }

  function RevenueCents(p: RevenuePoint): int
  {
    NumberAt(p.revenue, 2)
  }

  function OrderedBottles(p: SalesPoint): int
  {
    NumberAt(p.orders, 0)
  }

  /** Revenue in cents per row. */
  function Revenues(d: seq<RevenuePoint>): seq<int>
  {
    Figures(d, RevenueCents)
  }

  /** Bottles ordered per row. */
  function OrderFigures(d: seq<SalesPoint>): seq<int>
  {
    Figures(d, OrderedBottles)
  }

  datatype Headline = Headline(totalRevenue: int, totalSales: int, totalOrders: int, topProduct: string)

  /** `updateSummary` reading each text with `Number(...) || 0`. */
  function UpdateSummaryFixed(data: BillingData, top: seq<TopProduct>): Headline
  {
    Headline(Sum(Revenues(data.revenueData)), Sum(SalesFigures(data.salesData)),
             Sum(OrderFigures(data.salesData)), TopName(top))
  }

  /** The corrected figures of two reports one after the other add up, and
      the top product comes from the first list. */
  lemma {:induction false} UpdateSummaryAppend(a: BillingData, b: BillingData, top: seq<TopProduct>, more: seq<TopProduct>)
    requires top != []
    ensures var s := UpdateSummaryFixed(BillingData(a.revenueData + b.revenueData, a.salesData + b.salesData), top + more);
            s.totalRevenue == UpdateSummaryFixed(a, top).totalRevenue + UpdateSummaryFixed(b, top).totalRevenue
            && s.totalSales == UpdateSummaryFixed(a, top).totalSales + UpdateSummaryFixed(b, top).totalSales
            && s.totalOrders == UpdateSummaryFixed(a, top).totalOrders + UpdateSummaryFixed(b, top).totalOrders
            && s.topProduct == UpdateSummaryFixed(a, top).topProduct
  {
    FigureSumAppend(a.revenueData, b.revenueData, RevenueCents);
    SalesSumAppend(a.salesData, b.salesData);
    FigureSumAppend(a.salesData, b.salesData, OrderedBottles);
    assert (top + more)[0] == top[0];
  }

  lemma FigureSumAppend<T>(a: seq<T>, b: seq<T>, f: T -> int)
    ensures Sum(Figures(a + b, f)) == Sum(Figures(a, f)) + Sum(Figures(b, f))
  {
    FiguresAppend(a, b, f);
    SumAppend(Figures(a, f), Figures(b, f));
  }

  lemma SalesSumAppend(a: seq<SalesPoint>, b: seq<SalesPoint>)
    ensures Sum(SalesFigures(a + b)) == Sum(SalesFigures(a)) + Sum(SalesFigures(b))
  {
    assert SalesFigures(a + b) == SalesFigures(a) + SalesFigures(b);
    SumAppend(SalesFigures(a), SalesFigures(b));
  }

  /** Rows as MySQL renders them, revenue in DECIMAL(10,2) and bottle
      counts as whole numbers, give exactly the sums of their cents and
      bottles. */
  lemma UpdateSummaryFixedOfRendered(data: BillingData, cents: seq<int>, bottles: seq<nat>, top: seq<TopProduct>)
    requires |cents| == |data.revenueData| && |bottles| == |data.salesData|
    requires forall i :: 0 <= i < |cents| ==> data.revenueData[i].revenue == Some(CentsText(cents[i]))
    requires forall i :: 0 <= i < |bottles| ==> data.salesData[i].orders == Some(NatToString(bottles[i]))
    ensures UpdateSummaryFixed(data, top).totalRevenue == Sum(cents)
    ensures UpdateSummaryFixed(data, top).totalOrders == Sum(bottles)
  {
    forall i | 0 <= i < |cents|
      ensures Revenues(data.revenueData)[i] == cents[i]
    {
      NumberOfRendered(cents[i]);
    }
    forall i | 0 <= i < |bottles|
      ensures OrderFigures(data.salesData)[i] == bottles[i]
    {
      NumberOfWhole(bottles[i]);
    }
    assert Revenues(data.revenueData) == cents;
    assert OrderFigures(data.salesData) == bottles;
  }

  /** With no negative figure the corrected totals are not negative. */
  lemma UpdateSummaryNonNegative(data: BillingData, top: seq<TopProduct>)
    requires forall i :: 0 <= i < |data.revenueData| ==> NumberAt(data.revenueData[i].revenue, 2) >= 0
    requires forall i :: 0 <= i < |data.salesData| ==> AmountOf(data.salesData[i].sales) >= 0 && NumberAt(data.salesData[i].orders, 0) >= 0
    ensures UpdateSummaryFixed(data, top).totalRevenue >= 0
    ensures UpdateSummaryFixed(data, top).totalSales >= 0
    ensures UpdateSummaryFixed(data, top).totalOrders >= 0
  {
    SumNonNegative(Revenues(data.revenueData));
    SumNonNegative(SalesFigures(data.salesData));
    SumNonNegative(OrderFigures(data.salesData));
  }
}
