/** The invoices page: the rows GET /billing/invoices lists, the summary
    of today's sales, the unpaid-only view and the CSV export. Money is
    in cents; a value that is absent or does not parse is `None` and
    counts as 0 wherever the page writes `|| 0`. */
module InvoiceListing {
  import opened Common

  // ------------------------------------------------------------- dates

  /** A calendar date as `getDate()`, `getMonth()` (0 for January) and
      `getFullYear()` read it. */
  datatype CalendarDate = CalendarDate(day: int, monthIndex: int, year: int)

  /** An instant (`created_at`, `new Date()`) through the views the page
      takes of it: its date in the browser's time zone, its date in UTC
      (what `toISOString` prints) and the locale's `toLocaleDateString`
      text. The clock, the time zone and the locale are not modelled:
      these views are given with the instant. */
  datatype Moment = Moment(local: CalendarDate, utc: CalendarDate, localeText: string)

  /** One row of GET /billing/invoices. */
  datatype ListedInvoice = ListedInvoice(
    id: int,
    orderId: string,
    customerId: string,
    totalAmount: Option<int>,
    paidAmount: Option<int>,
    status: string,
    createdAt: Moment,
    paymentMethod: Option<string>)

  /** `parseFloat(x) || 0` on a money value. */
  function AmountOf(v: Option<int>): int
  {
    if v.Some? then v.value else 0
  }

  // ------------------------------------------------------ daily summary

  datatype Summary = Summary(totalSales: int, totalPaid: int, totalInvoices: nat, pendingAmount: int)

  function Sales(invoices: seq<ListedInvoice>): (r: seq<int>)
    ensures |r| == |invoices|
  {
    seq(|invoices|, i requires 0 <= i < |invoices| => AmountOf(invoices[i].totalAmount))
  }

  function Paid(invoices: seq<ListedInvoice>): (r: seq<int>)
    ensures |r| == |invoices|
  {
    seq(|invoices|, i requires 0 <= i < |invoices| => AmountOf(invoices[i].paidAmount))
  }

  /** What one invoice still owes: its amount less what was paid, a
      payment above the amount counting only up to the amount. */
  function Outstanding(inv: ListedInvoice): (r: int)
    ensures r >= 0
    ensures AmountOf(inv.paidAmount) >= 0 && AmountOf(inv.totalAmount) >= 0 ==> r <= AmountOf(inv.totalAmount)
    ensures r >= AmountOf(inv.totalAmount) - AmountOf(inv.paidAmount)
  {
    var amount := AmountOf(inv.totalAmount);
    var paid := AmountOf(inv.paidAmount);
    amount - (if paid > amount then amount else paid)
  }

  function Pendings(invoices: seq<ListedInvoice>): (r: seq<int>)
    ensures |r| == |invoices|
  {
    seq(|invoices|, i requires 0 <= i < |invoices| => Outstanding(invoices[i]))
  }

  /** The summary of a list of invoices: the sums of the amounts, of the
      payments and of what is outstanding, and their number. */
  function SummaryOf(invoices: seq<ListedInvoice>): Summary
  {
    Summary(Sum(Sales(invoices)), Sum(Paid(invoices)), |invoices|, Sum(Pendings(invoices)))
  }

  /** Whether an invoice was created on the day `today` is in: the two
      dates print the same `toLocaleDateString` text. */
  predicate IsToday(inv: ListedInvoice, today: Moment)
  {
    inv.createdAt.localeText == today.localeText
  }

  function TodayInvoices(invoices: seq<ListedInvoice>, today: Moment): (r: seq<ListedInvoice>)
    ensures forall inv :: inv in r <==> inv in invoices && IsToday(inv, today)
  {
    Filter(invoices, (inv: ListedInvoice) => IsToday(inv, today))
  }

  /** `calculateDailySummary`: the invoices of today, then a pass that
      adds each one's amount, payment and outstanding part to the
      running totals. Rounding the totals to two decimals keeps a number
      of cents as it is. */
  method CalculateDailySummary(invoiceData: seq<ListedInvoice>, today: Moment) returns (summary: Summary)
    ensures summary == SummaryOf(TodayInvoices(invoiceData, today))
  {
    var todayInvoices := Filter(invoiceData, (inv: ListedInvoice) => IsToday(inv, today));
    summary := Accumulate(todayInvoices);
  }

  /** The `forEach` pass over a list of invoices. */
  method Accumulate(invoices: seq<ListedInvoice>) returns (summary: Summary)
    ensures summary == SummaryOf(invoices)
  {
    var totalSales, totalPaid, totalInvoices, pendingAmount := 0, 0, 0, 0;
    var k := 0;
    while k < |invoices|
      invariant 0 <= k <= |invoices|
      invariant totalSales == Sum(Sales(invoices[..k]))
      invariant totalPaid == Sum(Paid(invoices[..k]))
      invariant totalInvoices == k
      invariant pendingAmount == Sum(Pendings(invoices[..k]))
    {
      var invoice := invoices[k];
      var amount := AmountOf(invoice.totalAmount);
      var paid := AmountOf(invoice.paidAmount);
      AccumulateStep(invoices, k);
      totalSales := totalSales + amount;
      totalPaid := totalPaid + paid;
      totalInvoices := totalInvoices + 1;
      if paid > amount {
        paid := amount;
      }
      pendingAmount := pendingAmount + (amount - paid);
      k := k + 1;
    }
    assert invoices[..k] == invoices;
    summary := Summary(totalSales, totalPaid, totalInvoices, pendingAmount);
  }

  lemma AccumulateStep(invoices: seq<ListedInvoice>, k: nat)
    requires k < |invoices|
    ensures Sum(Sales(invoices[..k + 1])) == Sum(Sales(invoices[..k])) + AmountOf(invoices[k].totalAmount)
    ensures Sum(Paid(invoices[..k + 1])) == Sum(Paid(invoices[..k])) + AmountOf(invoices[k].paidAmount)
    ensures Sum(Pendings(invoices[..k + 1])) == Sum(Pendings(invoices[..k])) + Outstanding(invoices[k])
  {
    var a, b := invoices[..k + 1], invoices[..k];
    assert a[..k] == b;
    assert Sales(a)[..k] == Sales(b);
    assert Paid(a)[..k] == Paid(b);
    assert Pendings(a)[..k] == Pendings(b);
  }

  /** The outstanding total of a list is never negative, is at least
      what the amounts exceed the payments by, and, when no amount and
      no payment is negative, is at most the sales total. */
  lemma {:induction false} PendingBounds(invoices: seq<ListedInvoice>)
    ensures SummaryOf(invoices).pendingAmount >= 0
    ensures SummaryOf(invoices).pendingAmount >= SummaryOf(invoices).totalSales - SummaryOf(invoices).totalPaid
    ensures (forall i :: 0 <= i < |invoices| ==> AmountOf(invoices[i].totalAmount) >= 0 && AmountOf(invoices[i].paidAmount) >= 0)
            ==> SummaryOf(invoices).pendingAmount <= SummaryOf(invoices).totalSales
  {
    if invoices != [] {
      var init := invoices[..|invoices| - 1];
      PendingBounds(init);
      assert Sales(invoices)[..|init|] == Sales(init);
      assert Paid(invoices)[..|init|] == Paid(init);
      assert Pendings(invoices)[..|init|] == Pendings(init);
    }
  }

  /** The summary of two lists one after the other is the sum of their
      summaries. */
  lemma SummaryAppend(a: seq<ListedInvoice>, b: seq<ListedInvoice>)
    ensures SummaryOf(a + b).totalSales == SummaryOf(a).totalSales + SummaryOf(b).totalSales
    ensures SummaryOf(a + b).totalPaid == SummaryOf(a).totalPaid + SummaryOf(b).totalPaid
    ensures SummaryOf(a + b).totalInvoices == SummaryOf(a).totalInvoices + SummaryOf(b).totalInvoices
    ensures SummaryOf(a + b).pendingAmount == SummaryOf(a).pendingAmount + SummaryOf(b).pendingAmount
  {
    assert Sales(a + b) == Sales(a) + Sales(b);
    assert Paid(a + b) == Paid(a) + Paid(b);
    assert Pendings(a + b) == Pendings(a) + Pendings(b);
    SumAppend(Sales(a), Sales(b));
    SumAppend(Paid(a), Paid(b));
    SumAppend(Pendings(a), Pendings(b));
  }

  // ------------------------------------------------------ unpaid filter

  /** `filteredInvoices`: with the switch on, the invoices whose status is
      not `paid`; otherwise all of them. */
  function FilteredInvoices(invoices: seq<ListedInvoice>, showUnpaidOnly: bool): (r: seq<ListedInvoice>)
    ensures !showUnpaidOnly ==> r == invoices
    ensures showUnpaidOnly ==> forall inv :: inv in r <==> inv in invoices && inv.status != "paid"
    ensures |r| <= |invoices|
  {
    if showUnpaidOnly then Filter(invoices, (inv: ListedInvoice) => inv.status != "paid") else invoices
  }

  /** The view keeps the list's order: invoices listed by a strictly
      increasing `rank` (the listing's `created_at` order, say) are still
      so after filtering. */
  lemma UnpaidKeepsOrder(invoices: seq<ListedInvoice>, showUnpaidOnly: bool, rank: ListedInvoice -> int)
    requires forall i, j :: 0 <= i < j < |invoices| ==> rank(invoices[i]) < rank(invoices[j])
    ensures var r := FilteredInvoices(invoices, showUnpaidOnly);
            forall i, j :: 0 <= i < j < |r| ==> rank(r[i]) < rank(r[j])
  {
    if showUnpaidOnly {
      FilterKeepsIncreasing(invoices, (inv: ListedInvoice) => inv.status != "paid", rank);
    }
  }

  // ------------------------------------------------------------- export

  datatype Column = InvoiceIdColumn | OrderIdColumn | CustomerIdColumn | TotalAmountColumn
                  | PaidAmountColumn | StatusColumn | DateColumn | PaymentMethodColumn

  /** The columns in the order `exportOptions.columns` declares them. */
  const Declared: seq<Column> := [InvoiceIdColumn, OrderIdColumn, CustomerIdColumn, TotalAmountColumn,
                                  PaidAmountColumn, StatusColumn, DateColumn, PaymentMethodColumn]

  /** A column's place in `Declared`. */
  function Position(c: Column): (n: nat)
    ensures n < |Declared| && Declared[n] == c
  {
    match c
    case InvoiceIdColumn => 0
    case OrderIdColumn => 1
    case CustomerIdColumn => 2
    case TotalAmountColumn => 3
    case PaidAmountColumn => 4
    case StatusColumn => 5
    case DateColumn => 6
    case PaymentMethodColumn => 7
  }

  /** The check boxes of the export dialog. */
  datatype ColumnChoice = ColumnChoice(invoiceId: bool, orderId: bool, customerId: bool, totalAmount: bool,
                                       paidAmount: bool, status: bool, date: bool, paymentMethod: bool)

  datatype ExportOptions = ExportOptions(includeHeaders: bool, dateFormat: string, fileFormat: string, columns: ColumnChoice)

  /** The options the dialog opens with: headers on, day-first dates,
      every column but the payment method. */
  const DefaultExportOptions := ExportOptions(true, "DD/MM/YYYY", "csv",
                                              ColumnChoice(true, true, true, true, true, true, true, false))

  predicate Chosen(choice: ColumnChoice, c: Column)
  {
    match c
    case InvoiceIdColumn => choice.invoiceId
    case OrderIdColumn => choice.orderId
    case CustomerIdColumn => choice.customerId
    case TotalAmountColumn => choice.totalAmount
    case PaidAmountColumn => choice.paidAmount
    case StatusColumn => choice.status
    case DateColumn => choice.date
    case PaymentMethodColumn => choice.paymentMethod
  }

  /** `selectedColumns`: the ticked columns, in declaration order. */
  function SelectedColumns(choice: ColumnChoice): seq<Column>
  {
    Filter(Declared, (c: Column) => Chosen(choice, c))
  }

  /** The selected columns are exactly the ticked ones, each once, in the
      order they are declared. */
  lemma SelectedColumnsInOrder(choice: ColumnChoice)
    ensures forall c :: c in SelectedColumns(choice) <==> Chosen(choice, c)
    ensures var cols := SelectedColumns(choice);
            forall i, j :: 0 <= i < j < |cols| ==> Position(cols[i]) < Position(cols[j])
  {
    var keep := (c: Column) => Chosen(choice, c);
    forall i | 0 <= i < |Declared| ensures Position(Declared[i]) == i {
      if i == 0 {} else if i == 1 {} else if i == 2 {} else if i == 3 {}
      else if i == 4 {} else if i == 5 {} else if i == 6 {} else {}
    }
    assert forall i, j :: 0 <= i < j < |Declared| ==> Position(Declared[i]) < Position(Declared[j]);
    FilterKeepsIncreasing(Declared, keep, (c: Column) => Position(c) as int);
    forall c | Chosen(choice, c) ensures c in SelectedColumns(choice) {
      assert Declared[Position(c)] == c;
    }
  }

  /** The label of a column in the header row. */
  function Header(c: Column): string
  {
    match c
    case InvoiceIdColumn => "Invoice ID"
    case OrderIdColumn => "Order ID"
    case CustomerIdColumn => "Customer ID"
    case TotalAmountColumn => "Total Amount"
    case PaidAmountColumn => "Paid Amount"
    case StatusColumn => "Status"
    case DateColumn => "Date"
    case PaymentMethodColumn => "Payment Method"
  }

  function Headers(cols: seq<Column>): (r: seq<string>)
    ensures |r| == |cols| && forall j :: 0 <= j < |cols| ==> r[j] == Header(cols[j])
  {
    seq(|cols|, j requires 0 <= j < |cols| => Header(cols[j]))
  }

  /** `n.toString().padStart(2, '0')`. */
  function TwoDigits(n: int): string
  {
    PadStart(IntToString(n), 2, '0')
  }

  /** The year as `toISOString` prints it: four digits for the years 0
      to 9999, a sign and six digits otherwise. */
  function IsoYear(year: int): string
  {
    if 0 <= year <= 9999 then PadStart(NatToString(year), 4, '0')
    else (if year < 0 then "-" else "+") + PadStart(NatToString(Abs(year)), 6, '0')
  }

  /** `toISOString().split('T')[0]`: year, month and day of the UTC date. */
  function IsoDate(d: CalendarDate): string
  {
    IsoYear(d.year) + "-" + TwoDigits(d.monthIndex + 1) + "-" + TwoDigits(d.day)
  }

  /** Two two-digit numbers and a year, separated by slashes. */
  function SlashDate(first: int, second: int, year: int): string
  {
    TwoDigits(first) + "/" + TwoDigits(second) + "/" + IntToString(year)
  }

  /** The layouts `formatDate` knows, and the locale's own for the rest. */
  datatype DateStyle = DayFirst | MonthFirst | IsoStyle | LocaleStyle

  function StyleOf(format: string): DateStyle
  {
    if format == "DD/MM/YYYY" then DayFirst
    else if format == "MM/DD/YYYY" then MonthFirst
    else if format == "YYYY-MM-DD" then IsoStyle
    else LocaleStyle
  }

  /** `formatDate`: the date of `m` in the chosen format. */
  function FormatDate(format: string, m: Moment): string
  {
    FormatIn(StyleOf(format), m)
  }

  function FormatIn(style: DateStyle, m: Moment): string
  {
    match style
    case DayFirst => SlashDate(m.local.day, m.local.monthIndex + 1, m.local.year)
    case MonthFirst => SlashDate(m.local.monthIndex + 1, m.local.day, m.local.year)
    case IsoStyle => IsoDate(m.utc)
    case LocaleStyle => m.localeText
  }

  /** A two-digit day or month: exactly two digits, denoting `n`. */
  lemma TwoDigitsOf(n: int)
    requires 1 <= n <= 99
    ensures |TwoDigits(n)| == 2 && AllDigits(TwoDigits(n)) && DigitsValue(TwoDigits(n)) == n
  {
    NatToStringBelow100(n);
    PaddedDigitsValue(NatToString(n), 2);
  }

  /** The three formats the export dialog offers select their layouts. */
  lemma KnownFormats()
    ensures StyleOf("DD/MM/YYYY") == DayFirst
    ensures StyleOf("MM/DD/YYYY") == MonthFirst
    ensures StyleOf("YYYY-MM-DD") == IsoStyle
  {
    assert "MM/DD/YYYY"[0] != "DD/MM/YYYY"[0];
    assert "YYYY-MM-DD"[0] != "DD/MM/YYYY"[0] && "YYYY-MM-DD"[0] != "MM/DD/YYYY"[0];
  }

  /** Three parts joined by slashes, the first two of two characters. */
  lemma SlashParts(a: string, b: string, c: string)
    requires |a| == 2 && |b| == 2
    ensures var s := a + "/" + b + "/" + c;
            |s| == 6 + |c| && s[2] == '/' && s[5] == '/' && s[..2] == a && s[3..5] == b && s[6..] == c
  {
  }

  /** `s` is `first` and `second` in two digits each, zero-padded, then
      the year, separated by slashes. */
  predicate PaddedSlashDate(s: string, first: int, second: int, year: nat)
  {
    |s| == 6 + |NatToString(year)| && s[2] == '/' && s[5] == '/'
    && AllDigits(s[..2]) && DigitsValue(s[..2]) == first
    && AllDigits(s[3..5]) && DigitsValue(s[3..5]) == second
    && s[6..] == NatToString(year)
  }

  lemma SlashDatePadded(first: int, second: int, year: int)
    requires 1 <= first <= 99 && 1 <= second <= 99 && year >= 0
    ensures PaddedSlashDate(SlashDate(first, second, year), first, second, year)
  {
    var a, b, c := TwoDigits(first), TwoDigits(second), NatToString(year);
    assert SlashDate(first, second, year) == a + "/" + b + "/" + c by {
      assert IntToString(year) == c;
    }
    assert |a| == 2 && AllDigits(a) && DigitsValue(a) == first by {
      TwoDigitsOf(first);
    }
    assert |b| == 2 && AllDigits(b) && DigitsValue(b) == second by {
      TwoDigitsOf(second);
    }
    SlashParts(a, b, c);
  }

  /** In the day-first format the day and the month take two digits each,
      zero-padded, before the year. */
  lemma DayFirstPadded(m: Moment)
    requires 1 <= m.local.day <= 31 && 0 <= m.local.monthIndex <= 11 && m.local.year >= 0
    ensures PaddedSlashDate(FormatDate("DD/MM/YYYY", m), m.local.day, m.local.monthIndex + 1, m.local.year)
  {
    assert FormatDate("DD/MM/YYYY", m) == SlashDate(m.local.day, m.local.monthIndex + 1, m.local.year) by {
      KnownFormats();
    }
    SlashDatePadded(m.local.day, m.local.monthIndex + 1, m.local.year);
  }

  /** The month-first format is the same with day and month swapped. */
  lemma MonthFirstPadded(m: Moment)
    requires 1 <= m.local.day <= 31 && 0 <= m.local.monthIndex <= 11 && m.local.year >= 0
    ensures PaddedSlashDate(FormatDate("MM/DD/YYYY", m), m.local.monthIndex + 1, m.local.day, m.local.year)
  {
    assert FormatDate("MM/DD/YYYY", m) == SlashDate(m.local.monthIndex + 1, m.local.day, m.local.year) by {
      KnownFormats();
    }
    SlashDatePadded(m.local.monthIndex + 1, m.local.day, m.local.year);
  }

  /** How a money value prints: the DECIMAL text, nothing for a null. */
  function MoneyCell(v: Option<int>): string
  {
    if v.Some? then CentsText(v.value) else ""
  }

  /** The cell a column gives for an invoice. */
  function Cell(inv: ListedInvoice, c: Column, dateFormat: string): string
  {
    match c
    case InvoiceIdColumn => IntToString(inv.id)
    case OrderIdColumn => inv.orderId
    case CustomerIdColumn => inv.customerId
    case TotalAmountColumn => MoneyCell(inv.totalAmount)
    case PaidAmountColumn => MoneyCell(inv.paidAmount)
    case StatusColumn => inv.status
    case DateColumn => FormatDate(dateFormat, inv.createdAt)
    case PaymentMethodColumn => if inv.paymentMethod.Some? then inv.paymentMethod.value else ""
  }

  function Row(inv: ListedInvoice, cols: seq<Column>, dateFormat: string): (row: seq<string>)
    ensures |row| == |cols| && forall j :: 0 <= j < |cols| ==> row[j] == Cell(inv, cols[j], dateFormat)
  {
    seq(|cols|, j requires 0 <= j < |cols| => Cell(inv, cols[j], dateFormat))
  }

  /** The rows of the file before they are joined: the header row when
      asked for, then one row per listed invoice, every row with one cell
      per column of `cols`. */
  function Table(invoices: seq<ListedInvoice>, cols: seq<Column>, includeHeaders: bool, dateFormat: string): (t: seq<seq<string>>)
    ensures var h := if includeHeaders then 1 else 0;
            |t| == h + |invoices|
            && (includeHeaders ==> t[0] == Headers(cols))
            && (forall i :: 0 <= i < |invoices| ==> t[h + i] == Row(invoices[i], cols, dateFormat))
            && (forall i :: 0 <= i < |t| ==> |t[i]| == |cols|)
  {
    (if includeHeaders then [Headers(cols)] else [])
    + seq(|invoices|, i requires 0 <= i < |invoices| => Row(invoices[i], cols, dateFormat))
  }

  /** The table of an export: the selected columns of the listed invoices. */
  function ExportTable(invoices: seq<ListedInvoice>, options: ExportOptions): seq<seq<string>>
  {
    Table(invoices, SelectedColumns(options.columns), options.includeHeaders, options.dateFormat)
  }

  function Lines(t: seq<seq<string>>): (lines: seq<string>)
    ensures |lines| == |t|
  {
    seq(|t|, i requires 0 <= i < |t| => Join(t[i], ','))
  }

  /** The file's text: each row's cells joined by commas, the rows by
      newlines. */
  function ExportContent(invoices: seq<ListedInvoice>, options: ExportOptions): string
  {
    Join(Lines(ExportTable(invoices, options)), '\n')
  }

  /** A text that can sit in a cell without quoting. */
  predicate Plain(s: string)
  {
    ',' !in s && '\n' !in s
  }

  /** The free-text fields of an invoice hold no comma and no newline. */
  predicate PlainInvoice(inv: ListedInvoice)
  {
    Plain(inv.orderId) && Plain(inv.customerId) && Plain(inv.status) && Plain(inv.createdAt.localeText)
    && (inv.paymentMethod.Some? ==> Plain(inv.paymentMethod.value))
  }

  lemma DigitsPlain(s: string)
    requires AllDigits(s)
    ensures Plain(s)
  {
  }

  lemma PlainJoined(a: string, b: string)
    requires Plain(a) && Plain(b)
    ensures Plain(a + b)
  {
  }

  /** Two texts around a separator that is neither a comma nor a newline. */
  lemma SeparatedPlain(a: string, sep: string, b: string)
    requires Plain(a) && Plain(sep) && Plain(b)
    ensures Plain(a + sep + b)
  {
    PlainJoined(a, sep);
    PlainJoined(a + sep, b);
  }

  lemma PaddedPlain(s: string, width: nat)
    requires AllDigits(s)
    ensures Plain(PadStart(s, width, '0'))
  {
    PaddedDigitsValue(s, width);
    DigitsPlain(PadStart(s, width, '0'));
  }

  lemma IntPlain(n: int)
    ensures Plain(IntToString(n))
  {
    if n < 0 {
      assert Plain(NatToString(-n)) by {
        DigitsPlain(NatToString(-n));
      }
      PlainJoined("-", NatToString(-n));
    } else {
      DigitsPlain(NatToString(n));
    }
  }

  lemma TwoDigitsPlain(n: int)
    ensures Plain(TwoDigits(n))
  {
    var t := IntToString(n);
    assert Plain(t) by {
      IntPlain(n);
    }
    if |t| < 2 {
      var zeros := Repeat('0', 2 - |t|);
      assert Plain(zeros);
      PlainJoined(zeros, t);
      assert TwoDigits(n) == zeros + t;
    }
  }

  lemma MoneyPlain(v: Option<int>)
    ensures Plain(MoneyCell(v))
  {
    if v.Some? {
      var sign, w, f := MinusSign(v.value < 0), NatToString(Abs(v.value) / 100), PadStart(NatToString(Abs(v.value) % 100), 2, '0');
      assert MoneyCell(v) == sign + w + "." + f;
      assert Plain(sign + w + "." + f) by {
        assert Plain(sign);
        assert Plain(w) by {
          DigitsPlain(w);
        }
        assert Plain(f) by {
          PaddedPlain(NatToString(Abs(v.value) % 100), 2);
        }
        PlainJoined(sign, w);
        SeparatedPlain(sign + w, ".", f);
      }
    }
  }

  lemma SlashDatePlain(first: int, second: int, year: int)
    ensures Plain(SlashDate(first, second, year))
  {
    var a, b, c := TwoDigits(first), TwoDigits(second), IntToString(year);
    assert Plain(a) && Plain(b) && Plain(c) by {
      TwoDigitsPlain(first);
      TwoDigitsPlain(second);
      IntPlain(year);
    }
    SeparatedPlain(a, "/", b);
    SeparatedPlain(a + "/" + b, "/", c);
    assert SlashDate(first, second, year) == a + "/" + b + "/" + c;
  }

  lemma IsoYearPlain(year: int)
    ensures Plain(IsoYear(year))
  {
    if 0 <= year <= 9999 {
      PaddedPlain(NatToString(year), 4);
    } else {
      var digits := PadStart(NatToString(Abs(year)), 6, '0');
      assert Plain(digits) by {
        PaddedPlain(NatToString(Abs(year)), 6);
      }
      PlainJoined(if year < 0 then "-" else "+", digits);
    }
  }

  lemma IsoDatePlain(d: CalendarDate)
    ensures Plain(IsoDate(d))
  {
    var a, b, c := IsoYear(d.year), TwoDigits(d.monthIndex + 1), TwoDigits(d.day);
    assert Plain(a) && Plain(b) && Plain(c) by {
      IsoYearPlain(d.year);
      TwoDigitsPlain(d.monthIndex + 1);
      TwoDigitsPlain(d.day);
    }
    SeparatedPlain(a, "-", b);
    SeparatedPlain(a + "-" + b, "-", c);
    assert IsoDate(d) == a + "-" + b + "-" + c;
  }

  lemma DatePlain(format: string, m: Moment)
    requires Plain(m.localeText)
    ensures Plain(FormatDate(format, m))
  {
    var s := FormatDate(format, m);
    match StyleOf(format)
    case DayFirst =>
      assert s == SlashDate(m.local.day, m.local.monthIndex + 1, m.local.year);
      SlashDatePlain(m.local.day, m.local.monthIndex + 1, m.local.year);
    case MonthFirst =>
      assert s == SlashDate(m.local.monthIndex + 1, m.local.day, m.local.year);
      SlashDatePlain(m.local.monthIndex + 1, m.local.day, m.local.year);
    case IsoStyle =>
      assert s == IsoDate(m.utc);
      IsoDatePlain(m.utc);
    case LocaleStyle =>
      assert s == m.localeText;
  }

  lemma CellPlain(inv: ListedInvoice, c: Column, dateFormat: string)
    requires PlainInvoice(inv)
    ensures Plain(Cell(inv, c, dateFormat))
  {
    match c
    case InvoiceIdColumn => IntPlain(inv.id);
    case TotalAmountColumn => MoneyPlain(inv.totalAmount);
    case PaidAmountColumn => MoneyPlain(inv.paidAmount);
    case DateColumn => DatePlain(dateFormat, inv.createdAt);
    case _ =>
  }

  lemma HeaderPlain(c: Column)
    ensures Plain(Header(c))
  {
    var h := Header(c);
    assert forall k :: 0 <= k < |h| ==> h[k] != ',' && h[k] != '\n' by {
      match c
      case _ =>
    }
  }

  lemma HeadersPlain(cols: seq<Column>)
    ensures forall j :: 0 <= j < |cols| ==> Plain(Headers(cols)[j])
  {
    forall j | 0 <= j < |cols| ensures Plain(Headers(cols)[j]) {
      HeaderPlain(cols[j]);
    }
  }

  lemma RowPlain(inv: ListedInvoice, cols: seq<Column>, dateFormat: string)
    requires PlainInvoice(inv)
    ensures forall j :: 0 <= j < |cols| ==> Plain(Row(inv, cols, dateFormat)[j])
  {
    forall j | 0 <= j < |cols| ensures Plain(Row(inv, cols, dateFormat)[j]) {
      CellPlain(inv, cols[j], dateFormat);
    }
  }

  /** Every cell of the table is plain when every invoice's text is. */
  lemma TablePlain(invoices: seq<ListedInvoice>, cols: seq<Column>, includeHeaders: bool, dateFormat: string)
    requires forall i :: 0 <= i < |invoices| ==> PlainInvoice(invoices[i])
    ensures var t := Table(invoices, cols, includeHeaders, dateFormat);
            forall i, j :: 0 <= i < |t| && 0 <= j < |t[i]| ==> Plain(t[i][j])
  {
    var t := Table(invoices, cols, includeHeaders, dateFormat);
    forall i | 0 <= i < |t| ensures forall j :: 0 <= j < |t[i]| ==> Plain(t[i][j]) {
      TableRowPlain(invoices, cols, includeHeaders, dateFormat, i);
    }
  }

  lemma TableRowPlain(invoices: seq<ListedInvoice>, cols: seq<Column>, includeHeaders: bool, dateFormat: string, i: nat)
    requires forall i :: 0 <= i < |invoices| ==> PlainInvoice(invoices[i])
    requires i < |Table(invoices, cols, includeHeaders, dateFormat)|
    ensures var row := Table(invoices, cols, includeHeaders, dateFormat)[i];
            forall j :: 0 <= j < |row| ==> Plain(row[j])
  {
    var row := TableRow(invoices, cols, includeHeaders, dateFormat, i);
    if includeHeaders && i == 0 {
      assert row == Headers(cols);
      HeadersPlain(cols);
    } else {
      var k := if includeHeaders then i - 1 else i;
      assert row == Row(invoices[k], cols, dateFormat);
      RowPlain(invoices[k], cols, dateFormat);
    }
  }

  /** Row `i` of the table: the header row, or the row of an invoice. */
  lemma TableRow(invoices: seq<ListedInvoice>, cols: seq<Column>, includeHeaders: bool, dateFormat: string, i: nat)
      returns (row: seq<string>)
    requires i < |Table(invoices, cols, includeHeaders, dateFormat)|
    ensures row == Table(invoices, cols, includeHeaders, dateFormat)[i]
    ensures includeHeaders && i == 0 ==> row == Headers(cols)
    ensures includeHeaders && i > 0 ==> row == Row(invoices[i - 1], cols, dateFormat)
    ensures !includeHeaders ==> row == Row(invoices[i], cols, dateFormat)
  {
    var t := Table(invoices, cols, includeHeaders, dateFormat);
    row := t[i];
    if includeHeaders && i > 0 {
      assert t[1 + (i - 1)] == Row(invoices[i - 1], cols, dateFormat);
    } else if !includeHeaders {
      assert t[0 + i] == Row(invoices[i], cols, dateFormat);
    }
  }

  /** Joined rows whose cells are plain split back into those rows. */
  lemma LinesSplitBack(t: seq<seq<string>>)
    requires |t| >= 1 && forall i :: 0 <= i < |t| ==> |t[i]| >= 1
    requires forall i, j :: 0 <= i < |t| && 0 <= j < |t[i]| ==> Plain(t[i][j])
    ensures var lines := Split(Join(Lines(t), '\n'), '\n');
            |lines| == |t| && forall i :: 0 <= i < |t| ==> Split(lines[i], ',') == t[i]
  {
    var lines := Lines(t);
    forall i | 0 <= i < |t| ensures '\n' !in lines[i] && Split(lines[i], ',') == t[i] {
      JoinWithoutChar(t[i], ',', '\n');
      SplitJoin(t[i], ',');
    }
    SplitJoin(lines, '\n');
  }

  /** With at least one column and one row, and no comma or newline in
      any invoice's text, splitting the file at newlines and each line at
      commas gives back the table exactly: the export adds no quoting, so
      these are the conditions under which its columns stay aligned. */
  lemma ExportParsesBack(invoices: seq<ListedInvoice>, options: ExportOptions)
    requires SelectedColumns(options.columns) != []
    requires options.includeHeaders || invoices != []
    requires forall i :: 0 <= i < |invoices| ==> PlainInvoice(invoices[i])
    ensures var t := ExportTable(invoices, options);
            var lines := Split(ExportContent(invoices, options), '\n');
            |lines| == |t| && forall i :: 0 <= i < |t| ==> Split(lines[i], ',') == t[i]
  {
    var cols := SelectedColumns(options.columns);
    TablePlain(invoices, cols, options.includeHeaders, options.dateFormat);
    LinesSplitBack(Table(invoices, cols, options.includeHeaders, options.dateFormat));
  }
}
