/** The human-readable identifiers of the billing routes: `ORD0001`,
    `INV0001` (prefix + a number padded to four digits, one more than the
    number in the newest row) and `CUS-<year>-0001` (the number taken from the
    newest order's customer id with the pattern `CUS-\d{4}-(\d+)`). */
module Identifiers {
  import opened Common

  /** The newest row's identifier, absent when the table is empty. */
  function Last(ids: seq<string>): Option<string>
  {
    if ids == [] then None else Some(ids[|ids| - 1])
  }

  /** `getLatestOrderNumber` / `getLatestInvoiceNumber`: 0 for an empty
      table, otherwise `parseInt` of the newest id with its first `prefix`
      removed (`None` = NaN). */
  function LatestNumber(prefix: string, last: Option<string>): Option<int>
  {
    match last
    case None => Some(0)
    case Some(id) => JsParseInt(RemoveFirst(id, prefix))
  }

  /** `n.toString()` where `n` may be NaN. */
  function NumberText(n: Option<int>): string
  {
    match n
    case None => "NaN"
    case Some(v) => IntToString(v)
  }

  /** `n + 1` where `n` may be NaN. */
  function Succ(n: Option<int>): Option<int>
  {
    match n
    case None => None
    case Some(v) => Some(v + 1)
  }

  /** The identifier the POST /orders route gives the next order or invoice. */
  function NextId(prefix: string, last: Option<string>): string
  {
    prefix + PadStart(NumberText(Succ(LatestNumber(prefix, last))), 4, '0')
  }

  /** The well-formed identifier with number `n`. */
  function FormatId(prefix: string, n: nat): string
  {
    prefix + PadStart(NatToString(n), 4, '0')
  }

  lemma ParsePadded(n: nat)
    ensures JsParseInt(PadStart(NatToString(n), 4, '0')) == Some(n)
  {
    PaddedDigitsValue(NatToString(n), 4);
    ParseIntOfDigits(PadStart(NatToString(n), 4, '0'));
  }

  /** The first row of an empty table gets number 1. */
  lemma NextIdOfEmptyTable(prefix: string)
    ensures NextId(prefix, None) == FormatId(prefix, 1)
  {
  }

  /** After a well-formed identifier comes the one with the next number. */
  lemma NextIdSucceeds(prefix: string, n: nat)
    ensures NextId(prefix, Some(FormatId(prefix, n))) == FormatId(prefix, n + 1)
  {
    LatestOfFormatted(prefix, n);
    NextIdOfLatest(prefix, Some(FormatId(prefix, n)), n);
  }

  lemma LatestOfFormatted(prefix: string, n: nat)
    ensures LatestNumber(prefix, Some(FormatId(prefix, n))) == Some(n)
  {
    RemoveFirstOfPrefixed(prefix, PadStart(NatToString(n), 4, '0'));
    ParsePadded(n);
  }

  lemma NextIdOfLatest(prefix: string, last: Option<string>, n: nat)
    requires LatestNumber(prefix, last) == Some(n)
    ensures NextId(prefix, last) == FormatId(prefix, n + 1)
  {
    assert NumberText(Succ(Some(n))) == NatToString(n + 1);
  }

  /** Different numbers give different identifiers. */
  lemma FormatIdInjective(prefix: string, a: nat, b: nat)
    requires FormatId(prefix, a) == FormatId(prefix, b)
    ensures a == b
  {
    var pa, pb := PadStart(NatToString(a), 4, '0'), PadStart(NatToString(b), 4, '0');
    assert pa == FormatId(prefix, a)[|prefix|..];
    assert pb == FormatId(prefix, b)[|prefix|..];
    ParsePadded(a);
    ParsePadded(b);
  }

  /** `ids` is a table column filled by inserting its rows one after
      another, each row taking the identifier `NextId` computes from the rows
      before it. */
  predicate IssuedInOrder(prefix: string, ids: seq<string>)
  {
    forall i :: 0 <= i < |ids| ==> ids[i] == NextId(prefix, Last(ids[..i]))
  }

  /** Sequential issuing numbers the rows 1, 2, 3, ... without gaps. */
  lemma {:induction false} IssuedInOrderNumbered(prefix: string, ids: seq<string>, i: nat)
    requires IssuedInOrder(prefix, ids) && i < |ids|
    ensures ids[i] == FormatId(prefix, i + 1)
  {
    if i == 0 {
      assert ids[..0] == [];
      NextIdOfEmptyTable(prefix);
    } else {
      IssuedInOrderNumbered(prefix, ids, i - 1);
      assert Last(ids[..i]) == Some(FormatId(prefix, i));
      NextIdSucceeds(prefix, i);
    }
  }

  /** ... and without repeats. */
  lemma IssuedInOrderDistinct(prefix: string, ids: seq<string>, i: nat, j: nat)
    requires IssuedInOrder(prefix, ids) && i < j < |ids|
    ensures ids[i] != ids[j]
  {
    IssuedInOrderNumbered(prefix, ids, i);
    IssuedInOrderNumbered(prefix, ids, j);
    if ids[i] == ids[j] {
      FormatIdInjective(prefix, i + 1, j + 1);
    }
  }

  // ------------------------------------------------------------ customers

  /** The outcome of `SELECT customer_id FROM orders ORDER BY id DESC LIMIT 1`. */
  datatype Lookup = QueryFailed | NoRows | FirstRow(customerId: string)

  /** The leftmost match of `CUS-\d{4}-(\d+)` in `s`, giving the captured
      group. */
  function MatchCustomerPattern(s: string): (g: Option<string>)
    ensures g.Some? ==> g.value != [] && AllDigits(g.value)
  {
    if |s| >= 10 && s[..4] == "CUS-" && AllDigits(s[4..8]) && s[8] == '-' && IsDigit(s[9]) then
      Some(LeadingDigits(s[9..]))
    else if s == [] then None
    else MatchCustomerPattern(s[1..])
  }

  /** `getLatestCustomerNumber`: 0 when the query fails, the table is empty
      or the newest customer id does not match the pattern. */
  function CustomerNumber(lookup: Lookup): int
  {
    match lookup
    case QueryFailed => 0
    case NoRows => 0
    case FirstRow(id) =>
      match MatchCustomerPattern(id)
      case None => 0
      case Some(group) =>
        match JsParseInt(group)
        case None => 0
        case Some(n) => n
  }

  /** `generateCustomerId` for the given calendar year. */
  function NextCustomerId(year: int, lookup: Lookup): string
  {
    "CUS-" + IntToString(year) + "-" + PadStart(IntToString(CustomerNumber(lookup) + 1), 4, '0')
  }

  function FormatCustomerId(year: nat, n: nat): string
  {
    "CUS-" + NatToString(year) + "-" + PadStart(NatToString(n), 4, '0')
  }

  lemma CustomerNumberOfFormatted(year: nat, n: nat)
    requires 1000 <= year <= 9999
    ensures CustomerNumber(FirstRow(FormatCustomerId(year, n))) == n
  {
    MatchFormatted(year, n);
    ParsePadded(n);
  }

  /** The pattern finds a well-formed customer id at its start and
      captures its padded number. */
  lemma MatchFormatted(year: nat, n: nat)
    requires 1000 <= year <= 9999
    ensures MatchCustomerPattern(FormatCustomerId(year, n)) == Some(PadStart(NatToString(n), 4, '0'))
  {
    var y, p := NatToString(year), PadStart(NatToString(n), 4, '0');
    FourDigitYear(year);
    PaddedDigitsValue(NatToString(n), 4);
    MatchAtStart(y, p);
  }

  lemma MatchAtStart(y: string, p: string)
    requires |y| == 4 && AllDigits(y) && p != [] && AllDigits(p)
    ensures MatchCustomerPattern("CUS-" + y + "-" + p) == Some(p)
  {
    var s := "CUS-" + y + "-" + p;
    assert s[..4] == "CUS-" && s[4..8] == y && s[8] == '-' && s[9..] == p;
    LeadingDigitsThenStop(p, []);
    assert p + [] == p;
  }

  lemma FourDigitYear(year: nat)
    requires 1000 <= year <= 9999
    ensures |NatToString(year)| == 4
  {
    var y := NatToString(year);
    assert Pow10(3) == 1000 && Pow10(4) == 10000;
    DigitsBelowPow10(y);
    DigitsAtLeastPow10(y);
    if |y| < 4 {
      Pow10Monotone(|y|, 3);
    } else if |y| > 4 {
      Pow10Monotone(4, |y| - 1);
    }
  }

  /** The customer number keeps counting when the year changes: it never
      restarts at 1 for a new year. */
  lemma CustomerNumberCarriesAcrossYears(oldYear: nat, newYear: nat, n: nat)
    requires 1000 <= oldYear <= 9999 && 1000 <= newYear <= 9999
    ensures NextCustomerId(newYear, FirstRow(FormatCustomerId(oldYear, n)))
         == FormatCustomerId(newYear, n + 1)
  {
    CustomerNumberOfFormatted(oldYear, n);
  }

  /** A failed query, an empty table and a newest customer id the pattern
      does not find all start the year's numbering at 1. */
  lemma NextCustomerIdStartsAtOne(year: nat, lookup: Lookup)
    requires lookup.QueryFailed? || lookup.NoRows? || MatchCustomerPattern(lookup.customerId).None?
    ensures NextCustomerId(year, lookup) == FormatCustomerId(year, 1)
  {
  }

  lemma {:induction false} DigitsBelowPow10(s: string)
    ensures DigitsValue(s) < Pow10(|s|)
  {
    if s != [] {
      DigitsBelowPow10(s[..|s| - 1]);
    }
  }

  lemma {:induction false} DigitsAtLeastPow10(s: string)
    requires s != [] && AllDigits(s) && s[0] != '0'
    ensures DigitsValue(s) >= Pow10(|s| - 1)
  {
    if |s| > 1 {
      DigitsAtLeastPow10(s[..|s| - 1]);
    }
  }
}
