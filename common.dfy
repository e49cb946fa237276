/** Value types shared by every module, and the JavaScript string and number
    primitives the modelled code relies on (`trim`, `toLowerCase`, `includes`,
    `parseInt`, `parseFloat`, `split`, `join`, `padStart`, `toString`),
    stated over `string` = `seq<char>`. Money is always an integer number of
    cents (the database stores DECIMAL(10,2)). */
module Common {

  datatype Option<T> = None | Some(value: T)

  datatype Result<T, E> = Ok(value: T) | Err(error: E)

  // ------------------------------------------------------------------ sums

  /** Sum of a sequence, accumulated left to right as `reduce` does. */
  function Sum(s: seq<int>): int
  {
    if s == [] then 0 else Sum(s[..|s| - 1]) + s[|s| - 1]
  }

  lemma {:induction false} SumAppend(a: seq<int>, b: seq<int>)
    ensures Sum(a + b) == Sum(a) + Sum(b)
  {
    if b == [] {
      assert a + b == a;
    } else {
      SumAppend(a, b[..|b| - 1]);
      assert (a + b)[..|a + b| - 1] == a + b[..|b| - 1];
    }
  }

  lemma {:induction false} SumNonNegative(s: seq<int>)
    requires forall i :: 0 <= i < |s| ==> s[i] >= 0
    ensures Sum(s) >= 0
  {
    if s != [] {
      SumNonNegative(s[..|s| - 1]);
    }
  }

  // ---------------------------------------------------------------- filter

  /** `Array.prototype.filter`: the elements that satisfy `keep`, in order. */
  function Filter<T>(s: seq<T>, keep: T -> bool): (r: seq<T>)
    ensures |r| <= |s|
    ensures forall i :: 0 <= i < |r| ==> r[i] in s && keep(r[i])
    ensures forall i :: 0 <= i < |s| && keep(s[i]) ==> s[i] in r
  {
    if s == [] then []
    else Filter(s[..|s| - 1], keep) + (if keep(s[|s| - 1]) then [s[|s| - 1]] else [])
  }

  lemma {:induction false} FilterAppend<T>(a: seq<T>, b: seq<T>, keep: T -> bool)
    ensures Filter(a + b, keep) == Filter(a, keep) + Filter(b, keep)
  {
    if b == [] {
      assert a + b == a;
    } else {
      FilterAppend(a, b[..|b| - 1], keep);
      assert (a + b)[..|a + b| - 1] == a + b[..|b| - 1];
    }
  }

  lemma {:induction false} FilterAll<T>(s: seq<T>, keep: T -> bool)
    requires forall i :: 0 <= i < |s| ==> keep(s[i])
    ensures Filter(s, keep) == s
  {
    if s != [] {
      FilterAll(s[..|s| - 1], keep);
      assert s[..|s| - 1] + [s[|s| - 1]] == s;
    }
  }

  lemma {:induction false} FilterNone<T>(s: seq<T>, keep: T -> bool)
    requires forall i :: 0 <= i < |s| ==> !keep(s[i])
    ensures Filter(s, keep) == []
  {
    if s != [] {
      FilterNone(s[..|s| - 1], keep);
    }
  }

  lemma {:induction false} FilterDropsRejected<T>(s: seq<T>, keep: T -> bool, k: nat)
    requires k < |s| && !keep(s[k])
    ensures |Filter(s, keep)| < |s|
  {
    if k < |s| - 1 {
      FilterDropsRejected(s[..|s| - 1], keep, k);
    }
  }

  /** Filtering keeps everything exactly when every element is kept, and
      nothing exactly when none is. */
  lemma FilterLengthExtremes<T>(s: seq<T>, keep: T -> bool)
    ensures |Filter(s, keep)| == |s| <==> forall i :: 0 <= i < |s| ==> keep(s[i])
    ensures |Filter(s, keep)| == 0 <==> forall i :: 0 <= i < |s| ==> !keep(s[i])
  {
    if forall i :: 0 <= i < |s| ==> keep(s[i]) {
      FilterAll(s, keep);
    } else {
      var k :| 0 <= k < |s| && !keep(s[k]);
      FilterDropsRejected(s, keep, k);
    }
    if forall i :: 0 <= i < |s| ==> !keep(s[i]) {
      FilterNone(s, keep);
    } else {
      var k :| 0 <= k < |s| && keep(s[k]);
      assert s[k] in Filter(s, keep);
    }
  }

  /** Filtering keeps the relative order of the elements it keeps. */
  lemma {:induction false} FilterKeepsIncreasing<T>(s: seq<T>, keep: T -> bool, key: T -> int)
    requires forall i, j :: 0 <= i < j < |s| ==> key(s[i]) < key(s[j])
    ensures forall i, j :: 0 <= i < j < |Filter(s, keep)| ==> key(Filter(s, keep)[i]) < key(Filter(s, keep)[j])
  {
    if s != [] {
      var init := s[..|s| - 1];
      FilterKeepsIncreasing(init, keep, key);
      var r0 := Filter(init, keep);
      forall i | 0 <= i < |r0| ensures key(r0[i]) < key(s[|s| - 1]) {
        var k :| 0 <= k < |init| && init[k] == r0[i];
      }
      var r := Filter(s, keep);
      assert r == r0 + (if keep(s[|s| - 1]) then [s[|s| - 1]] else []);
      forall i, j | 0 <= i < j < |r| ensures key(r[i]) < key(r[j]) {
        if j < |r0| {
          assert r[i] == r0[i] && r[j] == r0[j];
        } else {
          assert r[i] == r0[i] && r[j] == s[|s| - 1];
        }
      }
    }
  }

  /** Number of elements that satisfy `keep`, as `filter(...).length`. */
  function Count<T>(s: seq<T>, keep: T -> bool): (n: nat)
    ensures n <= |s|
  {
    |Filter(s, keep)|
  }

  // ------------------------------------------------------------ characters

  predicate IsDigit(c: char)
  {
    '0' <= c <= '9'
  }

  function DigitValue(c: char): (d: nat)
    requires IsDigit(c)
    ensures d <= 9
  {
    c as int - '0' as int
  }

  function DigitChar(d: nat): (c: char)
    requires d <= 9
    ensures IsDigit(c) && DigitValue(c) == d
  {
    (d + '0' as int) as char
  }

  predicate AllDigits(s: string)
  {
    forall i :: 0 <= i < |s| ==> IsDigit(s[i])
  }

  /** The ECMAScript WhiteSpace and LineTerminator code points: what
      `String.prototype.trim` removes. */
  predicate IsSpace(c: char)
  {
    var n := c as int;
    n == 0x09 || n == 0x0A || n == 0x0B || n == 0x0C || n == 0x0D || n == 0x20
    || n == 0xA0 || n == 0x1680 || (0x2000 <= n <= 0x200A) || n == 0x2028
    || n == 0x2029 || n == 0x202F || n == 0x205F || n == 0x3000 || n == 0xFEFF
  }

  /** A string that `trim()` turns into `''`. */
  predicate IsBlank(s: string)
  {
    forall i :: 0 <= i < |s| ==> IsSpace(s[i])
  }

  // ------------------------------------------------------------------ trim

  function TrimStart(s: string): (r: string)
    ensures |r| <= |s| && r == s[|s| - |r|..]
    ensures r == [] || !IsSpace(r[0])
    ensures forall i :: 0 <= i < |s| - |r| ==> IsSpace(s[i])
  {
    if s != [] && IsSpace(s[0]) then TrimStart(s[1..]) else s
  }

  function TrimEnd(s: string): (r: string)
    ensures |r| <= |s| && r == s[..|r|]
    ensures r == [] || !IsSpace(r[|r| - 1])
    ensures forall i :: |r| <= i < |s| ==> IsSpace(s[i])
  {
    if s != [] && IsSpace(s[|s| - 1]) then TrimEnd(s[..|s| - 1]) else s
  }

  /** `String.prototype.trim`. */
  function Trim(s: string): string
  {
    TrimEnd(TrimStart(s))
  }

  lemma TrimEmptyIffBlank(s: string)
    ensures Trim(s) == [] <==> IsBlank(s)
  {
  }

  lemma TrimOfNonSpaceEnds(s: string)
    requires s != [] && !IsSpace(s[0]) && !IsSpace(s[|s| - 1])
    ensures Trim(s) == s
  {
  }

  /** `s.length`: JavaScript counts UTF-16 code units, two for a code
      point above U+FFFF. */
  function Utf16Length(s: string): (n: nat)
    ensures |s| <= n <= 2 * |s|
    ensures (forall i :: 0 <= i < |s| ==> s[i] as int < 0x10000) ==> n == |s|
  {
    if s == [] then 0
    else Utf16Length(s[..|s| - 1]) + (if s[|s| - 1] as int < 0x10000 then 1 else 2)
  }

  // ------------------------------------------------------- case and search

  /** `toLowerCase` on the ASCII letters (other characters are kept). */
  function ToLowerChar(c: char): char
  {
    if 'A' <= c <= 'Z' then (c as int + 32) as char else c
  }

  function ToLower(s: string): (r: string)
    ensures |r| == |s|
    ensures forall i :: 0 <= i < |s| ==> r[i] == ToLowerChar(s[i])
  {
    seq(|s|, i requires 0 <= i < |s| => ToLowerChar(s[i]))
  }

  /** `s.includes(sub)`. */
  predicate Contains(s: string, sub: string)
    decreases |s|
  {
    sub <= s || (s != [] && Contains(s[1..], sub))
  }

  lemma {:induction false} ContainsMiddle(a: string, sub: string, b: string)
    ensures Contains(a + sub + b, sub)
  {
    if a != [] {
      ContainsMiddle(a[1..], sub, b);
      assert (a + sub + b)[1..] == a[1..] + sub + b;
    } else {
      assert a + sub + b == sub + b;
    }
  }

  // ---------------------------------------------------- decimal notation

  function Pow10(n: nat): (p: nat)
    ensures p >= 1
  {
    if n == 0 then 1 else 10 * Pow10(n - 1)
  }

  lemma {:induction false} Pow10Monotone(a: nat, b: nat)
    requires a <= b
    ensures Pow10(a) <= Pow10(b)
  {
    if a < b {
      Pow10Monotone(a, b - 1);
    }
  }

  /** The number a string of decimal digits denotes (a character that is
      not a digit would count as 0; the model only applies it to digits). */
  function DigitsValue(s: string): nat
  {
    if s == [] then 0
    else 10 * DigitsValue(s[..|s| - 1]) + (if IsDigit(s[|s| - 1]) then DigitValue(s[|s| - 1]) else 0)
  }

  /** `n.toString()` for a non-negative integer. */
  function NatToString(n: nat): (s: string)
    ensures |s| >= 1 && AllDigits(s)
    ensures DigitsValue(s) == n
    ensures n > 0 ==> s[0] != '0'
  {
    if n < 10 then [DigitChar(n)]
    else
      var s := NatToString(n / 10) + [DigitChar(n % 10)];
      assert s[..|s| - 1] == NatToString(n / 10);
      s
  }

  lemma NatToStringBelow100(n: nat)
    requires n < 100
    ensures |NatToString(n)| <= 2
  {
    if n >= 10 {
      assert NatToString(n / 10) == [DigitChar(n / 10)];
    }
  }

  /** `i.toString()` for any integer. */
  function IntToString(i: int): string
  {
    if i < 0 then "-" + NatToString(-i) else NatToString(i)
  }

  function Repeat(c: char, n: nat): (r: string)
    ensures |r| == n
    ensures forall i :: 0 <= i < n ==> r[i] == c
  {
    seq(n, _ => c)
  }

  /** `s.padStart(width, c)` with a one-character filler. */
  function PadStart(s: string, width: nat, c: char): (r: string)
    ensures |r| == if |s| >= width then |s| else width
    ensures s <= r[|r| - |s|..] && r[|r| - |s|..] == s
  {
    if |s| >= width then s else Repeat(c, width - |s|) + s
  }

  lemma {:induction false} DigitsConcat(a: string, b: string)
    ensures DigitsValue(a + b) == DigitsValue(a) * Pow10(|b|) + DigitsValue(b)
  {
    if b != [] {
      var b' := b[..|b| - 1];
      var c := b[|b| - 1];
      DigitsConcat(a, b');
      assert (a + b)[..|a + b| - 1] == a + b';
      assert (a + b)[|a + b| - 1] == c;
      ShiftDigit(DigitsValue(a), Pow10(|b'|), DigitsValue(b'), if IsDigit(c) then DigitValue(c) else 0);
    } else {
      assert a + b == a;
    }
  }

  /** The arithmetic step of `DigitsConcat`: appending one digit. */
  lemma ShiftDigit(x: int, p: int, y: int, d: int)
    ensures 10 * (x * p + y) + d == x * (10 * p) + (10 * y + d)
  {
  }

  lemma {:induction false} DigitsOfZeros(n: nat)
    ensures AllDigits(Repeat('0', n)) && DigitsValue(Repeat('0', n)) == 0
  {
    if n > 0 {
      DigitsOfZeros(n - 1);
      assert Repeat('0', n)[..n - 1] == Repeat('0', n - 1);
    }
  }

  /** Zero padding does not change the value: `parseInt` of a padded
      numeral reads the same number. */
  lemma PaddedDigitsValue(s: string, width: nat)
    requires AllDigits(s)
    ensures AllDigits(PadStart(s, width, '0'))
    ensures DigitsValue(PadStart(s, width, '0')) == DigitsValue(s)
  {
    if |s| < width {
      DigitsOfZeros(width - |s|);
      DigitsConcat(Repeat('0', width - |s|), s);
    }
  }

  // -------------------------------------------------------- parseInt

  /** The run of decimal digits at the front of `s`. */
  function LeadingDigits(s: string): (d: string)
    ensures d <= s && AllDigits(d)
    ensures |d| == |s| || !IsDigit(s[|d|])
  {
    if s != [] && IsDigit(s[0]) then [s[0]] + LeadingDigits(s[1..]) else []
  }

  lemma {:induction false} LeadingDigitsThenStop(d: string, rest: string)
    requires AllDigits(d)
    requires rest == [] || !IsDigit(rest[0])
    ensures LeadingDigits(d + rest) == d
  {
    if d == [] {
      assert d + rest == rest;
    } else {
      LeadingDigitsThenStop(d[1..], rest);
      assert (d + rest)[1..] == d[1..] + rest;
      assert [d[0]] + d[1..] == d;
    }
  }

  /** `parseInt` and `parseFloat` accept one leading `+` or `-`. */
  predicate HasSign(t: string)
  {
    t != [] && (t[0] == '-' || t[0] == '+')
  }

  /** Whether that sign is `-`. */
  predicate Negative(t: string)
  {
    t != [] && t[0] == '-'
  }

  /** `t` without its sign. */
  function Unsigned(t: string): string
  {
    if HasSign(t) then t[1..] else t
  }

  function Signed(neg: bool, n: nat): int
  {
    var v: int := n;
    if neg then -v else v
  }

  /** `parseInt(s, 10)`: leading white space, an optional sign, then the
      longest run of decimal digits; `None` stands for `NaN` (no digit). */
  function JsParseInt(s: string): Option<int>
  {
    var t := TrimStart(s);
    var d := LeadingDigits(Unsigned(t));
    if d == [] then None else Some(Signed(Negative(t), DigitsValue(d)))
  }

  lemma ParseIntOfDigits(s: string)
    requires s != [] && AllDigits(s)
    ensures JsParseInt(s) == Some(DigitsValue(s))
  {
    assert TrimStart(s) == s;
    LeadingDigitsThenStop(s, []);
    assert s + [] == s;
  }

  lemma ParseIntOfIntToString(i: int)
    ensures JsParseInt(IntToString(i)) == Some(i)
  {
    if i < 0 {
      var s := IntToString(i);
      assert TrimStart(s) == s;
      assert Negative(s) && Unsigned(s) == NatToString(-i);
      LeadingDigitsThenStop(NatToString(-i), []);
      assert NatToString(-i) + [] == NatToString(-i);
    } else {
      ParseIntOfDigits(NatToString(i));
    }
  }

  // -------------------------------------------------------- parseFloat

  /** An exact decimal number `mantissa / 10^scale`. */
  datatype Decimal = Decimal(mantissa: int, scale: nat)

  /** The digits after a leading `.`, if any. */
  function FractionDigits(rest: string): string
  {
    if rest != [] && rest[0] == '.' then LeadingDigits(rest[1..]) else []
  }

  /** `parseFloat(s)` on plain decimal notation: leading white space, an
      optional sign, digits, optionally `.` and more digits; `None` stands for
      `NaN` (no digit at all). The value is kept exact. */
  function JsParseFloat(s: string): Option<Decimal>
  {
    var t := TrimStart(s);
    UnsignedDecimal(Negative(t), Unsigned(t))
  }

  function UnsignedDecimal(neg: bool, body: string): Option<Decimal>
  {
    var whole := LeadingDigits(body);
    DecimalOf(neg, whole, FractionDigits(body[|whole|..]))
  }

  /** The number written with digits `whole` before the point and `frac`
      after it. */
  function DecimalOf(neg: bool, whole: string, frac: string): Option<Decimal>
  {
    if whole == [] && frac == [] then None
    else Some(Decimal(Signed(neg, DigitsValue(whole + frac)), |frac|))
  }

  function Abs(i: int): nat
  {
    if i < 0 then -i else i
  }

  /** The `-` written before a negative number. */
  function MinusSign(neg: bool): string
  {
    if neg then "-" else ""
  }

  /** How MySQL renders a DECIMAL(10,2) value held as `cents`. */
  function CentsText(cents: int): string
  {
    DecimalText(cents < 0, Abs(cents) / 100, Abs(cents) % 100)
  }

  /** Sign, whole part, `.` and the two-digit fraction `r`. */
  function DecimalText(neg: bool, q: nat, r: nat): string
  {
    MinusSign(neg) + NatToString(q) + "." + PadStart(NatToString(r), 2, '0')
  }

  lemma ParseFloatSteps(s: string, neg: bool, body: string, whole: string, frac: string)
    requires Negative(TrimStart(s)) == neg && Unsigned(TrimStart(s)) == body
    requires LeadingDigits(body) == whole && whole != []
    requires FractionDigits(body[|whole|..]) == frac
    ensures JsParseFloat(s)
         == Some(Decimal(Signed(neg, DigitsValue(whole + frac)), |frac|))
  {
  }

  lemma SignedText(neg: bool, body: string)
    requires body != [] && IsDigit(body[0])
    ensures Negative(TrimStart(MinusSign(neg) + body)) == neg
    ensures Unsigned(TrimStart(MinusSign(neg) + body)) == body
  {
    var text := MinusSign(neg) + body;
    assert !IsSpace(text[0]);
    if neg {
      assert text[1..] == body;
    }
  }

  /** `w.f` with digit runs `w` (not empty) and `f` splits back into them. */
  lemma DecimalBody(w: string, f: string)
    requires w != [] && AllDigits(w) && AllDigits(f)
    ensures (w + "." + f)[0] == w[0]
    ensures LeadingDigits(w + "." + f) == w
    ensures FractionDigits((w + "." + f)[|w|..]) == f
  {
    assert w + "." + f == w + ("." + f);
    LeadingDigitsThenStop(w, "." + f);
    DotFraction(f);
  }

  lemma DotFraction(f: string)
    requires AllDigits(f)
    ensures FractionDigits("." + f) == f
  {
    assert ("." + f)[1..] == f + [];
    LeadingDigitsThenStop(f, []);
  }

  lemma ParseFloatOfParts(neg: bool, w: string, f: string)
    requires w != [] && AllDigits(w) && AllDigits(f)
    ensures JsParseFloat(MinusSign(neg) + w + "." + f)
         == Some(Decimal(Signed(neg, DigitsValue(w + f)), |f|))
  {
    var body := w + "." + f;
    assert MinusSign(neg) + w + "." + f == MinusSign(neg) + body;
    DecimalBody(w, f);
    SignedText(neg, body);
    ParseFloatSteps(MinusSign(neg) + body, neg, body, w, f);
  }

  /** `parseFloat` reads a rendered DECIMAL(10,2) back as exactly the
      stored number of cents over 10^2. */
  lemma ParseFloatOfCentsText(cents: int)
    ensures JsParseFloat(CentsText(cents)) == Some(Decimal(cents, 2))
  {
    var neg, q, r := cents < 0, Abs(cents) / 100, Abs(cents) % 100;
    assert Signed(neg, q * 100 + r) == cents by {
      SignedCents(cents);
    }
    assert JsParseFloat(DecimalText(neg, q, r)) == Some(Decimal(Signed(neg, q * 100 + r), 2)) by {
      DecimalTextParses(neg, q, r);
    }
    assert CentsText(cents) == DecimalText(neg, q, r);
  }

  /** A rendered sign, whole part `q` and fraction `r` read back as `q.r`. */
  lemma DecimalTextParses(neg: bool, q: nat, r: nat)
    requires r < 100
    ensures JsParseFloat(DecimalText(neg, q, r)) == Some(Decimal(Signed(neg, q * 100 + r), 2))
  {
    CentsFraction(r);
    CentsParts(neg, NatToString(q), PadStart(NatToString(r), 2, '0'), q, r);
  }

  /** A rendered amount with whole digits `w` (value `q`) and two
      fraction digits `f` (value `r`) reads back as `q.r`. */
  lemma CentsParts(neg: bool, w: string, f: string, q: nat, r: nat)
    requires w != [] && AllDigits(w) && DigitsValue(w) == q
    requires |f| == 2 && AllDigits(f) && DigitsValue(f) == r
    ensures JsParseFloat(MinusSign(neg) + w + "." + f) == Some(Decimal(Signed(neg, q * 100 + r), 2))
  {
    CentsValue(w, f, q, r);
    ParseFloatOfParts(neg, w, f);
    SameDecimal(Signed(neg, DigitsValue(w + f)), Signed(neg, q * 100 + r), |f|, 2);
  }

  lemma SameDecimal(a: int, b: int, k: nat, l: nat)
    requires a == b && k == l
    ensures Some(Decimal(a, k)) == Some(Decimal(b, l))
  {
  }

  /** The two fraction digits of a rendered amount. */
  lemma CentsFraction(r: nat)
    requires r < 100
    ensures |PadStart(NatToString(r), 2, '0')| == 2
    ensures AllDigits(PadStart(NatToString(r), 2, '0'))
    ensures DigitsValue(PadStart(NatToString(r), 2, '0')) == r
  {
    PaddedDigitsValue(NatToString(r), 2);
    NatToStringBelow100(r);
  }

  lemma SignedCents(cents: int)
    ensures Signed(cents < 0, Abs(cents) / 100 * 100 + Abs(cents) % 100) == cents
  {
  }

  lemma CentsValue(w: string, f: string, q: nat, r: nat)
    requires DigitsValue(w) == q && DigitsValue(f) == r && |f| == 2
    ensures DigitsValue(w + f) == q * 100 + r
  {
    DigitsConcat(w, f);
    assert Pow10(2) == 100;
  }

  // -------------------------------------------------------- split / join

  /** `s.split(sep)` for a one-character separator. */
  function Split(s: string, sep: char): (parts: seq<string>)
    ensures |parts| >= 1
  {
    if s == [] then [""]
    else
      var rest := Split(s[1..], sep);
      if s[0] == sep then [""] + rest else [[s[0]] + rest[0]] + rest[1..]
  }

  /** `parts.join(sep)`. */
  function Join(parts: seq<string>, sep: char): string
  {
    if parts == [] then ""
    else if |parts| == 1 then parts[0]
    else parts[0] + [sep] + Join(parts[1..], sep)
  }

  lemma {:induction false} SplitWithoutSep(a: string, sep: char)
    requires sep !in a
    ensures Split(a, sep) == [a]
  {
    if a != [] {
      SplitWithoutSep(a[1..], sep);
      assert [a[0]] + a[1..] == a;
    }
  }

  lemma {:induction false} SplitAtFirstSep(a: string, sep: char, b: string)
    requires sep !in a
    ensures Split(a + [sep] + b, sep) == [a] + Split(b, sep)
  {
    var s := a + [sep] + b;
    if a == [] {
      assert s[1..] == b;
    } else {
      SplitAtFirstSep(a[1..], sep, b);
      assert s[1..] == a[1..] + [sep] + b;
      assert [a[0]] + a[1..] == a;
    }
  }

  /** Splitting a joined list gives the list back when no part holds the
      separator. */
  lemma {:induction false} SplitJoin(parts: seq<string>, sep: char)
    requires |parts| >= 1
    requires forall i :: 0 <= i < |parts| ==> sep !in parts[i]
    ensures Split(Join(parts, sep), sep) == parts
  {
    if |parts| == 1 {
      SplitWithoutSep(parts[0], sep);
    } else {
      SplitJoin(parts[1..], sep);
      SplitAtFirstSep(parts[0], sep, Join(parts[1..], sep));
      assert [parts[0]] + parts[1..] == parts;
    }
  }

  lemma {:induction false} JoinWithoutChar(parts: seq<string>, sep: char, c: char)
    requires c != sep
    requires forall i :: 0 <= i < |parts| ==> c !in parts[i]
    ensures c !in Join(parts, sep)
  {
    if |parts| > 1 {
      JoinWithoutChar(parts[1..], sep, c);
    }
  }

  // -------------------------------------------------------- replace

  /** `s.replace(pat, '')`: the first occurrence of `pat` removed. */
  function RemoveFirst(s: string, pat: string): string
  {
    if pat <= s then s[|pat|..]
    else if s == [] then s
    else [s[0]] + RemoveFirst(s[1..], pat)
  }

  lemma RemoveFirstOfPrefixed(pat: string, rest: string)
    ensures RemoveFirst(pat + rest, pat) == rest
  {
    assert pat <= pat + rest;
    assert (pat + rest)[|pat|..] == rest;
  }
}
