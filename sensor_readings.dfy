/** The sensor readings page: the date range and the grouping it selects,
    the grouping of readings by day or hour, the threshold alerts, the
    capped history the sensor ticks append to, and the threshold
    notifications that are not repeated for the same reading. */
module SensorReadings {
  import opened Common

  // ------------------------------------------------------------- config

  /** The thresholds and the history cap of the sensor configuration. A pH
      value is counted in hundredths (the simulator writes it with two
      decimals), so 6.5 is 650; the water level is a whole percentage. */
  const PhMin: int := 650
  const PhMax: int := 750
  const WaterLevelMin: int := 20
  const MaxHistoricalDataPoints: nat := 1000

  /** A reading; a value is `None` where the reading carries `undefined`. */
  datatype Reading = Reading(ph: Option<int>, tds: Option<int>, waterLevel: Option<int>, timestamp: string)

  // --------------------------------------------------------- date range

  predicate IsLetter(c: char)
  {
    'a' <= c <= 'z' || 'A' <= c <= 'Z'
  }

  predicate AllLetters(s: string)
  {
    forall i :: 0 <= i < |s| ==> IsLetter(s[i])
  }

  /** The run of letters at the front of `s`. */
  function LeadingLetters(s: string): (l: string)
    ensures l <= s && AllLetters(l)
    ensures |l| == |s| || !IsLetter(s[|l|])
  {
    if s != [] && IsLetter(s[0]) then [s[0]] + LeadingLetters(s[1..]) else []
  }

  lemma {:induction false} LeadingLettersThenStop(l: string, rest: string)
    requires AllLetters(l)
    requires rest == [] || !IsLetter(rest[0])
    ensures LeadingLetters(l + rest) == l
  {
    if l == [] {
      assert l + rest == rest;
    } else {
      LeadingLettersThenStop(l[1..], rest);
      assert (l + rest)[1..] == l[1..] + rest;
      assert [l[0]] + l[1..] == l;
    }
  }

  /** Whether `/(\d+)([a-zA-Z]+)/` matches at the front of `s`: the whole
      run of digits there (a shorter one is followed by a digit) and then
      a letter. */
  predicate MatchesHere(s: string)
  {
    var d := LeadingDigits(s);
    d != [] && |d| < |s| && IsLetter(s[|d|])
  }

  /** The two groups of a match at the front of `s`. */
  function GroupsHere(s: string): (string, string)
    requires MatchesHere(s)
  {
    var d := LeadingDigits(s);
    (d, LeadingLetters(s[|d|..]))
  }

  /** `rangeStr.match(/(\d+)([a-zA-Z]+)/)`: the groups of the first match
      found scanning from the left, if there is one. */
  function FindMatch(s: string): Option<(string, string)>
    decreases |s|
  {
    if s == [] then None
    else if MatchesHere(s) then Some(GroupsHere(s))
    else FindMatch(s[1..])
  }

  /** There is no match exactly when no position matches. */
  lemma {:induction false} FindMatchNone(s: string)
    ensures FindMatch(s).None? <==> forall a :: 0 <= a < |s| ==> !MatchesHere(s[a..])
    decreases |s|
  {
    if s != [] {
      assert s[0..] == s;
      if !MatchesHere(s) {
        FindMatchNone(s[1..]);
        forall a | 0 < a < |s| ensures s[1..][a - 1..] == s[a..] {
        }
      }
    }
  }

  /** A match found is the groups at the first position that matches. */
  lemma {:induction false} FindMatchLeftmost(s: string) returns (a: nat)
    requires FindMatch(s).Some?
    ensures a < |s| && MatchesHere(s[a..]) && FindMatch(s).value == GroupsHere(s[a..])
    ensures forall b :: 0 <= b < a ==> !MatchesHere(s[b..])
    decreases |s|
  {
    assert s[0..] == s;
    if MatchesHere(s) {
      a := 0;
    } else {
      var a' := FindMatchLeftmost(s[1..]);
      a := a' + 1;
      assert s[1..][a'..] == s[a..];
      forall b | 0 < b < a ensures !MatchesHere(s[b..]) {
        assert s[1..][b - 1..] == s[b..];
      }
    }
  }

  /** The regular expression matches exactly when a digit is followed by a
      letter somewhere in the string. */
  lemma MatchIffDigitThenLetter(s: string)
    ensures FindMatch(s).Some? <==> exists i :: 0 <= i < |s| - 1 && IsDigit(s[i]) && IsLetter(s[i + 1])
  {
    FindMatchNone(s);
    if FindMatch(s).Some? {
      var a :| 0 <= a < |s| && MatchesHere(s[a..]);
      var i := MatchEndsDigitThenLetter(s, a);
    }
    if exists i :: 0 <= i < |s| - 1 && IsDigit(s[i]) && IsLetter(s[i + 1]) {
      var i :| 0 <= i < |s| - 1 && IsDigit(s[i]) && IsLetter(s[i + 1]);
      DigitThenLetterMatches(s, i);
    }
  }

  /** Where a match starts, its last digit is followed by a letter. */
  lemma MatchEndsDigitThenLetter(s: string, a: nat) returns (i: nat)
    requires a < |s| && MatchesHere(s[a..])
    ensures i < |s| - 1 && IsDigit(s[i]) && IsLetter(s[i + 1])
  {
    var t := s[a..];
    var d := LeadingDigits(t);
    assert d[|d| - 1] == t[|d| - 1] == s[a + |d| - 1];
    assert t[|d|] == s[a + |d|];
    i := a + |d| - 1;
  }

  /** A digit followed by a letter starts a match. */
  lemma DigitThenLetterMatches(s: string, i: nat)
    requires i < |s| - 1 && IsDigit(s[i]) && IsLetter(s[i + 1])
    ensures MatchesHere(s[i..])
  {
    assert s[i..] == [s[i]] + s[i + 1..];
    assert !IsDigit(s[i + 1..][0]);
    LeadingDigitsThenStop([s[i]], s[i + 1..]);
  }

  /** How many days a unit letter group stands for. */
  function UnitFactor(unit: string): nat
  {
    if unit == "m" then 30 else if unit == "y" then 365 else 1
  }

  /** `parseDateRange`: the number of days a range such as `7d` names;
      `parseInt` of the digit group is its decimal value, as
      `ParseIntOfDigits` shows. */
  function ParseDateRange(rangeStr: string): int
  {
    match FindMatch(rangeStr)
    case None => 7
    case Some((digits, unit)) =>
      var value := DigitsValue(digits);
      if unit == "d" then value
      else if unit == "m" then value * 30
      else if unit == "y" then value * 365
      else value
  }

  /** A number, a unit and anything not starting with a letter: the days
      are the number for `d`, thirty times it for `m`, 365 times it for
      `y` and the number itself for any other unit. */
  lemma DateRangeOf(digits: string, unit: string, rest: string)
    requires digits != [] && AllDigits(digits)
    requires unit != [] && AllLetters(unit)
    requires rest == [] || !IsLetter(rest[0])
    ensures ParseDateRange(digits + unit + rest) == DigitsValue(digits) * UnitFactor(unit)
  {
    var s := digits + unit + rest;
    assert s == digits + (unit + rest);
    assert !IsDigit((unit + rest)[0]);
    LeadingDigitsThenStop(digits, unit + rest);
    assert LeadingDigits(s) == digits;
    assert s[|digits|..] == unit + rest;
    assert s[|digits|] == unit[0];
    LeadingLettersThenStop(unit, rest);
    assert GroupsHere(s) == (digits, unit);
    assert FindMatch(s) == Some((digits, unit));
  }

  /** Without a digit followed by a letter the range is seven days. */
  lemma NoMatchIsSevenDays(s: string)
    requires forall i :: 0 <= i < |s| - 1 ==> !(IsDigit(s[i]) && IsLetter(s[i + 1]))
    ensures ParseDateRange(s) == 7
  {
    MatchIffDigitThenLetter(s);
  }

  // ----------------------------------------------------------- grouping

  datatype GroupBy = ByDay | ByHour | NoGrouping

  /** The grouping `processHistoricalData` picks for a number of days. */
  function GroupingFor(days: int): GroupBy
  {
    if days >= 30 then ByDay else if days >= 7 then ByHour else NoGrouping
  }

  function Coarseness(g: GroupBy): nat
  {
    match g
    case NoGrouping => 0
    case ByHour => 1
    case ByDay => 2
  }

  /** A longer range never gets a finer grouping. */
  lemma GroupingCoarsens(d1: int, d2: int)
    requires d1 <= d2
    ensures Coarseness(GroupingFor(d1)) <= Coarseness(GroupingFor(d2))
  {
  }

  /** The days of a one- or two-digit range in days. */
  lemma DaysOfRange(t: string, tens: nat, ones: nat)
    requires tens <= 9 && ones <= 9
    requires t == (if tens == 0 then [] else [DigitChar(tens)]) + [DigitChar(ones)] + "d"
    ensures ParseDateRange(t) == 10 * tens + ones
  {
    var front: string := if tens == 0 then [] else [DigitChar(tens)];
    var digits := front + [DigitChar(ones)];
    assert digits[..|digits| - 1] == front;
    assert DigitsValue(front) == tens by {
      if tens != 0 {
        assert front[..0] == [];
      }
    }
    assert DigitsValue(digits) == 10 * tens + ones;
    DateRangeOf(digits, "d", "");
    assert t == digits + "d" + "";
  }

  /** The four ranges of the selector: the last day shows every point, the
      last week is grouped by hour, 30 and 90 days by day. */
  lemma SelectorGroupings()
    ensures ParseDateRange("1d") == 1 && GroupingFor(ParseDateRange("1d")) == NoGrouping
    ensures ParseDateRange("7d") == 7 && GroupingFor(ParseDateRange("7d")) == ByHour
    ensures ParseDateRange("30d") == 30 && GroupingFor(ParseDateRange("30d")) == ByDay
    ensures ParseDateRange("90d") == 90 && GroupingFor(ParseDateRange("90d")) == ByDay
  {
    DaysOfRange("1d", 0, 1);
    DaysOfRange("7d", 0, 7);
    DaysOfRange("30d", 3, 0);
    DaysOfRange("90d", 9, 0);
  }

  /** `s.slice(0, n)`. */
  function Prefix(s: string, n: nat): (p: string)
    ensures p <= s && |p| == (if |s| <= n then |s| else n)
  {
    if |s| <= n then s else s[..n]
  }

  /** The group a reading falls into: the date (`YYYY-MM-DD`) or the date
      and hour (`YYYY-MM-DDTHH`) of its ISO timestamp, or the timestamp
      itself. */
  function KeyOf(r: Reading, g: GroupBy): string
  {
    match g
    case ByDay => Prefix(r.timestamp, 10)
    case ByHour => Prefix(r.timestamp, 13)
    case NoGrouping => r.timestamp
  }

  /** Readings of the same hour group are in the same day group. */
  lemma HourGroupsRefineDayGroups(a: Reading, b: Reading)
    requires KeyOf(a, ByHour) == KeyOf(b, ByHour)
    ensures KeyOf(a, ByDay) == KeyOf(b, ByDay)
  {
    if |a.timestamp| > 10 {
      assert KeyOf(a, ByDay) == KeyOf(a, ByHour)[..10];
    }
    if |b.timestamp| > 10 {
      assert KeyOf(b, ByDay) == KeyOf(b, ByHour)[..10];
    }
  }

  /** One entry of the `groups` dictionary. */
  datatype Group = Group(key: string, items: seq<Reading>)

  /** Adds a reading to the group of its key, or opens a new group after
      the others (the dictionary keeps its keys in insertion order). */
  function AddToGroup(gs: seq<Group>, key: string, r: Reading): seq<Group>
    decreases |gs|
  {
    if gs == [] then [Group(key, [r])]
    else if gs[0].key == key then [Group(key, gs[0].items + [r])] + gs[1..]
    else [gs[0]] + AddToGroup(gs[1..], key, r)
  }

  /** The groups of the readings, in order of first appearance. */
  function GroupsOf(data: seq<Reading>, g: GroupBy): seq<Group>
  {
    if data == [] then []
    else AddToGroup(GroupsOf(data[..|data| - 1], g), KeyOf(data[|data| - 1], g), data[|data| - 1])
  }

  function KeySet(gs: seq<Group>): set<string>
  {
    set j | 0 <= j < |gs| :: gs[j].key
  }

  function KeysOf(data: seq<Reading>, g: GroupBy): set<string>
  {
    set i | 0 <= i < |data| :: KeyOf(data[i], g)
  }

  predicate DistinctKeys(gs: seq<Group>)
  {
    forall i, j :: 0 <= i < j < |gs| ==> gs[i].key != gs[j].key
  }

  function KeyIs(g: GroupBy, key: string): Reading -> bool
  {
    r => KeyOf(r, g) == key
  }

  lemma KeySetCons(gs: seq<Group>)
    requires gs != []
    ensures KeySet(gs) == {gs[0].key} + KeySet(gs[1..])
  {
    forall k | k in KeySet(gs) ensures k in {gs[0].key} + KeySet(gs[1..]) {
      var j :| 0 <= j < |gs| && gs[j].key == k;
      if j > 0 {
        assert gs[1..][j - 1].key == k;
      }
    }
    forall k | k in KeySet(gs[1..]) ensures k in KeySet(gs) {
      var j :| 0 <= j < |gs[1..]| && gs[1..][j].key == k;
      assert gs[j + 1].key == k;
    }
  }

  /** Adding a reading adds its key. */
  lemma {:induction false} AddToGroupKeySet(gs: seq<Group>, key: string, r: Reading)
    ensures KeySet(AddToGroup(gs, key, r)) == KeySet(gs) + {key}
    decreases |gs|
  {
    var out := AddToGroup(gs, key, r);
    KeySetCons(out);
    if gs == [] {
      assert KeySet(out[1..]) == {};
    } else {
      KeySetCons(gs);
      if gs[0].key == key {
        assert out[1..] == gs[1..];
      } else {
        AddToGroupKeySet(gs[1..], key, r);
        assert out[1..] == AddToGroup(gs[1..], key, r);
      }
    }
  }

  /** Adding a reading keeps the keys distinct. */
  lemma {:induction false} AddToGroupKeys(gs: seq<Group>, key: string, r: Reading)
    requires DistinctKeys(gs)
    ensures DistinctKeys(AddToGroup(gs, key, r))
    ensures KeySet(AddToGroup(gs, key, r)) == KeySet(gs) + {key}
    decreases |gs|
  {
    AddToGroupKeySet(gs, key, r);
    var out := AddToGroup(gs, key, r);
    if gs != [] {
      if gs[0].key == key {
        assert forall j :: 0 <= j < |out| ==> out[j].key == gs[j].key;
      } else {
        assert DistinctKeys(gs[1..]) by {
          forall i, j | 0 <= i < j < |gs[1..]| ensures gs[1..][i].key != gs[1..][j].key {
            assert gs[1..][i] == gs[i + 1] && gs[1..][j] == gs[j + 1];
          }
        }
        AddToGroupKeys(gs[1..], key, r);
        var rest := AddToGroup(gs[1..], key, r);
        KeySetCons(gs);
        assert out[1..] == rest;
        forall i, j | 0 <= i < j < |out| ensures out[i].key != out[j].key {
          if i == 0 {
            assert out[j].key == rest[j - 1].key;
            assert out[j].key in KeySet(rest);
          } else {
            assert out[i] == rest[i - 1] && out[j] == rest[j - 1];
          }
        }
      }
    }
  }

  /** Where the reading goes: onto the group with its key when there is
      one, else into a new group at the end. */
  lemma {:induction false} AddToGroupShape(gs: seq<Group>, key: string, r: Reading)
    requires DistinctKeys(gs)
    ensures key in KeySet(gs) ==> |AddToGroup(gs, key, r)| == |gs|
    ensures key in KeySet(gs) ==> forall j :: 0 <= j < |gs| ==>
              AddToGroup(gs, key, r)[j] == if gs[j].key == key then Group(key, gs[j].items + [r]) else gs[j]
    ensures key !in KeySet(gs) ==> AddToGroup(gs, key, r) == gs + [Group(key, [r])]
    decreases |gs|
  {
    if gs != [] {
      KeySetCons(gs);
      if gs[0].key == key {
        assert forall j :: 0 < j < |gs| ==> gs[j].key != key;
      } else {
        assert DistinctKeys(gs[1..]) by {
          forall i, j | 0 <= i < j < |gs[1..]| ensures gs[1..][i].key != gs[1..][j].key {
            assert gs[1..][i] == gs[i + 1] && gs[1..][j] == gs[j + 1];
          }
        }
        AddToGroupShape(gs[1..], key, r);
        var rest := AddToGroup(gs[1..], key, r);
        var out := AddToGroup(gs, key, r);
        assert out == [gs[0]] + rest;
        if key !in KeySet(gs) {
          assert [gs[0]] + (gs[1..] + [Group(key, [r])]) == gs + [Group(key, [r])];
        } else {
          forall j | 0 <= j < |gs|
            ensures out[j] == if gs[j].key == key then Group(key, gs[j].items + [r]) else gs[j]
          {
            if j > 0 {
              assert out[j] == rest[j - 1] && gs[j] == gs[1..][j - 1];
            }
          }
        }
      }
    }
  }

  lemma KeysOfStep(data: seq<Reading>, g: GroupBy)
    requires data != []
    ensures KeysOf(data, g) == KeysOf(data[..|data| - 1], g) + {KeyOf(data[|data| - 1], g)}
  {
    var init := data[..|data| - 1];
    forall k | k in KeysOf(data, g) ensures k in KeysOf(init, g) + {KeyOf(data[|data| - 1], g)} {
      var i :| 0 <= i < |data| && KeyOf(data[i], g) == k;
      if i < |data| - 1 {
        assert init[i] == data[i];
      }
    }
    forall k | k in KeysOf(init, g) ensures k in KeysOf(data, g) {
      var i :| 0 <= i < |init| && KeyOf(init[i], g) == k;
      assert data[i] == init[i];
    }
  }

  /** One group per distinct key of the readings. */
  lemma {:induction false} GroupsOfKeys(data: seq<Reading>, g: GroupBy)
    ensures DistinctKeys(GroupsOf(data, g))
    ensures KeySet(GroupsOf(data, g)) == KeysOf(data, g)
    ensures |GroupsOf(data, g)| == |KeysOf(data, g)|
  {
    if data != [] {
      var init := data[..|data| - 1];
      var key := KeyOf(data[|data| - 1], g);
      GroupsOfKeys(init, g);
      var gs := GroupsOf(init, g);
      assert GroupsOf(data, g) == AddToGroup(gs, key, data[|data| - 1]);
      AddToGroupKeys(gs, key, data[|data| - 1]);
      AddToGroupShape(gs, key, data[|data| - 1]);
      KeysOfStep(data, g);
      if key in KeysOf(init, g) {
        assert KeysOf(data, g) == KeysOf(init, g);
      } else {
        assert |KeysOf(data, g)| == |KeysOf(init, g)| + 1;
      }
    } else {
      assert KeySet([]) == {};
    }
  }

  /** The groups partition the readings: each holds exactly the readings
      with its key, in their original order. */
  lemma {:induction false} GroupsOfItems(data: seq<Reading>, g: GroupBy)
    ensures forall j :: 0 <= j < |GroupsOf(data, g)| ==>
              GroupsOf(data, g)[j].items == Filter(data, KeyIs(g, GroupsOf(data, g)[j].key))
  {
    if data != [] {
      var init := data[..|data| - 1];
      var x := data[|data| - 1];
      var key := KeyOf(x, g);
      GroupsOfItems(init, g);
      GroupsOfKeys(init, g);
      var gs := GroupsOf(init, g);
      AddToGroupShape(gs, key, x);
      var out := GroupsOf(data, g);
      forall j | 0 <= j < |out| ensures out[j].items == Filter(data, KeyIs(g, out[j].key)) {
        assert KeyIs(g, out[j].key)(x) == (key == out[j].key);
        if j < |gs| {
          assert Filter(init, KeyIs(g, gs[j].key)) == gs[j].items;
          if key in KeySet(gs) {
            assert out[j].key == gs[j].key;
          }
        } else {
          assert key !in KeysOf(init, g) && out[j] == Group(key, [x]);
          forall i | 0 <= i < |init| ensures !KeyIs(g, key)(init[i]) {
            assert KeyOf(init[i], g) in KeysOf(init, g);
          }
          FilterNone(init, KeyIs(g, key));
        }
      }
    }
  }

  /** The `groups` dictionary read out in key order. */
  function Assemble(order: seq<string>, table: map<string, seq<Reading>>): (gs: seq<Group>)
    requires forall j :: 0 <= j < |order| ==> order[j] in table
    ensures |gs| == |order|
  {
    seq(|order|, j requires 0 <= j < |order| => Group(order[j], table[order[j]]))
  }

  /** The loop's view of the dictionary: its keys in insertion order, each
      with a list, read out as the groups `gs`. */
  predicate TableHolds(order: seq<string>, table: map<string, seq<Reading>>, gs: seq<Group>)
  {
    (forall j :: 0 <= j < |order| ==> order[j] in table)
    && Assemble(order, table) == gs && table.Keys == KeySet(gs) && DistinctKeys(gs)
  }

  lemma AssembleSnoc(order: seq<string>, table: map<string, seq<Reading>>, key: string, v: seq<Reading>)
    requires forall j :: 0 <= j < |order| ==> order[j] in table
    requires key !in table
    ensures forall j :: 0 <= j < |order + [key]| ==> (order + [key])[j] in table[key := v]
    ensures Assemble(order + [key], table[key := v]) == Assemble(order, table) + [Group(key, v)]
  {
    var o := order + [key];
    var t := table[key := v];
    forall j | 0 <= j < |order| ensures o[j] == order[j] && t[order[j]] == table[order[j]] {
    }
    assert o[|order|] == key;
  }

  lemma AssembleUpdate(order: seq<string>, table: map<string, seq<Reading>>, key: string, v: seq<Reading>)
    requires forall j :: 0 <= j < |order| ==> order[j] in table
    requires key in table
    ensures forall j :: 0 <= j < |order| ==> order[j] in table[key := v]
    ensures forall j :: 0 <= j < |order| ==>
              Assemble(order, table[key := v])[j] == if order[j] == key then Group(key, v) else Assemble(order, table)[j]
  {
  }

  lemma TableAssembles(order: seq<string>, table: map<string, seq<Reading>>, gs: seq<Group>)
    requires TableHolds(order, table, gs)
    ensures forall j :: 0 <= j < |order| ==> order[j] in table
    ensures Assemble(order, table) == gs
  {
  }

  lemma EmptyTableHolds()
    ensures TableHolds([], map[], [])
  {
    assert KeySet([]) == {};
  }

  /** Pushing onto an existing list is adding to its group. */
  lemma PushStep(order: seq<string>, table: map<string, seq<Reading>>, gs: seq<Group>, key: string, x: Reading)
    requires TableHolds(order, table, gs) && key in table
    ensures TableHolds(order, table[key := table[key] + [x]], AddToGroup(gs, key, x))
  {
    PushAssembles(order, table, gs, key, x);
    AddToGroupKeys(gs, key, x);
    assert table[key := table[key] + [x]].Keys == table.Keys;
  }

  lemma PushAssembles(order: seq<string>, table: map<string, seq<Reading>>, gs: seq<Group>, key: string, x: Reading)
    requires TableHolds(order, table, gs) && key in table
    ensures forall j :: 0 <= j < |order| ==> order[j] in table[key := table[key] + [x]]
    ensures Assemble(order, table[key := table[key] + [x]]) == AddToGroup(gs, key, x)
  {
    assert key in KeySet(gs);
    AddToGroupShape(gs, key, x);
    AssembleUpdate(order, table, key, table[key] + [x]);
    var t := table[key := table[key] + [x]];
    var out := AddToGroup(gs, key, x);
    assert |Assemble(order, t)| == |out|;
    forall j | 0 <= j < |order| ensures Assemble(order, t)[j] == out[j] {
      assert gs[j] == Group(order[j], table[order[j]]);
      if order[j] == key {
        assert Assemble(order, t)[j] == Group(key, table[key] + [x]);
      } else {
        assert Assemble(order, t)[j] == gs[j];
      }
    }
  }

  /** Opening a list for a new key and pushing onto it is opening a new
      group at the end. */
  lemma OpenStep(order: seq<string>, table: map<string, seq<Reading>>, gs: seq<Group>, key: string, x: Reading)
    requires TableHolds(order, table, gs) && key !in table
    ensures var t := table[key := []];
            TableHolds(order + [key], t[key := t[key] + [x]], AddToGroup(gs, key, x))
  {
    var t0 := table[key := []];
    var t := t0[key := t0[key] + [x]];
    assert t0[key] + [x] == [x];
    assert t == table[key := [x]];
    OpenAssembles(order, table, gs, key, x);
    AddToGroupKeys(gs, key, x);
  }

  lemma OpenAssembles(order: seq<string>, table: map<string, seq<Reading>>, gs: seq<Group>, key: string, x: Reading)
    requires TableHolds(order, table, gs) && key !in table
    ensures forall j :: 0 <= j < |order + [key]| ==> (order + [key])[j] in table[key := [x]]
    ensures Assemble(order + [key], table[key := [x]]) == AddToGroup(gs, key, x)
  {
    assert key !in KeySet(gs);
    AddToGroupShape(gs, key, x);
    AssembleSnoc(order, table, key, [x]);
  }

  lemma GroupsStep(data: seq<Reading>, g: GroupBy, i: nat)
    requires i < |data|
    ensures GroupsOf(data[..i + 1], g) == AddToGroup(GroupsOf(data[..i], g), KeyOf(data[i], g), data[i])
  {
    assert data[..i + 1][..i] == data[..i];
  }

  /** `aggregateData` without the averages: every reading is pushed onto
      the list of its key, a new key opening a new list. */
  method AggregateData(data: seq<Reading>, g: GroupBy) returns (groups: seq<Group>)
    ensures groups == GroupsOf(data, g)
  {
    var table: map<string, seq<Reading>> := map[];
    var order: seq<string> := [];
    var i := 0;
    EmptyTableHolds();
    assert data[..0] == [];
    while i < |data|
      invariant 0 <= i <= |data|
      invariant TableHolds(order, table, GroupsOf(data[..i], g))
    {
      var key := KeyOf(data[i], g);
      ghost var gs := GroupsOf(data[..i], g);
      GroupsStep(data, g, i);
      if key !in table {
        OpenStep(order, table, gs, key, data[i]);
        table := table[key := []];
        order := order + [key];
      } else {
        PushStep(order, table, gs, key, data[i]);
      }
      table := table[key := table[key] + [data[i]]];
      i := i + 1;
    }
    TableAssembles(order, table, GroupsOf(data[..i], g));
    groups := Assemble(order, table);
    assert data[..i] == data;
  }

  // -------------------------------------------------------------- alerts

  datatype Alert = PhAlert(ph: int) | WaterLevelAlert(level: int)

  /** `ph < min || ph > max`; a missing value compares false both ways. */
  predicate PhOutOfRange(ph: Option<int>)
  {
    ph.Some? && (ph.value < PhMin || ph.value > PhMax)
  }

  predicate WaterLevelLow(level: Option<int>)
  {
    level.Some? && level.value < WaterLevelMin
  }

  /** `checkAlerts` (the same checks `updateData` makes): a pH alert, then
      a water-level alert. */
  function CheckAlerts(r: Reading): (alerts: seq<Alert>)
    ensures |alerts| <= 2
    ensures PhOutOfRange(r.ph) ==> PhAlert(r.ph.value) in alerts
    ensures WaterLevelLow(r.waterLevel) ==> WaterLevelAlert(r.waterLevel.value) in alerts
    ensures forall a :: a in alerts ==>
              (a.PhAlert? && PhOutOfRange(r.ph) && a.ph == r.ph.value)
              || (a.WaterLevelAlert? && WaterLevelLow(r.waterLevel) && a.level == r.waterLevel.value)
    ensures PhOutOfRange(r.ph) ==> alerts[0] == PhAlert(r.ph.value)
  {
    (if PhOutOfRange(r.ph) then [PhAlert(r.ph.value)] else [])
    + (if WaterLevelLow(r.waterLevel) then [WaterLevelAlert(r.waterLevel.value)] else [])
  }

  /** The alert the snackbar ends up showing: the last one raised. */
  function ShownAlert(r: Reading): (shown: Option<Alert>)
    ensures shown.None? <==> CheckAlerts(r) == []
    ensures WaterLevelLow(r.waterLevel) ==> shown == Some(WaterLevelAlert(r.waterLevel.value))
    ensures !WaterLevelLow(r.waterLevel) && PhOutOfRange(r.ph) ==> shown == Some(PhAlert(r.ph.value))
  {
    var alerts := CheckAlerts(r);
    if alerts == [] then None else Some(alerts[|alerts| - 1])
  }

  // ------------------------------------------------------------- history

  /** `s.slice(-n)` for `n >= 1`: the newest `n` entries. */
  function Newest(s: seq<Reading>, n: nat): seq<Reading>
    requires n >= 1
  {
    if |s| <= n then s else s[|s| - n..]
  }

  /** Appending a reading and keeping the newest `n` entries: the new
      reading is the last one, at most `n` remain, they are the newest
      ones in order, and nothing is dropped while there is room. */
  lemma AppendKeepsNewest(s: seq<Reading>, x: Reading, n: nat)
    requires n >= 1
    ensures var h := Newest(s + [x], n);
            |h| == (if |s| < n then |s| + 1 else n) && h[|h| - 1] == x
            && (|s| < n ==> h == s + [x])
            && (|s| >= n ==> h == s[|s| - n + 1..] + [x])
  {
    if |s| >= n {
      assert (s + [x])[|s| + 1 - n..] == s[|s| - n + 1..] + [x];
    }
  }

  /** The previous entry's value, `undefined` for an empty history. */
  function LastWaterLevel(history: seq<Reading>): Option<int>
  {
    if history == [] then None else history[|history| - 1].waterLevel
  }

  function LastPh(history: seq<Reading>): Option<int>
  {
    if history == [] then None else history[|history| - 1].ph
  }

  function LastTds(history: seq<Reading>): Option<int>
  {
    if history == [] then None else history[|history| - 1].tds
  }

  // ------------------------------------------------------- notifications

  /** The last notified values and times; `None` stands for `null`. */
  datatype Notified = Notified(ph: Option<int>, phTime: Option<string>, waterLevel: Option<int>, waterLevelTime: Option<string>)

  const NothingNotified := Notified(None, None, None, None)

  /** The pH notification fires for an out-of-range value whose value or
      timestamp differs from the last one notified. */
  predicate PhNotifies(latest: Reading, n: Notified)
  {
    PhOutOfRange(latest.ph) && (latest.ph != n.ph || Some(latest.timestamp) != n.phTime)
  }

  predicate WaterLevelNotifies(latest: Reading, n: Notified)
  {
    WaterLevelLow(latest.waterLevel) && (latest.waterLevel != n.waterLevel || Some(latest.timestamp) != n.waterLevelTime)
  }

  /** The notifications the effect posts for the latest reading, and what
      it remembers afterwards. */
  function NotifyStep(latest: Reading, n: Notified): (Notified, seq<Alert>)
  {
    var afterPh := if PhNotifies(latest, n) then n.(ph := latest.ph, phTime := Some(latest.timestamp)) else n;
    var after := if WaterLevelNotifies(latest, n)
                 then afterPh.(waterLevel := latest.waterLevel, waterLevelTime := Some(latest.timestamp))
                 else afterPh;
    (after,
     (if PhNotifies(latest, n) then [PhAlert(latest.ph.value)] else [])
     + (if WaterLevelNotifies(latest, n) then [WaterLevelAlert(latest.waterLevel.value)] else []))
  }

  /** A notification is posted exactly when its reading is out of range
      and new, and posted notifications are a subset of the alerts. */
  lemma NotifyFiresIff(latest: Reading, n: Notified)
    ensures PhOutOfRange(latest.ph) && (latest.ph != n.ph || Some(latest.timestamp) != n.phTime) ==>
              PhAlert(latest.ph.value) in NotifyStep(latest, n).1
    ensures WaterLevelLow(latest.waterLevel) && (latest.waterLevel != n.waterLevel || Some(latest.timestamp) != n.waterLevelTime) ==>
              WaterLevelAlert(latest.waterLevel.value) in NotifyStep(latest, n).1
    ensures forall a :: a in NotifyStep(latest, n).1 ==>
              (a.PhAlert? && PhOutOfRange(latest.ph) && (latest.ph != n.ph || Some(latest.timestamp) != n.phTime))
              || (a.WaterLevelAlert? && WaterLevelLow(latest.waterLevel)
                  && (latest.waterLevel != n.waterLevel || Some(latest.timestamp) != n.waterLevelTime))
    ensures forall a :: a in NotifyStep(latest, n).1 ==> a in CheckAlerts(latest)
  {
  }

  /** Running the effect again for the same reading posts nothing. */
  lemma NotifySettles(latest: Reading, n: Notified)
    ensures NotifyStep(latest, NotifyStep(latest, n).0).1 == []
  {
  }

  /** The timestamp is part of the test: a value still out of range is
      notified again for every new timestamp, so each tick of either
      sensor, which renews the timestamp, repeats a pH notification. */
  lemma NewTimestampRenotifies(latest: Reading, n: Notified, next: Reading)
    requires PhOutOfRange(latest.ph)
    requires next.ph == latest.ph && next.timestamp != latest.timestamp
    ensures PhAlert(next.ph.value) in NotifyStep(next, NotifyStep(latest, n).0).1
  {
  }

  // ------------------------------------------------------------ the store

  /** The module-level readings kept across visits of the page (the
      persisted history and latest reading) and the last notified values. */
  class SensorStore {
    var history: seq<Reading>
    var latest: Reading
    var notified: Notified

    /** The first visit: the generated history and its last reading. */
    constructor (initial: seq<Reading>)
      requires |initial| >= 1
      ensures history == initial && latest == initial[|initial| - 1]
      ensures notified == NothingNotified
    {
      history := initial;
      latest := initial[|initial| - 1];
      notified := NothingNotified;
    }

    /** The pH interval: the new pH, TDS and time replace those of the
        latest reading, and a reading carrying the previous water level is
        appended to the history, of which the newest 1000 are kept. */
    method PhTick(reading: Reading)
      modifies this
      ensures latest == old(latest).(ph := reading.ph, tds := reading.tds, timestamp := reading.timestamp)
      ensures history == Newest(old(history) + [reading.(waterLevel := LastWaterLevel(old(history)))], MaxHistoricalDataPoints)
      ensures |history| <= MaxHistoricalDataPoints
      ensures history[|history| - 1] == reading.(waterLevel := LastWaterLevel(old(history)))
      ensures notified == old(notified)
    {
      latest := latest.(ph := reading.ph, tds := reading.tds, timestamp := reading.timestamp);
      var entry := reading.(waterLevel := LastWaterLevel(history));
      AppendKeepsNewest(history, entry, MaxHistoricalDataPoints);
      history := Newest(history + [entry], MaxHistoricalDataPoints);
    }

    /** The water-level interval: the new level and time replace those of
        the latest reading, and a reading carrying the previous pH and TDS
        is appended to the history, of which the newest 1000 are kept. */
    method WaterLevelTick(reading: Reading)
      modifies this
      ensures latest == old(latest).(waterLevel := reading.waterLevel, timestamp := reading.timestamp)
      ensures history == Newest(old(history) + [reading.(ph := LastPh(old(history)), tds := LastTds(old(history)))],
                                MaxHistoricalDataPoints)
      ensures |history| <= MaxHistoricalDataPoints
      ensures history[|history| - 1] == reading.(ph := LastPh(old(history)), tds := LastTds(old(history)))
      ensures notified == old(notified)
    {
      latest := latest.(waterLevel := reading.waterLevel, timestamp := reading.timestamp);
      var entry := reading.(ph := LastPh(history), tds := LastTds(history));
      AppendKeepsNewest(history, entry, MaxHistoricalDataPoints);
      history := Newest(history + [entry], MaxHistoricalDataPoints);
    }

    /** `updateData`: the reading becomes the latest one, is appended to
        the history, of which the newest 1000 are kept, and its alerts are
        returned. The page writes only its display state here, which the
        next tick replaces with the kept history; the store is that state. */
    method UpdateData(reading: Reading) returns (alerts: seq<Alert>)
      modifies this
      ensures latest == reading
      ensures history == Newest(old(history) + [reading], MaxHistoricalDataPoints)
      ensures |history| <= MaxHistoricalDataPoints && history[|history| - 1] == reading
      ensures alerts == CheckAlerts(reading)
      ensures notified == old(notified)
    {
      latest := reading;
      AppendKeepsNewest(history, reading, MaxHistoricalDataPoints);
      history := Newest(history + [reading], MaxHistoricalDataPoints);
      alerts := [];
      if PhOutOfRange(reading.ph) {
        alerts := alerts + [PhAlert(reading.ph.value)];
      }
      if WaterLevelLow(reading.waterLevel) {
        alerts := alerts + [WaterLevelAlert(reading.waterLevel.value)];
      }
    }

    /** The notification effect: each out-of-range value not yet notified
        for this value and time is posted and remembered, so the same
        reading is never posted twice. */
    method NotifyThresholds() returns (notes: seq<Alert>)
      modifies this
      ensures (notified, notes) == NotifyStep(latest, old(notified))
      ensures !PhNotifies(latest, notified) && !WaterLevelNotifies(latest, notified)
      ensures history == old(history) && latest == old(latest)
    {
      notes := [];
      var n := notified;
      if PhNotifies(latest, notified) {
        notes := notes + [PhAlert(latest.ph.value)];
        notified := notified.(ph := latest.ph, phTime := Some(latest.timestamp));
      }
      assert notes == if PhNotifies(latest, n) then [PhAlert(latest.ph.value)] else [];
      assert WaterLevelNotifies(latest, notified) == WaterLevelNotifies(latest, n);
      if WaterLevelNotifies(latest, notified) {
        notes := notes + [WaterLevelAlert(latest.waterLevel.value)];
        notified := notified.(waterLevel := latest.waterLevel, waterLevelTime := Some(latest.timestamp));
      }
      assert notes == (if PhNotifies(latest, n) then [PhAlert(latest.ph.value)] else [])
                      + (if WaterLevelNotifies(latest, n) then [WaterLevelAlert(latest.waterLevel.value)] else []);
      assert notified == NotifyStep(latest, n).0;
      NotifySettles(latest, n);
    }
  }

  // ------------------------------------------------------ the chart data

  /** What the charts receive before the time labels are formatted. */
  datatype ChartData = Points(readings: seq<Reading>) | Grouped(grouping: GroupBy, groups: seq<Group>)

  /** `processHistoricalData`: the readings since the start of the range,
      grouped as the range asks. `recent(days, r)` stands for the reading
      being no older than `days` days before now. */
  function ProcessHistoricalData(data: seq<Reading>, dateRange: string, recent: (int, Reading) -> bool): (c: ChartData)
    ensures GroupingFor(ParseDateRange(dateRange)) == NoGrouping <==> c.Points?
    ensures c.Grouped? ==> c.grouping == GroupingFor(ParseDateRange(dateRange)) && DistinctKeys(c.groups)
  {
    var days := ParseDateRange(dateRange);
    var filtered := Filter(data, (r: Reading) => recent(days, r));
    var g := GroupingFor(days);
    if g == NoGrouping then Points(filtered)
    else
      GroupsOfKeys(filtered, g);
      Grouped(g, GroupsOf(filtered, g))
  }
}
