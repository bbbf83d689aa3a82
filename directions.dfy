/**
 * The tariff directions page: the month the page shows (its length, its date keys
 * and the date range it asks the server for) and the month x 24-hour grid of
 * directions it builds from the tariff records, including the all-"NONE" grid it
 * falls back to when the server reports that there are no base tariffs.
 */
module Directions {
  import opened Optional
  import opened Seqs
  import opened Text

  // ---------------------------------------------------------------------------
  // The month
  // ---------------------------------------------------------------------------

  /** The year a `Date` constructor takes `year` for: years 0 to 99 mean 1900 to 1999. */
  function FullYear(year: nat): (y: nat)
    ensures year >= 100 ==> y == year
    ensures year < 100 ==> y == 1900 + year
  {
    if year <= 99 then 1900 + year else year
  }

  /** The Gregorian rule: every fourth year, except centuries not divisible by 400. */
  predicate IsLeapYear(y: nat) {
    y % 4 == 0 && (y % 100 != 0 || y % 400 == 0)
  }

  /**
   * `new Date(year, month + 1, 0).getDate()`: day 0 of the next month is the last
   * day of the 0-based month `month`, so this is that month's length.
   */
  function DaysInMonth(year: nat, month: nat): (days: nat)
    requires month < 12
    ensures 28 <= days <= 31
    ensures month == 1 ==> (days == 29 <==> IsLeapYear(FullYear(year)))
    ensures month != 1 ==> (days == 30 <==> month in {3, 5, 8, 10})
  {
    if month == 1 then (if IsLeapYear(FullYear(year)) then 29 else 28)
    else if month == 3 || month == 5 || month == 8 || month == 10 then 30
    else 31
  }

  function SumDays(year: nat, months: nat): nat
    requires months <= 12
  {
    if months == 0 then 0 else SumDays(year, months - 1) + DaysInMonth(year, months - 1)
  }

  /** The twelve months add up to the length of the Gregorian year. */
  lemma YearLength(year: nat)
    ensures SumDays(year, 12) == if IsLeapYear(FullYear(year)) then 366 else 365
  {
    var feb := DaysInMonth(year, 1);
    assert SumDays(year, 1) == 31;
    assert SumDays(year, 2) == 31 + feb;
    assert SumDays(year, 3) == 62 + feb;
    assert SumDays(year, 4) == 92 + feb;
    assert SumDays(year, 5) == 123 + feb;
    assert SumDays(year, 6) == 153 + feb;
    assert SumDays(year, 7) == 184 + feb;
    assert SumDays(year, 8) == 215 + feb;
    assert SumDays(year, 9) == 245 + feb;
    assert SumDays(year, 10) == 276 + feb;
    assert SumDays(year, 11) == 306 + feb;
  }

  /** `${year}-${String(month + 1).padStart(2, '0')}-${String(day).padStart(2, '0')}`. */
  function DateKey(year: nat, month: nat, day: nat): string {
    NatToString(year) + "-" + Pad2(month + 1) + "-" + Pad2(day)
  }

  /** The key of a day ends with its two-digit day, after a prefix that depends on the month only. */
  lemma DateKeySuffix(year: nat, month: nat, day: nat)
    requires day < 100
    ensures var prefix := NatToString(year) + "-" + Pad2(month + 1) + "-";
            DateKey(year, month, day) == prefix + Pad2(day) && |Pad2(day)| == 2
  {
  }

  /** Distinct days of one month have distinct keys. */
  lemma DateKeyInjective(year: nat, month: nat, d1: nat, d2: nat)
    requires d1 < 100 && d2 < 100
    ensures DateKey(year, month, d1) == DateKey(year, month, d2) <==> d1 == d2
  {
    if DateKey(year, month, d1) == DateKey(year, month, d2) {
      var prefix := NatToString(year) + "-" + Pad2(month + 1) + "-";
      DateKeySuffix(year, month, d1);
      DateKeySuffix(year, month, d2);
      assert (prefix + Pad2(d1))[|prefix|..] == Pad2(d1);
      assert (prefix + Pad2(d2))[|prefix|..] == Pad2(d2);
      Pad2Injective(d1, d2);
    }
  }

  /** A date key has no time part, so `split('T')[0]` gives it back. */
  lemma DatePartOfDateKey(year: nat, month: nat, day: nat)
    ensures DatePart(DateKey(year, month, day)) == DateKey(year, month, day)
  {
    DigitsHaveNo(NatToString(year), 'T');
    DigitsHaveNo(Pad2(month + 1), 'T');
    DigitsHaveNo(Pad2(day), 'T');
    var k := DateKey(year, month, day);
    assert 'T' !in k;
  }

  /** The keys of the month's days 1 to `DaysInMonth`, in order. */
  function MonthKeys(year: nat, month: nat): (keys: seq<string>)
    requires month < 12
    ensures |keys| == DaysInMonth(year, month)
    ensures forall i :: 0 <= i < |keys| ==> keys[i] == DateKey(year, month, i + 1)
  {
    seq(DaysInMonth(year, month), i requires 0 <= i => DateKey(year, month, i + 1))
  }

  lemma MonthKeysDistinct(year: nat, month: nat)
    requires month < 12
    ensures Distinct(MonthKeys(year, month))
  {
    var keys := MonthKeys(year, month);
    forall i, j | 0 <= i < j < |keys| ensures keys[i] != keys[j] {
      DateKeyInjective(year, month, i + 1, j + 1);
    }
  }

  /** The `start_date` of the tariff query: day 01 of the month. */
  function StartDate(year: nat, month: nat): string {
    NatToString(year) + "-" + Pad2(month + 1) + "-01"
  }

  /** The `end_date` of the tariff query: the month's length, unpadded. */
  function EndDate(year: nat, month: nat): string
    requires month < 12
  {
    NatToString(year) + "-" + Pad2(month + 1) + "-" + NatToString(DaysInMonth(year, month))
  }

  /** The query asks for exactly the days the grid has: from its first key to its last. */
  lemma QueryRange(year: nat, month: nat)
    requires month < 12
    ensures var keys := MonthKeys(year, month);
            StartDate(year, month) == keys[0] && EndDate(year, month) == keys[|keys| - 1]
  {
    assert Pad2(1) == "01";
  }

  // ---------------------------------------------------------------------------
  // The grid as a value
  // ---------------------------------------------------------------------------

  const None_: string := "NONE"
  const HoursPerDay: nat := 24

  /** A tariff record: its date (possibly with a time part), its 1-based hour and its direction. */
  datatype Tariff = Tariff(date: string, hour: int, direction: string)

  /** One element of `tableData`: `{[date]: hours}`. */
  datatype DayEntry = DayEntry(date: string, hours: seq<string>)

  /** Every day has 24 slots. */
  predicate FullDays(table: seq<DayEntry>) {
    forall i :: 0 <= i < |table| ==> |table[i].hours| == HoursPerDay
  }

  /** Every tariff names an hour from 1 to 24. */
  predicate HoursInRange(tariffs: seq<Tariff>) {
    forall k :: 0 <= k < |tariffs| ==> 1 <= tariffs[k].hour <= HoursPerDay
  }

  /** The index of the first day whose key is `date`. */
  function FindDay(table: seq<DayEntry>, date: string): (r: Option<nat>)
    ensures r.None? <==> forall i :: 0 <= i < |table| ==> table[i].date != date
    ensures r.Some? ==> r.value < |table| && table[r.value].date == date
                        && forall i :: 0 <= i < r.value ==> table[i].date != date
    decreases |table|
  {
    if table == [] then None
    else if table[0].date == date then Some(0)
    else
      var r := FindDay(table[1..], date);
      if r.None? then None else Some(r.value + 1)
  }

  /** The table `generateTableData` starts from: every day of the month, every slot "NONE". */
  function BlankTable(year: nat, month: nat): (table: seq<DayEntry>)
    requires month < 12
    ensures |table| == DaysInMonth(year, month) && FullDays(table)
  {
    var keys := MonthKeys(year, month);
    seq(|keys|, i requires 0 <= i < |keys| => DayEntry(keys[i], seq(HoursPerDay, j => None_)))
  }

  /** `if (dateToHoursMap[date]) dateToHoursMap[date][hour - 1] = direction`, with `date` the part before 'T'. */
  function ApplyTariff(table: seq<DayEntry>, t: Tariff): (r: seq<DayEntry>)
    requires FullDays(table) && 1 <= t.hour <= HoursPerDay
    ensures |r| == |table| && FullDays(r)
    ensures forall i :: 0 <= i < |table| ==> r[i].date == table[i].date
  {
    var i := FindDay(table, DatePart(t.date));
    if i.None? then table
    else table[i.value := DayEntry(table[i.value].date, table[i.value].hours[t.hour - 1 := t.direction])]
  }

  function ApplyTariffs(table: seq<DayEntry>, tariffs: seq<Tariff>): (r: seq<DayEntry>)
    requires FullDays(table) && HoursInRange(tariffs)
    ensures |r| == |table| && FullDays(r)
    ensures forall i :: 0 <= i < |table| ==> r[i].date == table[i].date
    decreases |tariffs|
  {
    if tariffs == [] then table
    else ApplyTariff(ApplyTariffs(table, tariffs[..|tariffs| - 1]), tariffs[|tariffs| - 1])
  }

  /** `tableData` after `generateTableData(tariffs)`. */
  function TableData(year: nat, month: nat, tariffs: seq<Tariff>): (table: seq<DayEntry>)
    requires month < 12 && HoursInRange(tariffs)
    ensures |table| == DaysInMonth(year, month) && FullDays(table)
    ensures forall i :: 0 <= i < |table| ==> table[i].date == DateKey(year, month, i + 1)
  {
    ApplyTariffs(BlankTable(year, month), tariffs)
  }

  // ---------------------------------------------------------------------------
  // What the grid holds
  // ---------------------------------------------------------------------------

  /** The tariff is for the slot `hour` of `date`. */
  predicate IsFor(t: Tariff, date: string, hour: int) {
    DatePart(t.date) == date && t.hour == hour
  }

  /** The index of the last tariff for `date` (before any 'T') and `hour`, if there is one. */
  function LastTariff(tariffs: seq<Tariff>, date: string, hour: int): (r: Option<nat>)
    ensures r.None? <==> forall k :: 0 <= k < |tariffs| ==> !IsFor(tariffs[k], date, hour)
    ensures r.Some? ==> r.value < |tariffs| && IsFor(tariffs[r.value], date, hour)
                        && forall l :: r.value < l < |tariffs| ==> !IsFor(tariffs[l], date, hour)
    decreases |tariffs|
  {
    if tariffs == [] then None
    else if IsFor(tariffs[|tariffs| - 1], date, hour) then Some(|tariffs| - 1)
    else
      var init := tariffs[..|tariffs| - 1];
      assert forall k :: 0 <= k < |init| ==> init[k] == tariffs[k];
      LastTariff(init, date, hour)
  }

  /** The direction the last tariff for the slot sets, or `fallback` when no tariff is for it. */
  function LastDirection(tariffs: seq<Tariff>, date: string, hour: int, fallback: string): string {
    var k := LastTariff(tariffs, date, hour);
    if k.Some? then tariffs[k.value].direction else fallback
  }

  /** Over a table with distinct keys, each slot holds the direction of the last tariff for it, or what it held before. */
  lemma {:induction false} SlotAfterTariffs(table: seq<DayEntry>, tariffs: seq<Tariff>, i: nat, j: nat)
    requires FullDays(table) && HoursInRange(tariffs)
    requires forall a, b :: 0 <= a < b < |table| ==> table[a].date != table[b].date
    requires i < |table| && j < HoursPerDay
    ensures ApplyTariffs(table, tariffs)[i].hours[j] == LastDirection(tariffs, table[i].date, j + 1, table[i].hours[j])
    decreases |tariffs|
  {
    if tariffs != [] {
      var init := tariffs[..|tariffs| - 1];
      var t := tariffs[|tariffs| - 1];
      assert HoursInRange(init);
      SlotAfterTariffs(table, init, i, j);
      var before := ApplyTariffs(table, init);
      var d := FindDay(before, DatePart(t.date));
      if d.Some? && d.value == i {
        assert IsFor(t, table[i].date, t.hour);
      } else if d.Some? {
        assert before[d.value].date == table[d.value].date;
      }
    }
  }

  /** Each slot of `tableData` holds the direction of the last tariff for its day and hour, or "NONE". */
  lemma TableDataSlot(year: nat, month: nat, tariffs: seq<Tariff>, i: nat, j: nat)
    requires month < 12 && HoursInRange(tariffs)
    requires i < DaysInMonth(year, month) && j < HoursPerDay
    ensures TableData(year, month, tariffs)[i].hours[j] == LastDirection(tariffs, DateKey(year, month, i + 1), j + 1, None_)
  {
    var blank := BlankTable(year, month);
    MonthKeysDistinct(year, month);
    assert forall a, b :: 0 <= a < b < |blank| ==> blank[a].date != blank[b].date by {
      forall a, b | 0 <= a < b < |blank| ensures blank[a].date != blank[b].date {
        assert blank[a].date == MonthKeys(year, month)[a];
        assert blank[b].date == MonthKeys(year, month)[b];
      }
    }
    SlotAfterTariffs(blank, tariffs, i, j);
  }

  /** A tariff dated outside the month changes nothing. */
  lemma OutsideMonthIgnored(year: nat, month: nat, tariffs: seq<Tariff>, t: Tariff)
    requires month < 12 && HoursInRange(tariffs) && 1 <= t.hour <= HoursPerDay
    requires forall d :: 1 <= d <= DaysInMonth(year, month) ==> DatePart(t.date) != DateKey(year, month, d)
    ensures TableData(year, month, tariffs + [t]) == TableData(year, month, tariffs)
  {
    var ts := tariffs + [t];
    assert ts[..|ts| - 1] == tariffs;
    var before := TableData(year, month, tariffs);
    forall i | 0 <= i < |before| ensures before[i].date != DatePart(t.date) {
      assert before[i].date == DateKey(year, month, i + 1);
    }
  }

  // ---------------------------------------------------------------------------
  // The fallback when there are no base tariffs
  // ---------------------------------------------------------------------------

  /** The placeholder records of the "No BaseTariffs found" path: every day, hours 1 to 24, direction "NONE". */
  function PlaceholderTariffs(year: nat, month: nat): (ts: seq<Tariff>)
    requires month < 12
    ensures |ts| == DaysInMonth(year, month) * 24 && HoursInRange(ts)
    ensures forall k :: 0 <= k < |ts| ==> ts[k] == Tariff(DateKey(year, month, k / 24 + 1), k % 24 + 1, None_)
  {
    seq(DaysInMonth(year, month) * 24,
        k requires 0 <= k => Tariff(DateKey(year, month, k / 24 + 1), k % 24 + 1, None_))
  }

  /** Every slot is "NONE". */
  predicate AllNone(table: seq<DayEntry>) {
    forall i, j :: 0 <= i < |table| && 0 <= j < |table[i].hours| ==> table[i].hours[j] == None_
  }

  /** Writing "NONE" into an all-"NONE" table leaves it as it is. */
  lemma {:induction false} NoneTariffsKeep(table: seq<DayEntry>, tariffs: seq<Tariff>)
    requires FullDays(table) && HoursInRange(tariffs) && AllNone(table)
    requires forall k :: 0 <= k < |tariffs| ==> tariffs[k].direction == None_
    ensures ApplyTariffs(table, tariffs) == table
    decreases |tariffs|
  {
    if tariffs != [] {
      var init := tariffs[..|tariffs| - 1];
      var t := tariffs[|tariffs| - 1];
      assert HoursInRange(init);
      NoneTariffsKeep(table, init);
      var d := FindDay(table, DatePart(t.date));
      if d.Some? {
        assert table[d.value].hours[t.hour - 1 := t.direction] == table[d.value].hours;
      }
    }
  }

  /** The placeholders set every slot to "NONE", so the fallback grid is the blank month. */
  lemma PlaceholderGridIsBlank(year: nat, month: nat)
    requires month < 12
    ensures TableData(year, month, PlaceholderTariffs(year, month)) == BlankTable(year, month)
  {
    NoneTariffsKeep(BlankTable(year, month), PlaceholderTariffs(year, month));
  }
  // ---------------------------------------------------------------------------
  // The grid in place
  // ---------------------------------------------------------------------------

  /** The day keys of the month, built one day at a time. */
  method MonthKeyList(year: nat, month: nat) returns (keys: seq<string>)
    requires month < 12
    ensures keys == MonthKeys(year, month)
  {
    var days := DaysInMonth(year, month);
    keys := [];
    var day := 1;
    while day <= days
      invariant 1 <= day <= days + 1
      invariant keys == MonthKeys(year, month)[..day - 1]
    {
      assert MonthKeys(year, month)[..day] == MonthKeys(year, month)[..day - 1] + [DateKey(year, month, day)];
      keys := keys + [DateKey(year, month, day)];
      day := day + 1;
    }
    assert MonthKeys(year, month)[..days] == MonthKeys(year, month);
  }

  /**
   * `dateToHoursMap`: the month's date keys in insertion order and, under each, its
   * array of 24 directions. `tableData` lists the same keys with the same arrays, so
   * the grid stands for both.
   */
  class DirectionGrid {
    const dates: seq<string>
    const slots: array2<string>

    predicate Valid() {
      slots.Length0 == |dates| && slots.Length1 == HoursPerDay
    }

    /** The grid as the list of `{[date]: hours}` entries it is shown from. */
    function Table(): (table: seq<DayEntry>)
      reads slots
      requires Valid()
      ensures |table| == |dates| && FullDays(table)
      ensures forall i :: 0 <= i < |dates| ==> table[i].date == dates[i]
    {
      seq(|dates|, i requires 0 <= i < |dates| reads slots =>
        DayEntry(dates[i], seq(HoursPerDay, j requires 0 <= j < HoursPerDay reads slots => slots[i, j])))
    }

    /** A grid over the month's keys whose every slot is "NONE" is the blank month. */
    lemma BlankGrid(year: nat, month: nat)
      requires month < 12 && Valid() && dates == MonthKeys(year, month)
      requires forall i, j :: 0 <= i < |dates| && 0 <= j < HoursPerDay ==> slots[i, j] == None_
      ensures Table() == BlankTable(year, month)
    {
      var blank := BlankTable(year, month);
      forall i | 0 <= i < |dates| ensures Table()[i] == blank[i] {
        assert Table()[i].date == blank[i].date;
        forall j | 0 <= j < HoursPerDay ensures Table()[i].hours[j] == blank[i].hours[j] {
          assert slots[i, j] == None_;
        }
      }
    }

    /** The initialisation loop of `generateTableData`: every day of the month with 24 "NONE" slots. */
    constructor (year: nat, month: nat)
      requires month < 12
      ensures Valid() && fresh(slots)
      ensures Table() == BlankTable(year, month)
    {
      var keys := MonthKeyList(year, month);
      dates := keys;
      slots := new string[|keys|, HoursPerDay]((i, j) => None_);
      new;
      BlankGrid(year, month);
    }

    /** `hours[j] = v` on the array of the `i`-th day. */
    method Put(i: nat, j: nat, v: string)
      requires Valid() && i < |dates| && j < HoursPerDay
      modifies slots
      ensures Table() == old(Table())[i := DayEntry(dates[i], old(Table())[i].hours[j := v])]
    {
      slots[i, j] := v;
      ghost var before := old(Table());
      ghost var after := before[i := DayEntry(dates[i], before[i].hours[j := v])];
      assert forall a :: 0 <= a < |dates| ==> Table()[a].hours == after[a].hours;
    }

    /** One step of the `tariffsData.forEach` loop: a tariff dated in the month sets its slot. */
    method StoreTariff(t: Tariff)
      requires Valid() && 1 <= t.hour <= HoursPerDay
      modifies slots
      ensures Table() == ApplyTariff(old(Table()), t)
    {
      var day := FindDay(Table(), DatePart(t.date));
      if day.Some? {
        Put(day.value, t.hour - 1, t.direction);
      }
    }

    /** The `tariffsData.forEach` loop: each tariff dated in the month sets its slot. */
    method StoreTariffs(tariffs: seq<Tariff>)
      requires Valid() && HoursInRange(tariffs)
      modifies slots
      ensures Table() == ApplyTariffs(old(Table()), tariffs)
    {
      var k := 0;
      while k < |tariffs|
        invariant 0 <= k <= |tariffs|
        invariant Table() == ApplyTariffs(old(Table()), tariffs[..k])
      {
        assert tariffs[..k + 1][..k] == tariffs[..k];
        ghost var before := Table();
        assert ApplyTariffs(old(Table()), tariffs[..k + 1]) == ApplyTariff(before, tariffs[k]);
        StoreTariff(tariffs[k]);
        k := k + 1;
      }
      assert tariffs[..k] == tariffs;
    }
  }

  /** `generateTableData(tariffsData)`: the month's grid with the tariffs stored in it. */
  method GenerateTableData(year: nat, month: nat, tariffs: seq<Tariff>) returns (grid: DirectionGrid)
    requires month < 12 && HoursInRange(tariffs)
    ensures fresh(grid.slots) && grid.Valid()
    ensures grid.Table() == TableData(year, month, tariffs)
  {
    grid := new DirectionGrid(year, month);
    grid.StoreTariffs(tariffs);
  }

  lemma PlaceholderIndex(d: nat, h: nat)
    requires h < 24
    ensures (d * 24 + h) / 24 == d && (d * 24 + h) % 24 == h
  {
  }

  /** The placeholders of one day: hours 1 to 24, direction "NONE". */
  function DayPlaceholders(year: nat, month: nat, day: nat): (ts: seq<Tariff>)
    ensures |ts| == HoursPerDay
    ensures forall h :: 0 <= h < HoursPerDay ==> ts[h] == Tariff(DateKey(year, month, day), h + 1, None_)
  {
    seq(HoursPerDay, h requires 0 <= h => Tariff(DateKey(year, month, day), h + 1, None_))
  }

  /** A prefix of `all` extended by a block that `all` holds right after it. */
  lemma PrefixExtend(all: seq<Tariff>, n: nat, block: seq<Tariff>)
    requires n + |block| <= |all|
    requires forall h :: 0 <= h < |block| ==> all[n + h] == block[h]
    ensures all[..n + |block|] == all[..n] + block
  {
    var lhs := all[..n + |block|];
    var rhs := all[..n] + block;
    forall k | 0 <= k < n + |block| ensures lhs[k] == rhs[k] {
      if k >= n {
        assert all[n + (k - n)] == block[k - n];
      }
    }
  }

  /** The placeholders of the first `d + 1` days are those of the first `d` days and then day `d + 1`'s. */
  lemma PlaceholderPrefix(year: nat, month: nat, d: nat)
    requires month < 12 && d < DaysInMonth(year, month)
    ensures var all := PlaceholderTariffs(year, month);
            (d + 1) * 24 <= |all|
            && all[..(d + 1) * 24] == all[..d * 24] + DayPlaceholders(year, month, d + 1)
  {
    var all := PlaceholderTariffs(year, month);
    var day := DayPlaceholders(year, month, d + 1);
    assert (d + 1) * 24 == d * 24 + 24;
    forall h | 0 <= h < 24 ensures all[d * 24 + h] == day[h] {
      PlaceholderAt(year, month, d, h);
    }
    PrefixExtend(all, d * 24, day);
  }

  /** Hour `h + 1` of day `d + 1` sits at `d * 24 + h`. */
  lemma PlaceholderAt(year: nat, month: nat, d: nat, h: nat)
    requires month < 12 && d < DaysInMonth(year, month) && h < 24
    ensures d * 24 + h < |PlaceholderTariffs(year, month)|
    ensures PlaceholderTariffs(year, month)[d * 24 + h] == Tariff(DateKey(year, month, d + 1), h + 1, None_)
  {
    PlaceholderIndex(d, h);
  }

  /** The inner loop: the 24 placeholders of one day pushed after `acc`. */
  method PushDay(year: nat, month: nat, day: nat, acc: seq<Tariff>) returns (r: seq<Tariff>)
    ensures r == acc + DayPlaceholders(year, month, day)
  {
    r := acc;
    var hour := 1;
    while hour <= HoursPerDay
      invariant 1 <= hour <= HoursPerDay + 1
      invariant r == acc + DayPlaceholders(year, month, day)[..hour - 1]
    {
      assert DayPlaceholders(year, month, day)[..hour] == DayPlaceholders(year, month, day)[..hour - 1] + [Tariff(DateKey(year, month, day), hour, None_)];
      r := r + [Tariff(DateKey(year, month, day), hour, None_)];
      hour := hour + 1;
    }
  }

  /** The nested loops of the "No BaseTariffs found" path. */
  method EmptyTariffs(year: nat, month: nat) returns (tariffs: seq<Tariff>)
    requires month < 12
    ensures tariffs == PlaceholderTariffs(year, month)
  {
    var days := DaysInMonth(year, month);
    ghost var all := PlaceholderTariffs(year, month);
    tariffs := [];
    var day := 1;
    while day <= days
      invariant 1 <= day <= days + 1
      invariant tariffs == all[..(day - 1) * 24]
    {
      PlaceholderPrefix(year, month, day - 1);
      tariffs := PushDay(year, month, day, tariffs);
      day := day + 1;
    }
    assert |all| == days * 24 && all[..days * 24] == all;
  }

  /** The message with which the server reports that the month has no base tariffs. */
  const NotFoundMessage: string := "No BaseTariffs found with the provided criteria."

  /** The outcome of the tariff query: the records, or a failure with the server's error text if it sent one. */
  datatype TariffResponse = Received(tariffs: seq<Tariff>) | Failed(error: Option<string>)

  /**
   * `fetchTariffs` once the query has returned: the grid of the records; on the
   * "no base tariffs" error the grid of the placeholder records; on any other error
   * the grid shown before.
   */
  method FetchTariffs(year: nat, month: nat, response: TariffResponse, current: DirectionGrid) returns (grid: DirectionGrid)
    requires month < 12
    requires response.Received? ==> HoursInRange(response.tariffs)
    ensures response.Received? ==> fresh(grid.slots) && grid.Valid() && grid.Table() == TableData(year, month, response.tariffs)
    ensures response == Failed(Some(NotFoundMessage)) ==> fresh(grid.slots) && grid.Valid() && grid.Table() == BlankTable(year, month)
    ensures response.Failed? && response.error != Some(NotFoundMessage) ==> grid == current
  {
    match response
    case Received(ts) =>
      grid := GenerateTableData(year, month, ts);
    case Failed(error) =>
      if error == Some(NotFoundMessage) {
        var placeholders := EmptyTariffs(year, month);
        grid := GenerateTableData(year, month, placeholders);
        PlaceholderGridIsBlank(year, month);
      } else {
        grid := current;
      }
  }
}
