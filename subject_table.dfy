/**
 * The user dashboard's subject table: the selected subject's hour plan sorted
 * by hour, the column sums and averages below it, the columns each subject
 * type sees, and the coloured status labels of every subject.
 */
module SubjectTable {
  import opened Optional
  import opened PlanData

  // ---------------------------------------------------------------------------
  // The hour plan, sorted by hour (`[...rows].sort((a, b) => a.hour - b.hour)`)
  // ---------------------------------------------------------------------------

  predicate SortedByHour(s: seq<HourRow>) {
    forall i, j :: 0 <= i < j < |s| ==> s[i].hour <= s[j].hour
  }

  /** The rows of s whose hour is h, in their order in s. */
  function OfHour(s: seq<HourRow>, h: int): seq<HourRow>
    decreases |s|
  {
    if s == [] then []
    else OfHour(s[..|s| - 1], h) + (if s[|s| - 1].hour == h then [s[|s| - 1]] else [])
  }

  /** x placed after every row whose hour is at most its own. */
  function InsertByHour(sorted: seq<HourRow>, x: HourRow): (r: seq<HourRow>)
    ensures |r| == |sorted| + 1
    decreases |sorted|
  {
    if sorted == [] || sorted[|sorted| - 1].hour <= x.hour then sorted + [x]
    else InsertByHour(sorted[..|sorted| - 1], x) + [sorted[|sorted| - 1]]
  }

  /** A stable sort by hour, as `Array.prototype.sort` is. */
  function SortByHour(s: seq<HourRow>): (r: seq<HourRow>)
    ensures |r| == |s|
    decreases |s|
  {
    if s == [] then [] else InsertByHour(SortByHour(s[..|s| - 1]), s[|s| - 1])
  }

  /** The hour plan the table shows: the day's hour rows sorted by hour. */
  function HourPlan(days: seq<DayRecord>, hours: seq<HourRow>, subject: Option<int>, date: string): (r: seq<HourRow>)
    ensures SortedByHour(r)
    ensures multiset(r) == multiset(HoursOfDay(hours, FindDayPlan(days, subject, date)))
  {
    var day := HoursOfDay(hours, FindDayPlan(days, subject, date));
    SortByHourCorrect(day);
    SortByHour(day)
  }

  lemma {:induction false} InsertByHourPermutes(sorted: seq<HourRow>, x: HourRow)
    ensures multiset(InsertByHour(sorted, x)) == multiset(sorted) + multiset{x}
    decreases |sorted|
  {
    if sorted != [] && sorted[|sorted| - 1].hour > x.hour {
      var init := sorted[..|sorted| - 1];
      InsertByHourPermutes(init, x);
      assert sorted == init + [sorted[|sorted| - 1]];
    }
  }

  lemma {:induction false} InsertByHourSorted(sorted: seq<HourRow>, x: HourRow)
    requires SortedByHour(sorted)
    ensures SortedByHour(InsertByHour(sorted, x))
    decreases |sorted|
  {
    if sorted != [] && sorted[|sorted| - 1].hour > x.hour {
      var init := sorted[..|sorted| - 1];
      var last := sorted[|sorted| - 1];
      InsertByHourSorted(init, x);
      InsertByHourPermutes(init, x);
      var r := InsertByHour(init, x);
      forall i | 0 <= i < |r| ensures r[i].hour <= last.hour {
        assert r[i] in multiset(r);
        if r[i] != x {
          assert r[i] in multiset(init);
          var k :| 0 <= k < |init| && init[k] == r[i];
          assert sorted[k] == r[i];
        }
      }
    }
  }

  lemma {:induction false} OfHourAppend(a: seq<HourRow>, b: seq<HourRow>, h: int)
    ensures OfHour(a + b, h) == OfHour(a, h) + OfHour(b, h)
    decreases |b|
  {
    if b == [] {
      assert a + b == a;
    } else {
      var init := b[..|b| - 1];
      assert (a + b)[..|a + b| - 1] == a + init;
      assert (a + b)[|a + b| - 1] == b[|b| - 1];
      OfHourAppend(a, init, h);
    }
  }

  lemma OfHourSingle(y: HourRow, h: int)
    ensures OfHour([y], h) == if y.hour == h then [y] else []
  {
    assert [y][..0] == [];
  }

  /** Two appended pieces commute when one of them is empty. */
  lemma AppendEmptyCommutes(a: seq<HourRow>, x: seq<HourRow>, l: seq<HourRow>)
    requires x == [] || l == []
    ensures (a + x) + l == (a + l) + x
  {
    if x == [] {
      assert a + x == a;
      assert (a + l) + x == a + l;
    } else {
      assert a + l == a;
      assert (a + x) + l == a + x;
    }
  }

  lemma {:induction false} InsertByHourStable(sorted: seq<HourRow>, x: HourRow, h: int)
    ensures OfHour(InsertByHour(sorted, x), h) == OfHour(sorted, h) + OfHour([x], h)
    decreases |sorted|
  {
    if sorted == [] || sorted[|sorted| - 1].hour <= x.hour {
      OfHourAppend(sorted, [x], h);
    } else {
      var init := sorted[..|sorted| - 1];
      var last := sorted[|sorted| - 1];
      var r0 := InsertByHour(init, x);
      assert InsertByHour(sorted, x) == r0 + [last];
      assert sorted == init + [last];
      InsertByHourStable(init, x, h);
      OfHourAppend(r0, [last], h);
      OfHourAppend(init, [last], h);
      // last and x cannot both have hour h, since last.hour > x.hour
      OfHourSingle(x, h);
      OfHourSingle(last, h);
      AppendEmptyCommutes(OfHour(init, h), OfHour([x], h), OfHour([last], h));
    }
  }

  /**
   * The sorted plan is sorted by hour, holds exactly the rows of the input, and
   * keeps rows of equal hour in their input order.
   */
  lemma {:induction false} SortByHourCorrect(s: seq<HourRow>)
    ensures SortedByHour(SortByHour(s))
    ensures multiset(SortByHour(s)) == multiset(s)
    ensures forall h :: OfHour(SortByHour(s), h) == OfHour(s, h)
    decreases |s|
  {
    if s != [] {
      var init := s[..|s| - 1];
      var last := s[|s| - 1];
      SortByHourCorrect(init);
      InsertByHourSorted(SortByHour(init), last);
      InsertByHourPermutes(SortByHour(init), last);
      assert s == init + [last];
      forall h ensures OfHour(SortByHour(s), h) == OfHour(s, h) {
        InsertByHourStable(SortByHour(init), last, h);
        OfHourAppend(init, [last], h);
      }
    }
  }

  /** A plan already in hour order is left as it is. */
  lemma {:induction false} SortByHourOfSorted(s: seq<HourRow>)
    requires SortedByHour(s)
    ensures SortByHour(s) == s
    decreases |s|
  {
    if s != [] {
      var init := s[..|s| - 1];
      SortByHourOfSorted(init);
      assert s == init + [s[|s| - 1]];
    }
  }

  /** The hours of a strictly ascending list of 24 hours within 1..24 are 1, 2, ..., 24. */
  lemma CompleteHoursAreInOrder(s: seq<HourRow>)
    requires |s| == 24
    requires forall i :: 0 <= i < 24 ==> 1 <= s[i].hour <= 24
    requires forall i, j :: 0 <= i < j < 24 ==> s[i].hour < s[j].hour
    ensures forall i :: 0 <= i < 24 ==> s[i].hour == i + 1
  {
    var k := 0;
    while k < 24
      invariant 0 <= k <= 24
      invariant forall i :: 0 <= i < k ==> s[i].hour >= i + 1
    {
      if k > 0 {
        assert s[k - 1].hour < s[k].hour;
      }
      k := k + 1;
    }
    k := 23;
    while k >= 0
      invariant -1 <= k <= 23
      invariant forall i :: k < i < 24 ==> s[i].hour <= i + 1
    {
      if k < 23 {
        assert s[k].hour < s[k + 1].hour;
      }
      k := k - 1;
    }
  }

  predicate HoursDistinct(s: seq<HourRow>) {
    forall i, j :: 0 <= i < j < |s| ==> s[i].hour != s[j].hour
  }

  lemma PositionOf(s: seq<HourRow>, x: HourRow) returns (k: nat)
    requires x in multiset(s)
    ensures k < |s| && s[k] == x
  {
    assert x in s;
    k :| 0 <= k < |s| && s[k] == x;
  }

  lemma CountTwice(t: seq<HourRow>, i: nat, j: nat)
    requires i < j < |t| && t[i] == t[j]
    ensures multiset(t)[t[i]] >= 2
  {
    assert t == t[..i] + [t[i]] + t[i + 1..j] + [t[j]] + t[j + 1..];
  }

  lemma CountOnce(s: seq<HourRow>, k: nat)
    requires HoursDistinct(s) && k < |s|
    ensures multiset(s)[s[k]] == 1
  {
    assert s == s[..k] + [s[k]] + s[k + 1..];
    assert s[k] !in s[..k];
    assert s[k] !in s[k + 1..];
  }

  /** A permutation of rows with distinct hours has distinct hours. */
  lemma HoursDistinctPermuted(s: seq<HourRow>, t: seq<HourRow>)
    requires multiset(t) == multiset(s) && HoursDistinct(s)
    ensures HoursDistinct(t)
  {
    forall i, j | 0 <= i < j < |t| ensures t[i].hour != t[j].hour {
      if t[i].hour == t[j].hour {
        var a := PositionOf(s, t[i]);
        var b := PositionOf(s, t[j]);
        assert a == b;
        CountTwice(t, i, j);
        CountOnce(s, a);
        assert false;
      }
    }
  }

  /**
   * When the day's rows carry each hour 1..24 exactly once, row i of the
   * sorted plan, the table row of time interval i, is the row of hour i + 1.
   */
  lemma SortedCompleteDay(s: seq<HourRow>)
    requires |s| == 24
    requires forall i :: 0 <= i < 24 ==> 1 <= s[i].hour <= 24
    requires HoursDistinct(s)
    ensures forall i :: 0 <= i < 24 ==> SortByHour(s)[i].hour == i + 1
  {
    SortByHourCorrect(s);
    var t := SortByHour(s);
    forall i | 0 <= i < 24 ensures 1 <= t[i].hour <= 24 {
      var k := PositionOf(s, t[i]);
    }
    HoursDistinctPermuted(s, t);
    CompleteHoursAreInOrder(t);
  }

  // ---------------------------------------------------------------------------
  // Columns, sums and averages
  // ---------------------------------------------------------------------------

  datatype Column = P1 | P1Gen | P2 | P2Gen | P3 | P3Gen | F1 | F1Gen {
    predicate IsGen() {
      this == P1Gen || this == P2Gen || this == P3Gen || this == F1Gen
    }
  }

  function ValueIn(row: HourRow, c: Column): Option<real> {
    match c
    case P1 => row.p1
    case P1Gen => row.p1Gen
    case P2 => row.p2
    case P2Gen => row.p2Gen
    case P3 => row.p3
    case P3Gen => row.p3Gen
    case F1 => row.f1
    case F1Gen => row.f1Gen
  }

  /** The plan columns of main plans are hidden for renewable producers ("ВИЭ"). */
  predicate ShowsMain(subjectType: Option<string>) {
    subjectType != Some("ВИЭ")
  }

  /** The generation columns are hidden for consumers and for "РЭК". */
  predicate ShowsGen(subjectType: Option<string>) {
    subjectType != Some("CONSUMER") && subjectType != Some("РЭК")
  }

  /** Whether column c is a column of the plan table for the subject type. */
  predicate Shown(c: Column, subjectType: Option<string>) {
    if c.IsGen() then ShowsGen(subjectType) else ShowsMain(subjectType)
  }

  /** The table cell of time interval i: `hourPlan[i]?.X || 0`. */
  function CellValue(plan: seq<HourRow>, i: nat, c: Column): (r: real)
    ensures i < |plan| && ValueIn(plan[i], c).Some? ==> r == ValueIn(plan[i], c).value
    ensures !(i < |plan| && ValueIn(plan[i], c).Some?) ==> r == 0.0
  {
    if i < |plan| then ValueOrZero(ValueIn(plan[i], c)) else 0.0
  }

  /** `rows.reduce((acc, row) => acc + (Number(row.X) || 0), 0)`. */
  function ColumnSum(rows: seq<HourRow>, c: Column): real
    decreases |rows|
  {
    if rows == [] then 0.0 else ColumnSum(rows[..|rows| - 1], c) + ValueOrZero(ValueIn(rows[|rows| - 1], c))
  }

  /** `rowCount ? sum / rowCount : 0`. */
  function ColumnAverage(rows: seq<HourRow>, c: Column): (r: real)
    ensures |rows| == 0 ==> r == 0.0
    ensures |rows| > 0 ==> r * |rows| as real == ColumnSum(rows, c)
  {
    if |rows| == 0 then 0.0 else ColumnSum(rows, c) / |rows| as real
  }

  /** The sum shown under column c: generation sums are null for consumers and "РЭК". */
  function SummarySum(rows: seq<HourRow>, c: Column, subjectType: Option<string>): (r: Option<real>)
    ensures r.None? <==> c.IsGen() && !ShowsGen(subjectType)
    ensures r.Some? ==> r.value == ColumnSum(rows, c)
  {
    if c.IsGen() && !ShowsGen(subjectType) then None else Some(ColumnSum(rows, c))
  }

  /** The average shown under column c, null exactly where the sum is; otherwise the sum over the row count, or 0 without rows. */
  function SummaryAverage(rows: seq<HourRow>, c: Column, subjectType: Option<string>): (r: Option<real>)
    ensures r.None? <==> SummarySum(rows, c, subjectType).None?
    ensures r.Some? && |rows| == 0 ==> r.value == 0.0
    ensures r.Some? && |rows| > 0 ==> r.value * |rows| as real == SummarySum(rows, c, subjectType).value
  {
    if c.IsGen() && !ShowsGen(subjectType) then None else Some(ColumnAverage(rows, c))
  }

  lemma {:induction false} ColumnSumAppend(a: seq<HourRow>, b: seq<HourRow>, c: Column)
    ensures ColumnSum(a + b, c) == ColumnSum(a, c) + ColumnSum(b, c)
    decreases |b|
  {
    if b == [] {
      assert a + b == a;
    } else {
      var init := b[..|b| - 1];
      assert (a + b)[..|a + b| - 1] == a + init;
      assert (a + b)[|a + b| - 1] == b[|b| - 1];
      ColumnSumAppend(a, init, c);
    }
  }

  lemma {:induction false} ColumnSumInsert(sorted: seq<HourRow>, x: HourRow, c: Column)
    ensures ColumnSum(InsertByHour(sorted, x), c) == ColumnSum(sorted, c) + ValueOrZero(ValueIn(x, c))
    decreases |sorted|
  {
    if !(sorted == [] || sorted[|sorted| - 1].hour <= x.hour) {
      var init := sorted[..|sorted| - 1];
      ColumnSumInsert(init, x, c);
      assert sorted == init + [sorted[|sorted| - 1]];
    }
  }

  /** Sorting the plan by hour does not change any column sum. */
  lemma {:induction false} SortKeepsColumnSum(s: seq<HourRow>, c: Column)
    ensures ColumnSum(SortByHour(s), c) == ColumnSum(s, c)
    decreases |s|
  {
    if s != [] {
      SortKeepsColumnSum(s[..|s| - 1], c);
      ColumnSumInsert(SortByHour(s[..|s| - 1]), s[|s| - 1], c);
    }
  }

  /** Adding one value between lo and hi to a sum of n such values. */
  lemma StepBounds(lo: real, hi: real, sum: real, v: real, n: real)
    requires lo * n <= sum <= hi * n && lo <= v <= hi
    ensures lo * (n + 1.0) <= sum + v <= hi * (n + 1.0)
  {
    assert lo * (n + 1.0) == lo * n + lo;
    assert hi * (n + 1.0) == hi * n + hi;
  }

  lemma {:induction false} ColumnSumBounds(rows: seq<HourRow>, c: Column, lo: real, hi: real)
    requires forall i :: 0 <= i < |rows| ==> lo <= ValueOrZero(ValueIn(rows[i], c)) <= hi
    ensures lo * |rows| as real <= ColumnSum(rows, c) <= hi * |rows| as real
    decreases |rows|
  {
    if rows != [] {
      var init := rows[..|rows| - 1];
      var v := ValueOrZero(ValueIn(rows[|rows| - 1], c));
      ColumnSumBounds(init, c, lo, hi);
      assert ColumnSum(rows, c) == ColumnSum(init, c) + v;
      assert |rows| as real == |init| as real + 1.0;
      StepBounds(lo, hi, ColumnSum(init, c), v, |init| as real);
    }
  }

  /** A quotient by a positive n of a value between lo n and hi n lies between lo and hi. */
  lemma QuotientBounds(lo: real, hi: real, sum: real, n: real)
    requires n > 0.0 && lo * n <= sum <= hi * n
    ensures lo <= sum / n <= hi
  {
    assert (sum / n) * n == sum;
  }

  /** An average lies between the smallest and the largest value of its column. */
  lemma ColumnAverageBounds(rows: seq<HourRow>, c: Column, lo: real, hi: real)
    requires |rows| > 0
    requires forall i :: 0 <= i < |rows| ==> lo <= ValueOrZero(ValueIn(rows[i], c)) <= hi
    ensures lo <= ColumnAverage(rows, c) <= hi
  {
    ColumnSumBounds(rows, c, lo, hi);
    QuotientBounds(lo, hi, ColumnSum(rows, c), |rows| as real);
  }

  // ---------------------------------------------------------------------------
  // Status labels
  // ---------------------------------------------------------------------------

  datatype Plan = PlanP1 | PlanP2 | PlanP3 | PlanF1

  const Plans: seq<Plan> := [PlanP1, PlanP2, PlanP3, PlanF1]

  function Label(p: Plan): string {
    match p
    case PlanP1 => "П1"
    case PlanP2 => "П2"
    case PlanP3 => "П3"
    case PlanF1 => "Ф"
  }

  function MainKey(p: Plan): string {
    match p
    case PlanP1 => "P1_Status"
    case PlanP2 => "P2_Status"
    case PlanP3 => "P3_Status"
    case PlanF1 => "F1_Status"
  }

  function GenKey(p: Plan): string {
    match p
    case PlanP1 => "P1_Gen_Status"
    case PlanP2 => "P2_Gen_Status"
    case PlanP3 => "P3_Gen_Status"
    case PlanF1 => "F1_Gen_Status"
  }

  /** How the labels are coloured for a subject type. */
  datatype Mode = Combined | Renewable | MainOnly

  /** Consumers and "РЭК" see main plans only; "ВИЭ" sees generation plans; every other type sees both. */
  function ModeOf(subjectType: Option<string>): (m: Mode)
    ensures m == Renewable <==> subjectType == Some("ВИЭ")
    ensures m == MainOnly <==> !ShowsGen(subjectType)
  {
    if subjectType != Some("CONSUMER") && subjectType != Some("РЭК") && subjectType != Some("ВИЭ") then Combined
    else if subjectType == Some("ВИЭ") then Renewable
    else MainOnly
  }

  /** `statuses[key]`, `None` when absent. */
  function StatusOf(statuses: map<string, string>, key: string): Option<string> {
    if key in statuses then Some(statuses[key]) else None
  }

  /** The colour a status gets when it does not earn green in the combined and renewable modes. */
  function FallbackColour(status: Option<string>): string {
    match status
    case Some("COMPLETED") => "text-black"
    case Some("IN_PROGRESS") => "text-orange-500"
    case Some("OUTDATED") => "text-red-500"
    case Some("NOT_STARTED") => "text-black"
    case _ => ""
  }

  /** The colour of a status when main plans are shown alone. */
  function PlainColour(status: Option<string>): string {
    match status
    case Some("COMPLETED") => "text-green-500"
    case Some("IN_PROGRESS") => "text-orange-500"
    case Some("OUTDATED") => "text-red-500"
    case Some("NOT_STARTED") => "text-black"
    case _ => ""
  }

  function Colour(mode: Mode, statuses: map<string, string>, p: Plan): string {
    var main := StatusOf(statuses, MainKey(p));
    var gen := StatusOf(statuses, GenKey(p));
    match mode
    case Combined => if main == Some("COMPLETED") && gen == Some("COMPLETED") then "text-green-500" else FallbackColour(main)
    case Renewable => if gen == Some("COMPLETED") then "text-green-500" else FallbackColour(gen)
    case MainOnly => PlainColour(main)
  }

  datatype StatusView = NoData | Labels(spans: seq<(string, string)>)

  /** The status cell of one subject: "Нет данных", or one coloured label per plan. */
  function StatusDisplay(statuses: Option<map<string, string>>, subjectType: Option<string>): (v: StatusView)
    ensures v.NoData? <==> statuses.None? || |statuses.value| == 0
    ensures v.Labels? ==> |v.spans| == 4 && forall i :: 0 <= i < 4 ==> v.spans[i].0 == Label(Plans[i])
  {
    if statuses.None? || |statuses.value| == 0 then NoData
    else
      var mode := ModeOf(subjectType);
      Labels(seq(4, i requires 0 <= i < 4 => (Label(Plans[i]), Colour(mode, statuses.value, Plans[i]))))
  }

  /** In the combined mode a label is green exactly when both its plan and its generation plan are completed. */
  lemma CombinedGreenIff(statuses: map<string, string>, subjectType: Option<string>, i: nat)
    requires |statuses| > 0 && i < 4
    requires ModeOf(subjectType) == Combined
    ensures StatusDisplay(Some(statuses), subjectType).spans[i].1 == "text-green-500"
            <==> StatusOf(statuses, MainKey(Plans[i])) == Some("COMPLETED")
                 && StatusOf(statuses, GenKey(Plans[i])) == Some("COMPLETED")
  {
  }

  /** The renewable mode reads generation statuses only: main statuses never change its labels. */
  lemma RenewableIgnoresMainStatuses(s1: map<string, string>, s2: map<string, string>, i: nat)
    requires |s1| > 0 && |s2| > 0 && i < 4
    requires StatusOf(s1, GenKey(Plans[i])) == StatusOf(s2, GenKey(Plans[i]))
    ensures StatusDisplay(Some(s1), Some("ВИЭ")).spans[i] == StatusDisplay(Some(s2), Some("ВИЭ")).spans[i]
  {
  }

  /** The main-only mode reads main statuses only. */
  lemma MainOnlyIgnoresGenStatuses(s1: map<string, string>, s2: map<string, string>, subjectType: Option<string>, i: nat)
    requires |s1| > 0 && |s2| > 0 && i < 4
    requires !ShowsGen(subjectType)
    requires StatusOf(s1, MainKey(Plans[i])) == StatusOf(s2, MainKey(Plans[i]))
    ensures StatusDisplay(Some(s1), subjectType).spans[i] == StatusDisplay(Some(s2), subjectType).spans[i]
  {
  }

  /**
   * A completed main plan whose generation plan is not completed is shown black
   * in the combined mode, where the main-only mode shows it green.
   */
  lemma CombinedDemotesHalfCompleted(statuses: map<string, string>, i: nat)
    requires |statuses| > 0 && i < 4
    requires StatusOf(statuses, MainKey(Plans[i])) == Some("COMPLETED")
    requires StatusOf(statuses, GenKey(Plans[i])) != Some("COMPLETED")
    ensures StatusDisplay(Some(statuses), Some("PRODUCER")).spans[i].1 == "text-black"
    ensures StatusDisplay(Some(statuses), Some("CONSUMER")).spans[i].1 == "text-green-500"
  {
  }
}
