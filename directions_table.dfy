/**
 * The month grid of directions as the table shows it: a double click flips one
 * hour of one day between "UP" and "DOWN" in place, each row is labelled with its
 * day as DD.MM.YYYY, and each cell shows an arrow and a colour for its direction.
 */
module DirectionsTable {
  import opened Optional
  import opened Seqs
  import opened Text
  import opened Directions

  const Up: string := "UP"
  const Down: string := "DOWN"

  /** `currentValue === 'UP' ? 'DOWN' : 'UP'`. */
  function ToggleDirection(v: string): (r: string)
    ensures r == Up || r == Down
    ensures r == Down <==> v == Up
  {
    if v == Up then Down else Up
  }

  /**
   * Toggling twice restores exactly "UP" and "DOWN"; any other value, "NONE" among
   * them, becomes "UP" and then "DOWN".
   */
  lemma ToggleTwice(v: string)
    ensures ToggleDirection(ToggleDirection(v)) == v <==> v == Up || v == Down
    ensures v != Up && v != Down ==> ToggleDirection(v) == Up && ToggleDirection(ToggleDirection(v)) == Down
  {
  }

  /** `toggleCellValue(day, hour)` on the list `tableData`: the first entry keyed `day` has its slot `hour - 1` flipped. */
  function ToggleCell(table: seq<DayEntry>, day: string, hour: nat): (r: seq<DayEntry>)
    requires FullDays(table) && 1 <= hour <= HoursPerDay
    ensures |r| == |table| && FullDays(r)
    ensures FindDay(table, day).None? ==> r == table
    ensures forall i :: 0 <= i < |table| ==> r[i].date == table[i].date
    ensures forall i, j :: 0 <= i < |table| && 0 <= j < HoursPerDay ==>
              r[i].hours[j] == if FindDay(table, day) == Some(i) && j == hour - 1 then ToggleDirection(table[i].hours[j])
                               else table[i].hours[j]
  {
    var found := FindDay(table, day);
    if found.None? then table
    else
      var i := found.value;
      table[i := DayEntry(table[i].date, table[i].hours[hour - 1 := ToggleDirection(table[i].hours[hour - 1])])]
  }

  /** In a month's table, toggling a day's hour flips that slot of that day and changes no other slot. */
  lemma ToggleCellOfMonth(year: nat, month: nat, tariffs: seq<Tariff>, d: nat, hour: nat, i: nat, j: nat)
    requires month < 12 && HoursInRange(tariffs)
    requires 1 <= d <= DaysInMonth(year, month) && 1 <= hour <= HoursPerDay
    requires i < DaysInMonth(year, month) && j < HoursPerDay
    ensures var table := TableData(year, month, tariffs);
            ToggleCell(table, DateKey(year, month, d), hour)[i].hours[j]
            == if i == d - 1 && j == hour - 1 then ToggleDirection(table[i].hours[j]) else table[i].hours[j]
  {
    var table := TableData(year, month, tariffs);
    var found := FindDay(table, DateKey(year, month, d));
    assert table[d - 1].date == DateKey(year, month, d);
    assert found.Some?;
    DateKeyInjective(year, month, found.value + 1, d);
  }

  /** The double-click handler on the grid itself: the entry's array is changed in place. */
  method ToggleCellValue(grid: DirectionGrid, day: string, hour: nat)
    requires grid.Valid() && 1 <= hour <= HoursPerDay
    modifies grid.slots
    ensures grid.Table() == ToggleCell(old(grid.Table()), day, hour)
  {
    var found := FindDay(grid.Table(), day);
    if found.Some? {
      var current := grid.slots[found.value, hour - 1];
      grid.Put(found.value, hour - 1, ToggleDirection(current));
    }
  }

  /** `day.split('-').reverse().join('.')`. */
  function DayLabel(day: string): string {
    Join(Reverse(Split(day, '-')), ".")
  }

  /** Three dash-free fields joined by dashes come back reversed and joined by dots. */
  lemma DayLabelOfFields(y: string, m: string, d: string)
    requires '-' !in y && '-' !in m && '-' !in d
    ensures DayLabel(y + "-" + m + "-" + d) == d + "." + m + "." + y
  {
    SplitThree(y, m, d, '-');
    var parts := Reverse([y, m, d]);
    assert parts == [d, m, y];
    assert parts[1..] == [m, y] && parts[1..][1..] == [y];
    assert Join([m, y], ".") == m + "." + y;
    assert Join(parts, ".") == d + "." + (m + "." + y);
    assert d + "." + (m + "." + y) == d + "." + m + "." + y;
  }

  /** A day key "YYYY-MM-DD" is labelled "DD.MM.YYYY". */
  lemma DayLabelOfDateKey(year: nat, month: nat, day: nat)
    ensures DayLabel(DateKey(year, month, day)) == Pad2(day) + "." + Pad2(month + 1) + "." + NatToString(year)
  {
    DigitsHaveNo(NatToString(year), '-');
    DigitsHaveNo(Pad2(month + 1), '-');
    DigitsHaveNo(Pad2(day), '-');
    DayLabelOfFields(NatToString(year), Pad2(month + 1), Pad2(day));
  }

  /** `hourData === 'UP' ? '↑' : hourData === 'DOWN' ? '↓' : ''`. */
  function Glyph(v: string): (g: string)
    ensures g != "" <==> v == Up || v == Down
    ensures v == Up ==> g == "↑"
    ensures v == Down ==> g == "↓"
  {
    if v == Up then "↑" else if v == Down then "↓" else ""
  }

  /** The colour class of a cell: green for "DOWN", red for "UP", none otherwise. */
  function CellColour(v: string): (c: string)
    ensures c != "" <==> v == Up || v == Down
    ensures v == Up ==> c == "bg-red-100"
    ensures v == Down ==> c == "bg-green-100"
  {
    if v == Down then "bg-green-100" else if v == Up then "bg-red-100" else ""
  }

  /** A toggled cell always shows an arrow, and the arrow and the colour always agree. */
  lemma ToggledCellShows(v: string)
    ensures Glyph(ToggleDirection(v)) != ""
    ensures Glyph(v) == "↑" <==> CellColour(v) == "bg-red-100"
    ensures Glyph(v) == "↓" <==> CellColour(v) == "bg-green-100"
  {
  }
}
