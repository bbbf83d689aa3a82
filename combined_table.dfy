/**
 * The dispatcher's combined table: the editable 24-hour plan of the selected
 * subject (defaults, the overlay of the fetched hours, single-field edits, the
 * displayed P2), its import from and export to spreadsheet rows, and the full
 * export of the subject and its objects.
 */
module CombinedTable {
  import opened Optional
  import opened Text
  import opened Sheet
  import opened ObjectsTable

  // ---------------------------------------------------------------------------
  // Hour records and the default plan
  // ---------------------------------------------------------------------------

  /** One slot of the plan being edited; every number is a number, every message a text. */
  datatype HourRecord = HourRecord(
    hour: int,
    p1: real, p1Gen: real, p2: real, p2Gen: real, p3: real, p3Gen: real,
    f1: real, f1Gen: real, f2: real, f2Gen: real,
    coefficient: real, volume: real, coefficientGen: real, volumeGen: real,
    p2Message: string, p2GenMessage: string, message: string)

  /** The record `initializeDefaultHourPlan` puts in the slot of hour h. */
  function DefaultRecord(h: int): HourRecord {
    HourRecord(h, 0.0, 0.0, 0.0, 0.0, 0.0, 0.0, 0.0, 0.0, 0.0, 0.0, 1.0, 0.0, 1.0, 0.0, "", "", "")
  }

  /** A plan has 24 slots and slot i holds hour i + 1. */
  predicate Slotted(plan: seq<HourRecord>) {
    |plan| == 24 && forall i :: 0 <= i < 24 ==> plan[i].hour == i + 1
  }

  /** `initializeDefaultHourPlan()`. */
  function DefaultPlan(): (plan: seq<HourRecord>)
    ensures Slotted(plan)
  {
    seq(24, i => DefaultRecord(i + 1))
  }

  // ---------------------------------------------------------------------------
  // Overlaying the fetched hours
  // ---------------------------------------------------------------------------

  /** An hour record as the server sends it; `None` is a field that is null or absent. */
  datatype FetchedHour = FetchedHour(
    hour: int,
    p1: Option<real>, p1Gen: Option<real>, p2: Option<real>, p2Gen: Option<real>,
    p3: Option<real>, p3Gen: Option<real>, f1: Option<real>, f1Gen: Option<real>,
    f2: Option<real>, f2Gen: Option<real>,
    coefficient: Option<real>, volume: Option<real>, coefficientGen: Option<real>, volumeGen: Option<real>,
    p2Message: Option<string>, p2GenMessage: Option<string>, message: Option<string>)

  /** What `hourData?.field` reads when no fetched record matches: every field undefined. */
  const Missing: FetchedHour :=
    FetchedHour(0, None, None, None, None, None, None, None, None, None, None, None, None, None, None, None, None, None)

  /** `hours.find(hour => hour.hour === h)`, as the index of the first match. */
  function FirstWithHour(hours: seq<FetchedHour>, h: int): (r: Option<nat>)
    ensures r.None? <==> forall k :: 0 <= k < |hours| ==> hours[k].hour != h
    ensures r.Some? ==> r.value < |hours| && hours[r.value].hour == h
                        && forall j :: 0 <= j < r.value ==> hours[j].hour != h
  {
    if hours == [] then None
    else if hours[0].hour == h then Some(0)
    else
      match FirstWithHour(hours[1..], h)
      case None => None
      case Some(k) => Some(k + 1)
  }

  /** The fetched record of hour h, or `Missing`. */
  function FetchedFor(hours: seq<FetchedHour>, h: int): FetchedHour {
    match FirstWithHour(hours, h)
    case None => Missing
    case Some(k) => hours[k]
  }

  /**
   * The slot of hour h after the overlay: every field but the hour is replaced; plan
   * values fall back to 0 through `|| 0`, messages to "" through `|| ""`, and the two
   * coefficients to 1 through `?? 1`, which keeps an explicit 0.
   */
  function Loaded(h: int, d: FetchedHour): HourRecord {
    HourRecord(h, d.p1.GetOr(0.0), d.p1Gen.GetOr(0.0), d.p2.GetOr(0.0), d.p2Gen.GetOr(0.0),
               d.p3.GetOr(0.0), d.p3Gen.GetOr(0.0), d.f1.GetOr(0.0), d.f1Gen.GetOr(0.0),
               d.f2.GetOr(0.0), d.f2Gen.GetOr(0.0),
               d.coefficient.GetOr(1.0), d.volume.GetOr(0.0), d.coefficientGen.GetOr(1.0), d.volumeGen.GetOr(0.0),
               d.p2Message.GetOr(""), d.p2GenMessage.GetOr(""), d.message.GetOr(""))
  }

  /** Slot h - 1 of the overlay; it keeps its hour. */
  function LoadedSlot(hours: seq<FetchedHour>, h: int): (r: HourRecord)
    ensures r.hour == h
  {
    Loaded(h, FetchedFor(hours, h))
  }

  /** The plan `fetchSubjectHours` builds from the fetched hours of the subject. */
  function OverlayPlan(hours: seq<FetchedHour>): (plan: seq<HourRecord>)
    ensures Slotted(plan)
  {
    seq(24, i => LoadedSlot(hours, i + 1))
  }

  /** With nothing fetched the overlay is the default plan. */
  lemma OverlayOfNothing()
    ensures OverlayPlan([]) == DefaultPlan()
  {
    forall i | 0 <= i < 24 ensures OverlayPlan([])[i] == DefaultPlan()[i] {
      assert FetchedFor([], i + 1) == Missing;
    }
  }

  /**
   * Slot h - 1 takes its values from the first fetched record whose hour is h, and keeps
   * the default when there is none; records of other hours never reach it.
   */
  lemma OverlaySlot(hours: seq<FetchedHour>, h: int)
    requires 1 <= h <= 24
    ensures (forall k :: 0 <= k < |hours| ==> hours[k].hour != h) ==> OverlayPlan(hours)[h - 1] == DefaultRecord(h)
    ensures forall k :: 0 <= k < |hours| && hours[k].hour == h && (forall j :: 0 <= j < k ==> hours[j].hour != h) ==>
              OverlayPlan(hours)[h - 1] == Loaded(h, hours[k])
  {
    assert Loaded(h, Missing) == DefaultRecord(h);
    forall k | 0 <= k < |hours| && hours[k].hour == h && (forall j :: 0 <= j < k ==> hours[j].hour != h)
      ensures OverlayPlan(hours)[h - 1] == Loaded(h, hours[k])
    {
      assert FirstWithHour(hours, h) == Some(k);
    }
  }

  // ---------------------------------------------------------------------------
  // The displayed values
  // ---------------------------------------------------------------------------

  /** `x || d` on a number: a zero reads as d. */
  function OrElse(x: real, d: real): real {
    if x == 0.0 then d else x
  }

  /** `calculateP2`: P1 times the coefficient plus the volume (`toFixed` rounding aside). */
  function CalculatedP2(r: HourRecord): real {
    r.p1 * r.coefficient + r.volume
  }

  /** `calculateP2Gen`, on the generation fields. */
  function CalculatedP2Gen(r: HourRecord): real {
    r.p1Gen * r.coefficientGen + r.volumeGen
  }

  /** The P2 cell: the stored P2 unless it is 0, otherwise the calculated one. */
  function DisplayedP2(r: HourRecord): (x: real)
    ensures r.p2 != 0.0 ==> x == r.p2
    ensures r.p2 == 0.0 ==> x == r.p1 * r.coefficient + r.volume
  {
    if r.p2 != 0.0 then r.p2 else CalculatedP2(r)
  }

  /** The P2 generation cell, by the same rule. */
  function DisplayedP2Gen(r: HourRecord): (x: real)
    ensures r.p2Gen != 0.0 ==> x == r.p2Gen
    ensures r.p2Gen == 0.0 ==> x == r.p1Gen * r.coefficientGen + r.volumeGen
  {
    if r.p2Gen != 0.0 then r.p2Gen else CalculatedP2Gen(r)
  }

  /** The value of the coefficient input, `coefficient || 1`. */
  function ShownCoefficient(r: HourRecord): real {
    OrElse(r.coefficient, 1.0)
  }

  /** The value of the generation coefficient input, `coefficient_Gen || 1`. */
  function ShownCoefficientGen(r: HourRecord): real {
    OrElse(r.coefficientGen, 1.0)
  }

  /** A stored non-zero P2 is shown whatever the coefficient and the volume are. */
  lemma StoredP2Wins(r: HourRecord, c: real, v: real)
    requires r.p2 != 0.0
    ensures DisplayedP2(r.(coefficient := c, volume := v)) == r.p2
  {
  }

  /**
   * A coefficient of 0 loaded from the server is kept (`?? 1`), its input shows 1
   * (`|| 1`), yet P2 is calculated with 0: with P1 non-zero the shown P2 differs from
   * P1 times the shown coefficient plus the volume.
   */
  lemma ZeroCoefficientShownAsOne(d: FetchedHour, h: int)
    requires d.coefficient == Some(0.0) && d.p2.GetOr(0.0) == 0.0 && d.p1.GetOr(0.0) != 0.0
    ensures var r := Loaded(h, d);
            r.coefficient == 0.0 && ShownCoefficient(r) == 1.0 && DisplayedP2(r) == r.volume
            && DisplayedP2(r) != r.p1 * ShownCoefficient(r) + r.volume
  {
  }

  /** A missing coefficient reads as 1, so P2 of a fresh slot is P1 plus the volume. */
  lemma MissingCoefficientIsOne(d: FetchedHour, h: int)
    requires d.coefficient.None? && d.p2.GetOr(0.0) == 0.0
    ensures DisplayedP2(Loaded(h, d)) == d.p1.GetOr(0.0) + d.volume.GetOr(0.0)
  {
  }

  /** An illustration of `DisplayedP2` on one input: P1 = 100, coefficient 1.1, volume 5 and no stored P2 show a P2 of 115. */
  lemma DisplayedP2Example()
    ensures DisplayedP2(DefaultRecord(1).(p1 := 100.0, coefficient := 1.1, volume := 5.0)) == 115.0
  {
  }

  const Success: string := "Успешно!"

  /** The shade of a P2 message cell: none when empty, green for success, red otherwise. */
  function MessageShade(msg: string): (shade: string)
    ensures shade == "" <==> msg == ""
    ensures shade == "bg-green-100" <==> msg == Success
    ensures msg != "" && msg != Success ==> shade == "bg-red-100"
  {
    if msg == "" then "" else if msg == Success then "bg-green-100" else "bg-red-100"
  }

  // ---------------------------------------------------------------------------
  // The main import: `parseExcelData`
  // ---------------------------------------------------------------------------

  const MainImported: string := "Данные успешно импортированы."
  const BadMainHeader: string := "Неверный формат файла. Ожидаются заголовки: Hour, Coefficient, Volume."
  const GP1Imported: string := "Данные ГП1 успешно импортированы."
  const BadGP1Header: string := "Неверный формат файла. Ожидаются заголовки: Hour, Coefficient_Gen, Volume_Gen."

  /** The first row has at least three cells and they are exactly "Hour", "Coefficient", "Volume". */
  predicate MainHeaderOk(rows: seq<Row>) {
    |rows| > 0 && |rows[0]| >= 3
    && rows[0][0] == Str("Hour") && rows[0][1] == Str("Coefficient") && rows[0][2] == Str("Volume")
  }

  /** The rows after the header row. */
  function DataRows(rows: seq<Row>): seq<Row> {
    if rows == [] then [] else rows[1..]
  }

  /** The hour, coefficient and volume of a data row; `None` when it is short or one of them is NaN. */
  function ReadMainRow(row: Row): (r: Option<(int, real, int)>)
    ensures r.None? <==> |row| < 3 || ParseInt(row[0]).None? || ParseFloat(row[1]).None? || ParseInt(row[2]).None?
    ensures r.Some? ==> ParseInt(row[0]) == Some(r.value.0) && ParseFloat(row[1]) == Some(r.value.1)
                        && ParseInt(row[2]) == Some(r.value.2)
  {
    if |row| < 3 then None
    else
      var hour := ParseInt(row[0]);
      var coefficient := ParseFloat(row[1]);
      var volume := ParseInt(row[2]);
      if hour.None? || coefficient.None? || volume.None? then None
      else Some((hour.value, coefficient.value, volume.value))
  }

  /** A slot with the coefficient and volume of an imported row. */
  function SetMain(r: HourRecord, c: real, v: int): HourRecord {
    r.(coefficient := c, volume := v as real)
  }

  /** One data row applied: a readable row of hour 1..24 sets that slot's coefficient and volume. */
  function ApplyMainRow(plan: seq<HourRecord>, row: Row): (r: seq<HourRecord>)
    requires |plan| == 24
    ensures |r| == 24
  {
    var read := ReadMainRow(row);
    if read.Some? && 1 <= read.value.0 <= 24 then
      plan[read.value.0 - 1 := SetMain(plan[read.value.0 - 1], read.value.1, read.value.2)]
    else plan
  }

  /** The data rows applied in order. */
  function ApplyMainRows(plan: seq<HourRecord>, rows: seq<Row>): (r: seq<HourRecord>)
    requires |plan| == 24
    ensures Slotted(plan) ==> Slotted(r)
    decreases |rows|
  {
    if rows == [] then plan
    else ApplyMainRow(ApplyMainRows(plan, rows[..|rows| - 1]), rows[|rows| - 1])
  }

  /** The plan `parseExcelData` produces: the data rows applied to a fresh default plan. */
  function ImportedPlan(rows: seq<Row>): (plan: seq<HourRecord>)
    ensures Slotted(plan)
  {
    ApplyMainRows(DefaultPlan(), DataRows(rows))
  }

  /** The coefficient and the volume of the last readable row of hour h. */
  function LastMainRowFor(rows: seq<Row>, h: int): Option<(real, int)>
    decreases |rows|
  {
    if rows == [] then None
    else
      match ReadMainRow(rows[|rows| - 1])
      case Some((h', c, v)) => if h' == h then Some((c, v)) else LastMainRowFor(rows[..|rows| - 1], h)
      case None => LastMainRowFor(rows[..|rows| - 1], h)
  }

  /** A slot after the import changes only by the last readable row of its hour. */
  function WithMainRow(r: HourRecord, last: Option<(real, int)>): HourRecord {
    match last
    case None => r
    case Some((c, v)) => SetMain(r, c, v)
  }

  /** One row changes slot h - 1 only when it reads as a row of hour h. */
  lemma ApplyMainRowSlot(plan: seq<HourRecord>, row: Row, h: int)
    requires |plan| == 24 && 1 <= h <= 24
    ensures var read := ReadMainRow(row);
            ApplyMainRow(plan, row)[h - 1]
            == if read.Some? && read.value.0 == h then SetMain(plan[h - 1], read.value.1, read.value.2) else plan[h - 1]
  {
  }

  /** Slot h - 1 ends with the coefficient and volume of the last readable row of hour h; nothing else changes. */
  lemma {:induction false} ApplyMainRowsSlot(plan: seq<HourRecord>, rows: seq<Row>, h: int)
    requires |plan| == 24 && 1 <= h <= 24
    ensures ApplyMainRows(plan, rows)[h - 1] == WithMainRow(plan[h - 1], LastMainRowFor(rows, h))
    decreases |rows|
  {
    if rows != [] {
      var init := rows[..|rows| - 1];
      var pre := ApplyMainRows(plan, init);
      assert ApplyMainRows(plan, rows) == ApplyMainRow(pre, rows[|rows| - 1]);
      ApplyMainRowsSlot(plan, init, h);
      ApplyMainRowSlot(pre, rows[|rows| - 1], h);
    }
  }

  /**
   * After the main import, slot h - 1 holds the default record of hour h with the
   * coefficient and volume of the last readable row of hour h, if any: hours the file
   * does not name end with coefficient 1 and volume 0, and every other field is reset.
   */
  lemma ImportedSlot(rows: seq<Row>, h: int)
    requires 1 <= h <= 24
    ensures ImportedPlan(rows)[h - 1] == WithMainRow(DefaultRecord(h), LastMainRowFor(DataRows(rows), h))
  {
    ApplyMainRowsSlot(DefaultPlan(), DataRows(rows), h);
  }

  /** A short row, a row with a NaN field and a row whose hour is outside 1..24 change nothing. */
  lemma SkippedRow(plan: seq<HourRecord>, rows: seq<Row>, row: Row)
    requires |plan| == 24
    requires ReadMainRow(row).None? || !(1 <= ReadMainRow(row).value.0 <= 24)
    ensures ApplyMainRows(plan, rows + [row]) == ApplyMainRows(plan, rows)
  {
    assert (rows + [row])[..|rows|] == rows;
  }

  /** Of two rows for the same hour the later one wins. */
  lemma LaterRowWins(plan: seq<HourRecord>, rows: seq<Row>, row: Row, h: int, c: real, v: int)
    requires |plan| == 24 && 1 <= h <= 24 && ReadMainRow(row) == Some((h, c, v))
    ensures ApplyMainRows(plan, rows + [row])[h - 1] == SetMain(ApplyMainRows(plan, rows)[h - 1], c, v)
  {
    var all := rows + [row];
    assert all[..|all| - 1] == rows && all[|all| - 1] == row;
    var pre := ApplyMainRows(plan, rows);
    assert ApplyMainRows(plan, all) == ApplyMainRow(pre, row);
    ApplyMainRowSlot(pre, row, h);
  }

  // ---------------------------------------------------------------------------
  // The generation import: `parseGP1ExcelData`
  // ---------------------------------------------------------------------------

  /** The first row has at least three cells, the second and third being "Coefficient_Gen" and "Volume_Gen". */
  predicate GP1HeaderOk(rows: seq<Row>) {
    |rows| > 0 && |rows[0]| >= 3 && rows[0][1] == Str("Coefficient_Gen") && rows[0][2] == Str("Volume_Gen")
  }

  /**
   * The hour, generation coefficient and generation volume of a data row whose hour
   * parses to 1..24; a NaN coefficient or volume reads as 0.
   */
  function ReadGP1Row(row: Row): (r: Option<(int, real, int)>)
    ensures r.Some? <==> ParseInt(CellAt(row, 0)).Some? && 1 <= ParseInt(CellAt(row, 0)).value <= 24
    ensures r.Some? ==> r.value == (ParseInt(CellAt(row, 0)).value, FloatOrZero(CellAt(row, 1)), IntOrZero(CellAt(row, 2)))
    ensures r.Some? ==> 1 <= r.value.0 <= 24
  {
    match ParseInt(CellAt(row, 0))
    case None => None
    case Some(h) => if 1 <= h <= 24 then Some((h, FloatOrZero(CellAt(row, 1)), IntOrZero(CellAt(row, 2)))) else None
  }

  /** A slot with the generation coefficient and volume of an imported row. */
  function SetGP1(r: HourRecord, c: real, v: int): HourRecord {
    r.(coefficientGen := c, volumeGen := v as real)
  }

  function ApplyGP1Row(plan: seq<HourRecord>, row: Row): (r: seq<HourRecord>)
    requires |plan| == 24
    ensures |r| == 24
  {
    match ReadGP1Row(row)
    case Some((h, c, v)) => plan[h - 1 := SetGP1(plan[h - 1], c, v)]
    case None => plan
  }

  function ApplyGP1Rows(plan: seq<HourRecord>, rows: seq<Row>): (r: seq<HourRecord>)
    requires |plan| == 24
    ensures Slotted(plan) ==> Slotted(r)
    decreases |rows|
  {
    if rows == [] then plan
    else ApplyGP1Row(ApplyGP1Rows(plan, rows[..|rows| - 1]), rows[|rows| - 1])
  }

  /** The plan `parseGP1ExcelData` produces: the data rows merged into the current plan. */
  function MergedGP1(plan: seq<HourRecord>, rows: seq<Row>): (r: seq<HourRecord>)
    requires |plan| == 24
    ensures Slotted(plan) ==> Slotted(r)
  {
    ApplyGP1Rows(plan, DataRows(rows))
  }

  function LastGP1RowFor(rows: seq<Row>, h: int): Option<(real, int)>
    decreases |rows|
  {
    if rows == [] then None
    else
      match ReadGP1Row(rows[|rows| - 1])
      case Some((h', c, v)) => if h' == h then Some((c, v)) else LastGP1RowFor(rows[..|rows| - 1], h)
      case None => LastGP1RowFor(rows[..|rows| - 1], h)
  }

  function WithGP1Row(r: HourRecord, last: Option<(real, int)>): HourRecord {
    match last
    case None => r
    case Some((c, v)) => SetGP1(r, c, v)
  }

  /** The merge changes only the generation coefficient and volume, to those of the last row of the hour. */
  lemma {:induction false} ApplyGP1RowsSlot(plan: seq<HourRecord>, rows: seq<Row>, h: int)
    requires |plan| == 24 && 1 <= h <= 24
    ensures ApplyGP1Rows(plan, rows)[h - 1] == WithGP1Row(plan[h - 1], LastGP1RowFor(rows, h))
    decreases |rows|
  {
    if rows != [] {
      ApplyGP1RowsSlot(plan, rows[..|rows| - 1], h);
    }
  }

  /** Slot h - 1 after the merge: the current record with at most its two generation fields replaced. */
  lemma MergedSlot(plan: seq<HourRecord>, rows: seq<Row>, h: int)
    requires |plan| == 24 && 1 <= h <= 24
    ensures MergedGP1(plan, rows)[h - 1] == WithGP1Row(plan[h - 1], LastGP1RowFor(DataRows(rows), h))
  {
    ApplyGP1RowsSlot(plan, DataRows(rows), h);
  }

  /** The plan and the warning `handleFileChange` leaves: the import under the main header, the format warning otherwise. */
  function MainFileOutcome(plan: seq<HourRecord>, rows: seq<Row>): (r: (seq<HourRecord>, string))
    ensures r.1 == MainImported <==> MainHeaderOk(rows)
    ensures MainHeaderOk(rows) ==> r.0 == ImportedPlan(rows)
    ensures !MainHeaderOk(rows) ==> r == (plan, BadMainHeader)
  {
    if MainHeaderOk(rows) then (ImportedPlan(rows), MainImported) else (plan, BadMainHeader)
  }

  /** The plan and the warning `handleFileChangeGP1` leaves: the merge under the generation header, the format warning otherwise. */
  function GP1FileOutcome(plan: seq<HourRecord>, rows: seq<Row>): (r: (seq<HourRecord>, string))
    requires |plan| == 24
    ensures r.1 == GP1Imported <==> GP1HeaderOk(rows)
    ensures GP1HeaderOk(rows) ==> r.0 == MergedGP1(plan, rows)
    ensures !GP1HeaderOk(rows) ==> r == (plan, BadGP1Header)
  {
    if GP1HeaderOk(rows) then (MergedGP1(plan, rows), GP1Imported) else (plan, BadGP1Header)
  }

  /**
   * The "Импорт ГП1" button as wired: it clicks the one hidden file input, whose
   * change handler is the main import. Its own generation export is refused with
   * the main format warning and the plan kept, and no sheet it accepts can set a
   * generation field: every generation coefficient and volume is reset to its default.
   */
  lemma GP1ButtonAsWritten(plan: seq<HourRecord>, rows: seq<Row>)
    requires Slotted(plan)
    ensures MainFileOutcome(plan, GP1ExportRows(plan)) == (plan, BadMainHeader)
    ensures MainFileOutcome(plan, rows).1 != GP1Imported
    ensures MainHeaderOk(rows) ==>
              forall i :: 0 <= i < 24 ==>
                MainFileOutcome(plan, rows).0[i].coefficientGen == DefaultRecord(i + 1).coefficientGen
                && MainFileOutcome(plan, rows).0[i].volumeGen == DefaultRecord(i + 1).volumeGen
  {
    ExportsAreNotInterchangeable(plan);
    if MainHeaderOk(rows) {
      forall i | 0 <= i < 24
        ensures ImportedPlan(rows)[i].coefficientGen == DefaultRecord(i + 1).coefficientGen
                && ImportedPlan(rows)[i].volumeGen == DefaultRecord(i + 1).volumeGen
      {
        ImportedSlot(rows, i + 1);
      }
    }
  }

  /**
   * The generation import as evidently intended, with the button's input handled by
   * `handleFileChangeGP1`: its own generation export is accepted and leaves the plan
   * as it was, and any accepted sheet leaves every main coefficient and volume alone.
   */
  lemma GP1ButtonIntended(plan: seq<HourRecord>, rows: seq<Row>)
    requires Slotted(plan) && WholeGenVolumes(plan)
    ensures GP1FileOutcome(plan, GP1ExportRows(plan)) == (plan, GP1Imported)
    ensures forall i :: 0 <= i < 24 ==>
              GP1FileOutcome(plan, rows).0[i].coefficient == plan[i].coefficient
              && GP1FileOutcome(plan, rows).0[i].volume == plan[i].volume
  {
    GP1RoundTrip(plan);
    forall i | 0 <= i < 24
      ensures MergedGP1(plan, rows)[i].coefficient == plan[i].coefficient
              && MergedGP1(plan, rows)[i].volume == plan[i].volume
    {
      MergedSlot(plan, rows, i + 1);
    }
  }

  // ---------------------------------------------------------------------------
  // The plan editor
  // ---------------------------------------------------------------------------

  /** The body of the `parseExcelData` loop: one data row written into the plan array in place. */
  method ApplyMainRowInPlace(plan: array<HourRecord>, row: Row)
    requires plan.Length == 24
    modifies plan
    ensures plan[..] == ApplyMainRow(old(plan[..]), row)
  {
    if |row| >= 3 {
      var hour := ParseInt(row[0]);
      var coefficient := ParseFloat(row[1]);
      var volume := ParseInt(row[2]);
      if hour.Some? && coefficient.Some? && volume.Some? {
        var idx := hour.value - 1;
        if 0 <= idx < 24 {
          plan[idx] := SetMain(plan[idx], coefficient.value, volume.value);
        }
      }
    }
  }

  /** The local hour plan of the selected subject and the warning banner above it. */
  class PlanEditor {
    var slots: array<HourRecord>
    var warning: string

    predicate Valid()
      reads this, slots
    {
      Slotted(slots[..])
    }

    /** The initial state: the default plan and no warning. */
    constructor ()
      ensures Valid() && slots[..] == DefaultPlan() && warning == ""
    {
      slots := new HourRecord[24](i => DefaultRecord(i + 1));
      warning := "";
    }

    /** No subject selected, or the hours could not be fetched: back to the default plan. */
    method Reset()
      modifies this
      ensures Valid() && fresh(slots) && slots[..] == DefaultPlan() && warning == old(warning)
    {
      slots := new HourRecord[24](i => DefaultRecord(i + 1));
    }

    /** `fetchSubjectHours`: the default plan overlaid with the fetched hours. */
    method LoadFetched(hours: seq<FetchedHour>)
      modifies this
      ensures Valid() && fresh(slots) && slots[..] == OverlayPlan(hours) && warning == old(warning)
    {
      var plan := OverlayPlan(hours);
      slots := new HourRecord[24](i requires 0 <= i < 24 => plan[i]);
    }

    /** `handleCoefficientChange`: `parseFloat(value) || 0` into one slot. */
    method ChangeCoefficient(index: nat, value: string)
      requires Valid() && index < 24
      modifies slots
      ensures Valid()
      ensures slots[..] == old(slots[..])[index := old(slots[index]).(coefficient := FloatOrZero(Str(value)))]
    {
      slots[index] := slots[index].(coefficient := FloatOrZero(Str(value)));
    }

    /** `handleCoefficientGenChange`. */
    method ChangeCoefficientGen(index: nat, value: string)
      requires Valid() && index < 24
      modifies slots
      ensures Valid()
      ensures slots[..] == old(slots[..])[index := old(slots[index]).(coefficientGen := FloatOrZero(Str(value)))]
    {
      slots[index] := slots[index].(coefficientGen := FloatOrZero(Str(value)));
    }

    /** `handleVolumeChange`: `parseInt(value, 10) || 0` into one slot. */
    method ChangeVolume(index: nat, value: string)
      requires Valid() && index < 24
      modifies slots
      ensures Valid()
      ensures slots[..] == old(slots[..])[index := old(slots[index]).(volume := IntOrZero(Str(value)) as real)]
    {
      slots[index] := slots[index].(volume := IntOrZero(Str(value)) as real);
    }

    /** `handleVolumeGenChange`. */
    method ChangeVolumeGen(index: nat, value: string)
      requires Valid() && index < 24
      modifies slots
      ensures Valid()
      ensures slots[..] == old(slots[..])[index := old(slots[index]).(volumeGen := IntOrZero(Str(value)) as real)]
    {
      slots[index] := slots[index].(volumeGen := IntOrZero(Str(value)) as real);
    }

    /** `handleMessagesChange`: the text as typed. */
    method ChangeMessage(index: nat, value: string)
      requires Valid() && index < 24
      modifies slots
      ensures Valid()
      ensures slots[..] == old(slots[..])[index := old(slots[index]).(message := value)]
    {
      slots[index] := slots[index].(message := value);
    }

    /** `parseExcelData`: a fresh default plan, then each readable data row of hour 1..24 in order. */
    method ParseExcelData(rows: seq<Row>)
      modifies this
      ensures Valid() && fresh(slots) && slots[..] == ImportedPlan(rows) && warning == MainImported
    {
      var updated := new HourRecord[24](i => DefaultRecord(i + 1));
      assert updated[..] == DefaultPlan();
      var data := DataRows(rows);
      var n := 0;
      while n < |data|
        invariant 0 <= n <= |data|
        invariant updated[..] == ApplyMainRows(DefaultPlan(), data[..n])
      {
        ApplyMainRowInPlace(updated, data[n]);
        assert data[..n + 1][..n] == data[..n];
        n := n + 1;
      }
      assert data[..n] == data;
      slots := updated;
      warning := MainImported;
    }

    /** `handleFileChange` on the rows of the sheet: the header check, then the import. */
    method HandleFileChange(rows: seq<Row>)
      requires Valid()
      modifies this
      ensures Valid()
      ensures MainHeaderOk(rows) ==> slots[..] == ImportedPlan(rows) && warning == MainImported
      ensures !MainHeaderOk(rows) ==> slots == old(slots) && slots[..] == old(slots[..]) && warning == BadMainHeader
      ensures (slots[..], warning) == MainFileOutcome(old(slots[..]), rows)
    {
      if !MainHeaderOk(rows) {
        warning := BadMainHeader;
        return;
      }
      ParseExcelData(rows);
    }

    /**
     * `handleImportFromFileGP1` and the choice of a file: the click opens the hidden
     * input whose `onChange` is `handleFileChange`, so the sheet goes to the main import.
     */
    method ImportFromFileGP1(rows: seq<Row>)
      requires Valid()
      modifies this
      ensures Valid()
      ensures (slots[..], warning) == MainFileOutcome(old(slots[..]), rows)
    {
      HandleFileChange(rows);
    }

    /** `parseGP1ExcelData`: each data row of hour 1..24 written into the current plan in place. */
    method ParseGP1ExcelData(rows: seq<Row>)
      requires Valid()
      modifies this, slots
      ensures Valid() && slots == old(slots) && warning == GP1Imported
      ensures slots[..] == MergedGP1(old(slots[..]), rows)
    {
      var data := DataRows(rows);
      var n := 0;
      while n < |data|
        invariant 0 <= n <= |data|
        invariant slots == old(slots)
        invariant slots[..] == ApplyGP1Rows(old(slots[..]), data[..n])
      {
        var row := data[n];
        var hour := ParseInt(CellAt(row, 0));
        if hour.Some? {
          var idx := hour.value - 1;
          if 0 <= idx < 24 {
            slots[idx] := SetGP1(slots[idx], FloatOrZero(CellAt(row, 1)), IntOrZero(CellAt(row, 2)));
          }
        }
        assert data[..n + 1][..n] == data[..n];
        n := n + 1;
      }
      assert data[..n] == data;
      warning := GP1Imported;
    }

    /** `handleFileChangeGP1` on the rows of the sheet: the header check, then the merge. */
    method HandleFileChangeGP1(rows: seq<Row>)
      requires Valid()
      modifies this, slots
      ensures Valid() && slots == old(slots)
      ensures GP1HeaderOk(rows) ==> slots[..] == MergedGP1(old(slots[..]), rows) && warning == GP1Imported
      ensures !GP1HeaderOk(rows) ==> slots[..] == old(slots[..]) && warning == BadGP1Header
      ensures (slots[..], warning) == GP1FileOutcome(old(slots[..]), rows)
    {
      if !GP1HeaderOk(rows) {
        warning := BadGP1Header;
        return;
      }
      ParseGP1ExcelData(rows);
    }
  }

  /** Text typed without any digit is stored as 0, and a volume is cut at its decimal point. */
  lemma EditedValues(s: string)
    requires forall i :: 0 <= i < |s| ==> !IsDigit(s[i])
    ensures FloatOrZero(Str(s)) == 0.0 && IntOrZero(Str(s)) == 0
    ensures IntOrZero(Str("12.7")) == 12
  {
    NoDigitNaN(s);
    ParseIntStopsAtPoint();
  }

  // ---------------------------------------------------------------------------
  // Exports and the round trips
  // ---------------------------------------------------------------------------

  /** Every volume of the plan is a whole number, as `parseInt` reads them back. */
  predicate WholeVolumes(plan: seq<HourRecord>) {
    forall i :: 0 <= i < |plan| ==> plan[i].volume == plan[i].volume.Floor as real
  }

  predicate WholeGenVolumes(plan: seq<HourRecord>) {
    forall i :: 0 <= i < |plan| ==> plan[i].volumeGen == plan[i].volumeGen.Floor as real
  }

  /** The data rows of `handleExport`: hour, coefficient and volume of each slot. */
  function MainExportData(plan: seq<HourRecord>): (rows: seq<Row>)
    ensures |rows| == |plan|
  {
    seq(|plan|, i requires 0 <= i < |plan| => [Num(plan[i].hour as real), Num(plan[i].coefficient), Num(plan[i].volume)])
  }

  /** The sheet `handleExport` writes. */
  function MainExportRows(plan: seq<HourRecord>): seq<Row> {
    [[Str("Hour"), Str("Coefficient"), Str("Volume")]] + MainExportData(plan)
  }

  /** The data rows of `handleExportGP1`: hour, generation coefficient and generation volume. */
  function GP1ExportData(plan: seq<HourRecord>): (rows: seq<Row>)
    ensures |rows| == |plan|
  {
    seq(|plan|, i requires 0 <= i < |plan| => [Num(plan[i].hour as real), Num(plan[i].coefficientGen), Num(plan[i].volumeGen)])
  }

  /** The sheet `handleExportGP1` writes. */
  function GP1ExportRows(plan: seq<HourRecord>): seq<Row> {
    [[Str("Hour"), Str("Coefficient_Gen"), Str("Volume_Gen")]] + GP1ExportData(plan)
  }

  lemma ReadMainExportRow(plan: seq<HourRecord>, i: nat)
    requires Slotted(plan) && WholeVolumes(plan) && i < 24
    ensures ReadMainRow(MainExportData(plan)[i]) == Some((i + 1, plan[i].coefficient, plan[i].volume.Floor))
  {
    TruncOfInt(i + 1);
    TruncOfInt(plan[i].volume.Floor);
  }

  lemma {:induction false} MainExportLastRow(plan: seq<HourRecord>, n: nat, h: int)
    requires Slotted(plan) && WholeVolumes(plan) && n <= 24 && 1 <= h <= 24
    ensures LastMainRowFor(MainExportData(plan)[..n], h)
            == if h <= n then Some((plan[h - 1].coefficient, plan[h - 1].volume.Floor)) else None
    decreases n
  {
    if n > 0 {
      var d := MainExportData(plan)[..n];
      assert d[..n - 1] == MainExportData(plan)[..n - 1];
      ReadMainExportRow(plan, n - 1);
      MainExportLastRow(plan, n - 1, h);
    }
  }

  /**
   * Export then import: the sheet passes the header check and every slot gets back its
   * coefficient and volume, provided the volumes are whole; every other field is reset
   * to its default.
   */
  lemma MainRoundTrip(plan: seq<HourRecord>)
    requires Slotted(plan) && WholeVolumes(plan)
    ensures MainHeaderOk(MainExportRows(plan))
    ensures forall i :: 0 <= i < 24 ==>
              ImportedPlan(MainExportRows(plan))[i]
              == DefaultRecord(i + 1).(coefficient := plan[i].coefficient, volume := plan[i].volume)
  {
    var rows := MainExportRows(plan);
    assert DataRows(rows) == MainExportData(plan);
    assert MainExportData(plan)[..24] == MainExportData(plan);
    forall i | 0 <= i < 24
      ensures ImportedPlan(rows)[i] == DefaultRecord(i + 1).(coefficient := plan[i].coefficient, volume := plan[i].volume)
    {
      ImportedSlot(rows, i + 1);
      MainExportLastRow(plan, 24, i + 1);
    }
  }

  lemma ReadGP1ExportRow(plan: seq<HourRecord>, i: nat)
    requires Slotted(plan) && WholeGenVolumes(plan) && i < 24
    ensures ReadGP1Row(GP1ExportData(plan)[i]) == Some((i + 1, plan[i].coefficientGen, plan[i].volumeGen.Floor))
  {
    TruncOfInt(i + 1);
    TruncOfInt(plan[i].volumeGen.Floor);
  }

  lemma {:induction false} GP1ExportLastRow(plan: seq<HourRecord>, n: nat, h: int)
    requires Slotted(plan) && WholeGenVolumes(plan) && n <= 24 && 1 <= h <= 24
    ensures LastGP1RowFor(GP1ExportData(plan)[..n], h)
            == if h <= n then Some((plan[h - 1].coefficientGen, plan[h - 1].volumeGen.Floor)) else None
    decreases n
  {
    if n > 0 {
      var d := GP1ExportData(plan)[..n];
      assert d[..n - 1] == GP1ExportData(plan)[..n - 1];
      ReadGP1ExportRow(plan, n - 1);
      GP1ExportLastRow(plan, n - 1, h);
    }
  }

  /** Merging the generation export back into the plan it came from changes nothing. */
  lemma GP1RoundTrip(plan: seq<HourRecord>)
    requires Slotted(plan) && WholeGenVolumes(plan)
    ensures GP1HeaderOk(GP1ExportRows(plan))
    ensures MergedGP1(plan, GP1ExportRows(plan)) == plan
  {
    var rows := GP1ExportRows(plan);
    assert DataRows(rows) == GP1ExportData(plan);
    assert GP1ExportData(plan)[..24] == GP1ExportData(plan);
    forall i | 0 <= i < 24 ensures MergedGP1(plan, rows)[i] == plan[i] {
      MergedSlot(plan, rows, i + 1);
      GP1ExportLastRow(plan, 24, i + 1);
    }
  }

  /** Each import refuses the other's export: the header checks tell the two sheets apart. */
  lemma ExportsAreNotInterchangeable(plan: seq<HourRecord>)
    ensures !GP1HeaderOk(MainExportRows(plan)) && !MainHeaderOk(GP1ExportRows(plan))
  {
    assert |"Coefficient"| != |"Coefficient_Gen"|;
  }

  /** The generation import does not look at the first header cell. */
  lemma GP1HeaderIgnoresFirstCell(rows: seq<Row>, c: Cell)
    requires GP1HeaderOk(rows)
    ensures GP1HeaderOk([rows[0][0 := c]] + rows[1..])
  {
  }

  // ---------------------------------------------------------------------------
  // The full export
  // ---------------------------------------------------------------------------

  /** The label of time interval i: "00 - 01" up to "22 - 23", then "23 - 00". */
  function TimeInterval(i: nat): (interval: string)
    requires i < 24
    ensures |interval| == 7 && interval[..2] == Pad2(i) && interval[2..5] == " - " && interval[5..] == Pad2((i + 1) % 24)
  {
    Pad2(i) + " - " + Pad2((i + 1) % 24)
  }

  lemma TimeIntervalEnds()
    ensures TimeInterval(0) == "00 - 01" && TimeInterval(23) == "23 - 00"
  {
    assert Pad2(0) == ['0', '0'];
    assert Pad2(1) == ['0', '1'];
    assert Pad2(23) == ['2', '3'];
  }

  /** No two intervals share a label. */
  lemma TimeIntervalsDistinct(i: nat, j: nat)
    requires i < 24 && j < 24 && i != j
    ensures TimeInterval(i) != TimeInterval(j)
  {
    assert TimeInterval(i)[..2] == Pad2(i);
    assert TimeInterval(j)[..2] == Pad2(j);
    Pad2Injective(i, j);
  }

  /** The generation columns are exported unless the type is "CONSUMER"; an unknown type shows them. */
  predicate ExportsGen(typ: Option<string>) {
    typ != Some("CONSUMER")
  }

  /** `...(showGen ? [x] : [])`. */
  function IfGen(showGen: bool, x: Cell): (r: Row)
    ensures |r| == if showGen then 1 else 0
  {
    if showGen then [x] else []
  }

  function Gens(showGen: bool): nat {
    if showGen then 5 else 0
  }

  /** The column of plan value k (P1, P2, P3, F1, F2) in an export row. */
  function ValueColumn(k: nat, showGen: bool): nat {
    if showGen then 1 + 2 * k else 1 + k
  }

  /**
   * The columns every export table starts with: a first cell, then the five plan
   * values P1 to F2, each followed by its generation value when those are shown.
   */
  function ValueColumns(first: Cell, mains: Row, gens: Row, showGen: bool): (r: Row)
    requires |mains| == 5 && |gens| == 5
    ensures |r| == 6 + Gens(showGen) && r[0] == first
    ensures forall k :: 0 <= k < 5 ==> r[ValueColumn(k, showGen)] == mains[k]
    ensures showGen ==> forall k :: 0 <= k < 5 ==> r[ValueColumn(k, showGen) + 1] == gens[k]
  {
    var r := [first, mains[0]] + IfGen(showGen, gens[0]) + [mains[1]] + IfGen(showGen, gens[1])
             + [mains[2]] + IfGen(showGen, gens[2]) + [mains[3]] + IfGen(showGen, gens[3])
             + [mains[4]] + IfGen(showGen, gens[4]);
    if showGen then
      assert r == [first, mains[0], gens[0], mains[1], gens[1], mains[2], gens[2], mains[3], gens[3], mains[4], gens[4]];
      r
    else
      assert r == [first] + mains;
      r
  }

  /** One number cell per value, in order. */
  function Nums(vs: seq<real>): (cells: Row)
    ensures |cells| == |vs| && forall k :: 0 <= k < |vs| ==> cells[k] == Num(vs[k])
  {
    seq(|vs|, k requires 0 <= k < |vs| => Num(vs[k]))
  }

  /** P1 to F2 of a slot. */
  function SlotMains(d: HourRecord): (vs: seq<real>)
    ensures |vs| == 5
  {
    [d.p1, d.p2, d.p3, d.f1, d.f2]
  }

  /** The generation values of P1 to F2 of a slot. */
  function SlotGens(d: HourRecord): (vs: seq<real>)
    ensures |vs| == 5
  {
    [d.p1Gen, d.p2Gen, d.p3Gen, d.f1Gen, d.f2Gen]
  }

  /** The value columns of every export header: "Time", then "P1" to "F2", each followed by its "_Gen" column when shown. */
  function ValueHeader(showGen: bool): (h: Row)
    ensures |h| == 6 + Gens(showGen)
  {
    ValueColumns(Str("Time"), [Str("P1"), Str("P2"), Str("P3"), Str("F1"), Str("F2")],
                 [Str("P1_Gen"), Str("P2_Gen"), Str("P3_Gen"), Str("F1_Gen"), Str("F2_Gen")], showGen)
  }

  /** The six columns after the values in the subject header. */
  const SubjectHeaderTail: Row :=
    [Str("Coefficient"), Str("Coefficient_Gen"), Str("Volume"), Str("Volume_Gen"), Str("P2_Message"), Str("P2_Gen_message")]

  /** The header of the subject table in the full export. */
  function SubjectHeader(showGen: bool, showMessage: bool): (h: Row)
    ensures |h| == 12 + Gens(showGen) + (if showMessage then 1 else 0)
  {
    ValueHeader(showGen) + SubjectHeaderTail + (if showMessage then [Str("Message")] else [])
  }

  /** What `localHourPlan[index] || {}` reads past the end of the plan: every field undefined. */
  const NoRecord: HourRecord :=
    HourRecord(0, 0.0, 0.0, 0.0, 0.0, 0.0, 0.0, 0.0, 0.0, 0.0, 0.0, 0.0, 0.0, 0.0, 0.0, "", "", "")

  /** The value cells of a subject row: the interval label, then P1 to F2, each followed by its generation value when shown. */
  function RecordValues(d: HourRecord, i: nat, showGen: bool): (r: Row)
    requires i < 24
    ensures |r| == 6 + Gens(showGen)
  {
    ValueColumns(Str(TimeInterval(i)), Nums(SlotMains(d)), Nums(SlotGens(d)), showGen)
  }

  /** The five cells after the values: both coefficients as their inputs show them, both volumes and the P2 message. */
  function RecordTail(d: HourRecord): (r: Row)
    ensures |r| == 5
  {
    [Num(OrElse(d.coefficient, 1.0)), Num(OrElse(d.coefficientGen, 1.0)), Num(d.volume), Num(d.volumeGen), Str(d.p2Message)]
  }

  /** The row of time interval i in the subject table: zeros stay zeros, a zero coefficient is written as 1. */
  function SubjectRow(plan: seq<HourRecord>, i: nat, showGen: bool, showMessage: bool): (r: Row)
    requires i < 24
    ensures |r| == 11 + Gens(showGen) + (if showMessage then 1 else 0)
  {
    var d := if i < |plan| then plan[i] else NoRecord;
    RecordValues(d, i, showGen) + RecordTail(d) + (if showMessage then [Str(d.message)] else [])
  }

  /**
   * Every subject row is one cell narrower than the header: the row has no
   * P2_Gen_message cell, so with the message column on, the message lands under
   * "P2_Gen_message" and "Message" stays empty.
   */
  lemma SubjectRowOneShort(plan: seq<HourRecord>, i: nat, showGen: bool, showMessage: bool)
    requires i < |plan| == 24
    ensures |SubjectRow(plan, i, showGen, showMessage)| + 1 == |SubjectHeader(showGen, showMessage)|
    ensures showMessage ==>
              var k := 11 + Gens(showGen);
              SubjectHeader(showGen, showMessage)[k] == Str("P2_Gen_message")
              && SubjectRow(plan, i, showGen, showMessage)[k] == Str(plan[i].message)
  {
    if showMessage {
      var k := 11 + Gens(showGen);
      var d := plan[i];
      var h := SubjectHeader(showGen, showMessage);
      var r := SubjectRow(plan, i, showGen, showMessage);
      assert (ValueHeader(showGen) + SubjectHeaderTail)[k] == SubjectHeaderTail[5];
      assert h[k] == SubjectHeaderTail[5];
      assert r[k] == Str(d.message);
    }
  }

  /** The exported coefficient is what the input shows, `coefficient || 1`, not the stored value. */
  lemma ExportedCoefficient(plan: seq<HourRecord>, i: nat, showGen: bool, showMessage: bool)
    requires i < |plan| == 24
    ensures var k := 6 + Gens(showGen);
            SubjectHeader(showGen, showMessage)[k] == Str("Coefficient")
            && SubjectRow(plan, i, showGen, showMessage)[k] == Num(ShownCoefficient(plan[i]))
  {
    var k := 6 + Gens(showGen);
    var d := plan[i];
    assert (ValueHeader(showGen) + SubjectHeaderTail)[k] == SubjectHeaderTail[0];
    assert (RecordValues(d, i, showGen) + RecordTail(d))[k] == RecordTail(d)[0];
  }

  /** The cells of the row of a slot d at interval i, as `SubjectRow` builds it. */
  lemma RecordRowCells(d: HourRecord, i: nat, showGen: bool, showMessage: bool)
    requires i < 24
    ensures var v := RecordValues(d, i, showGen);
            var r := v + RecordTail(d) + (if showMessage then [Str(d.message)] else []);
            && |v| == 6 + Gens(showGen)
            && r[0] == Str(TimeInterval(i))
            && (forall k :: 0 <= k < 5 ==> r[ValueColumn(k, showGen)] == Num(SlotMains(d)[k]))
            && (showGen ==> forall k :: 0 <= k < 5 ==> r[ValueColumn(k, showGen) + 1] == Num(SlotGens(d)[k]))
            && r[|v|..] == RecordTail(d) + (if showMessage then [Str(d.message)] else [])
  {
    var v := RecordValues(d, i, showGen);
    var tail := RecordTail(d) + (if showMessage then [Str(d.message)] else []);
    assert v + RecordTail(d) + (if showMessage then [Str(d.message)] else []) == v + tail;
    assert forall c :: 0 <= c < |v| ==> (v + tail)[c] == v[c];
    assert (v + tail)[|v|..] == tail;
  }

  /**
   * The cells of subject row i: the interval label, then P1 to F2 of slot i (each
   * followed by its generation value when shown), both coefficients as their inputs
   * show them, both volumes, the P2 message, and the message when its column is on.
   * Past the end of the plan every value is 0 and every text empty.
   */
  lemma SubjectRowCells(plan: seq<HourRecord>, i: nat, showGen: bool, showMessage: bool)
    requires i < 24
    ensures var d := if i < |plan| then plan[i] else NoRecord;
            var r := SubjectRow(plan, i, showGen, showMessage);
            && r[0] == Str(TimeInterval(i))
            && (forall k :: 0 <= k < 5 ==> r[ValueColumn(k, showGen)] == Num(SlotMains(d)[k]))
            && (showGen ==> forall k :: 0 <= k < 5 ==> r[ValueColumn(k, showGen) + 1] == Num(SlotGens(d)[k]))
            && r[6 + Gens(showGen)..] == [Num(ShownCoefficient(d)), Num(ShownCoefficientGen(d)), Num(d.volume),
                                          Num(d.volumeGen), Str(d.p2Message)]
                                         + (if showMessage then [Str(d.message)] else [])
    ensures i >= |plan| ==> forall k :: 0 <= k < 5 ==> SubjectRow(plan, i, showGen, showMessage)[ValueColumn(k, showGen)] == Num(0.0)
  {
    var d := if i < |plan| then plan[i] else NoRecord;
    RecordRowCells(d, i, showGen, showMessage);
    if i >= |plan| {
      assert SlotMains(d) == [0.0, 0.0, 0.0, 0.0, 0.0];
    }
  }

  /** The subject table: its header and the 24 interval rows. */
  function SubjectTableRows(plan: seq<HourRecord>, showGen: bool, showMessage: bool): (t: seq<Row>)
    ensures |t| == 25
  {
    [SubjectHeader(showGen, showMessage)] + seq(24, i requires 0 <= i < 24 => SubjectRow(plan, i, showGen, showMessage))
  }

  /** The header of an object table. */
  function ObjectHeader(showGen: bool): (h: Row)
    ensures |h| == 7 + Gens(showGen)
  {
    ValueHeader(showGen) + [Str("P2_Message")]
  }

  /** P1 to F2 of a fetched record, each `|| 0`. */
  function FetchedMains(d: FetchedHour): (vs: seq<real>)
    ensures |vs| == 5
  {
    [d.p1.GetOr(0.0), d.p2.GetOr(0.0), d.p3.GetOr(0.0), d.f1.GetOr(0.0), d.f2.GetOr(0.0)]
  }

  /** The generation values of P1 to F2 of a fetched record, each `|| 0`. */
  function FetchedGens(d: FetchedHour): (vs: seq<real>)
    ensures |vs| == 5
  {
    [d.p1Gen.GetOr(0.0), d.p2Gen.GetOr(0.0), d.p3Gen.GetOr(0.0), d.f1Gen.GetOr(0.0), d.f2Gen.GetOr(0.0)]
  }

  /** The row of time interval i of an object: the values of the first fetched record of hour i + 1. */
  function ObjectRow(hours: seq<FetchedHour>, i: nat, showGen: bool): (r: Row)
    requires i < 24
    ensures |r| == 7 + Gens(showGen)
  {
    var d := FetchedFor(hours, i + 1);
    ValueColumns(Str(TimeInterval(i)), Nums(FetchedMains(d)), Nums(FetchedGens(d)), showGen)
    + [Str(d.p2Message.GetOr(""))]
  }

  /** `hours.find(hour => hour.hour === h) || {}`: the first fetched record of hour h, or a record of undefined fields. */
  lemma FetchedForFirst(hours: seq<FetchedHour>, h: int)
    ensures (forall k :: 0 <= k < |hours| ==> hours[k].hour != h) ==> FetchedFor(hours, h) == Missing
    ensures forall k :: 0 <= k < |hours| && hours[k].hour == h && (forall j :: 0 <= j < k ==> hours[j].hour != h) ==>
              FetchedFor(hours, h) == hours[k]
  {
    forall k | 0 <= k < |hours| && hours[k].hour == h && (forall j :: 0 <= j < k ==> hours[j].hour != h)
      ensures FetchedFor(hours, h) == hours[k]
    {
      assert FirstWithHour(hours, h) == Some(k);
    }
  }

  /**
   * The cells of row i of an object table: the interval label, then P1 to F2 of the
   * first fetched record of hour i + 1 (each followed by its generation value when
   * shown), each `|| 0`, and last its P2 message `|| ""`.
   */
  lemma ObjectRowCells(hours: seq<FetchedHour>, i: nat, showGen: bool)
    requires i < 24
    ensures var d := FetchedFor(hours, i + 1);
            var r := ObjectRow(hours, i, showGen);
            && r[0] == Str(TimeInterval(i))
            && (forall k :: 0 <= k < 5 ==> r[ValueColumn(k, showGen)] == Num(FetchedMains(d)[k]))
            && (showGen ==> forall k :: 0 <= k < 5 ==> r[ValueColumn(k, showGen) + 1] == Num(FetchedGens(d)[k]))
            && r[|r| - 1] == Str(d.p2Message.GetOr(""))
  {
    var d := FetchedFor(hours, i + 1);
    var v := ValueColumns(Str(TimeInterval(i)), Nums(FetchedMains(d)), Nums(FetchedGens(d)), showGen);
    assert forall c :: 0 <= c < |v| ==> (v + [Str(d.p2Message.GetOr(""))])[c] == v[c];
  }

  /** Value columns of zeros hold 0 in every cell after the first. */
  lemma ZeroColumns(first: Cell, showGen: bool)
    ensures var z := Nums([0.0, 0.0, 0.0, 0.0, 0.0]);
            forall c :: 1 <= c < 6 + Gens(showGen) ==> ValueColumns(first, z, z, showGen)[c] == Num(0.0)
  {
    var z := Nums([0.0, 0.0, 0.0, 0.0, 0.0]);
    var r := ValueColumns(first, z, z, showGen);
    forall c | 1 <= c < 6 + Gens(showGen)
      ensures r[c] == Num(0.0)
    {
      if showGen {
        var k := (c - 1) / 2;
        if c != ValueColumn(k, showGen) {
          assert c == ValueColumn(k, showGen) + 1;
        }
      } else {
        assert c == ValueColumn(c - 1, showGen);
      }
    }
  }

  /** Without a fetched record of hour i + 1 the row shows 0 for every value and an empty message. */
  lemma ObjectRowWithoutRecord(hours: seq<FetchedHour>, i: nat, showGen: bool)
    requires i < 24
    requires forall k :: 0 <= k < |hours| ==> hours[k].hour != i + 1
    ensures var r := ObjectRow(hours, i, showGen);
            (forall c :: 1 <= c < |r| - 1 ==> r[c] == Num(0.0)) && r[|r| - 1] == Str("")
  {
    FetchedForFirst(hours, i + 1);
    assert FetchedMains(Missing) == [0.0, 0.0, 0.0, 0.0, 0.0] && FetchedGens(Missing) == [0.0, 0.0, 0.0, 0.0, 0.0];
    var v := ValueColumns(Str(TimeInterval(i)), Nums(FetchedMains(Missing)), Nums(FetchedGens(Missing)), showGen);
    ZeroColumns(Str(TimeInterval(i)), showGen);
    assert ObjectRow(hours, i, showGen) == v + [Str("")];
    assert forall c :: 0 <= c < |v| ==> (v + [Str("")])[c] == v[c];
  }

  /** Every row of the table is as wide as its first row. */
  predicate Rectangular(t: seq<Row>) {
    forall i :: 0 <= i < |t| ==> |t[i]| == |t[0]|
  }

  /** An object table: header and 24 rows, all of the header's width. */
  function ObjectTableRows(hours: seq<FetchedHour>, showGen: bool): (t: seq<Row>)
    ensures |t| == 25
  {
    [ObjectHeader(showGen)] + seq(24, i requires 0 <= i < 24 => ObjectRow(hours, i, showGen))
  }

  /** Every row of an object table is as wide as its header. */
  lemma ObjectTableRectangular(hours: seq<FetchedHour>, showGen: bool)
    ensures Rectangular(ObjectTableRows(hours, showGen))
  {
    var t := ObjectTableRows(hours, showGen);
    forall i | 0 <= i < |t| ensures |t[i]| == |t[0]| {
      if i > 0 {
        assert t[i] == ObjectRow(hours, i - 1, showGen);
      }
    }
  }

  /** `objectHoursMap[id] || []`. */
  function HoursOf(hoursMap: map<int, seq<FetchedHour>>, id: int): seq<FetchedHour> {
    if id in hoursMap then hoursMap[id] else []
  }

  /** One element of `objectsData`: the name of an object and its table. */
  datatype ObjectData = ObjectData(objectName: string, data: seq<Row>)

  /** `objectsData`: the objects of the subject, each with its table, in list order. */
  function ObjectsData(objs: seq<PlanObject>, hoursMap: map<int, seq<FetchedHour>>): (ds: seq<ObjectData>)
    ensures |ds| == |objs|
  {
    seq(|objs|, i requires 0 <= i < |objs| =>
      ObjectData(objs[i].name, ObjectTableRows(HoursOf(hoursMap, objs[i].id), ExportsGen(objs[i].objectType))))
  }

  /** The block of one object: its name line, a blank line, its table and a blank line. */
  function Block(d: ObjectData): seq<Row> {
    [[Str("Object:"), Str(d.objectName)], []] + d.data + [[]]
  }

  /** The blocks, in order. */
  function Blocks(ds: seq<ObjectData>): seq<Row>
    decreases |ds|
  {
    if ds == [] then [] else Blocks(ds[..|ds| - 1]) + Block(ds[|ds| - 1])
  }

  /** Every table of `objectsData` is a header and 24 rows. */
  predicate TablesOf25(ds: seq<ObjectData>) {
    forall i :: 0 <= i < |ds| ==> |ds[i].data| == 25
  }

  lemma ObjectsDataTables(objs: seq<PlanObject>, hoursMap: map<int, seq<FetchedHour>>)
    ensures TablesOf25(ObjectsData(objs, hoursMap))
  {
  }

  /** With tables of 25 rows each block is 28 rows long. */
  lemma {:induction false} BlocksLength(ds: seq<ObjectData>)
    requires TablesOf25(ds)
    ensures |Blocks(ds)| == 28 * |ds|
    decreases |ds|
  {
    if ds != [] {
      BlocksLength(ds[..|ds| - 1]);
    }
  }

  /** Row 28 k + j of the blocks is row j of block k. */
  lemma {:induction false} BlocksAt(ds: seq<ObjectData>, k: nat, j: nat)
    requires TablesOf25(ds) && k < |ds| && j < 28
    ensures |Blocks(ds)| == 28 * |ds| && Blocks(ds)[28 * k + j] == Block(ds[k])[j]
    decreases |ds|
  {
    var n := |ds| - 1;
    var pre := Blocks(ds[..n]);
    BlocksLength(ds);
    BlocksLength(ds[..n]);
    assert Blocks(ds) == pre + Block(ds[n]);
    if k < n {
      assert 28 * k + j < 28 * n by {
        assert 28 * (k + 1) <= 28 * n;
      }
      BlocksAt(ds[..n], k, j);
      assert ds[..n][k] == ds[k];
    } else {
      assert 28 * k + j == |pre| + j;
    }
  }

  /** The subject the page has selected (`selectedSubject`): its name and its type. */
  datatype SubjectInfo = SubjectInfo(name: string, subjectType: Option<string>)

  /** The first rows of the full export: the subject's name line, its table and a blank line. */
  function ExportHead(s: SubjectInfo, showMessage: bool, plan: seq<HourRecord>): (head: seq<Row>)
    ensures |head| == 29
    ensures head[0] == [Str("Subject:"), Str(s.name)] && head[1] == [] && head[2] == [Str("Subject Table")]
    ensures head[3..28] == SubjectTableRows(plan, ExportsGen(s.subjectType), showMessage) && head[28] == []
  {
    [[Str("Subject:"), Str(s.name)], [], [Str("Subject Table")]]
    + SubjectTableRows(plan, ExportsGen(s.subjectType), showMessage) + [[]]
  }

  /**
   * The sheet `handleFullExport` writes: the subject's block, then one block per
   * object of the subject. With no subject selected, reading `subject_name` of
   * `undefined` throws and nothing is written: None.
   */
  function FullExport(selected: Option<SubjectInfo>, showMessage: bool, plan: seq<HourRecord>,
                      objects: seq<PlanObject>, subject: int, hoursMap: map<int, seq<FetchedHour>>): (r: Option<seq<Row>>)
    ensures r.None? <==> selected.None?
    ensures r.Some? ==> |r.value| >= 29 && r.value[..29] == ExportHead(selected.value, showMessage, plan)
  {
    if selected.None? then None
    else Some(ExportHead(selected.value, showMessage, plan) + Blocks(ObjectsData(ObjectsOfSubject(objects, subject), hoursMap)))
  }

  /** The `forEach` of `handleFullExport`: each object's name line, blank line, table and blank line pushed in turn. */
  method PushBlocks(start: seq<Row>, ds: seq<ObjectData>) returns (combined: seq<Row>)
    ensures combined == start + Blocks(ds)
  {
    combined := start;
    var k := 0;
    while k < |ds|
      invariant 0 <= k <= |ds|
      invariant combined == start + Blocks(ds[..k])
    {
      ghost var before := combined;
      combined := combined + [[Str("Object:"), Str(ds[k].objectName)]];
      combined := combined + [[]];
      combined := combined + ds[k].data;
      combined := combined + [[]];
      assert combined == before + Block(ds[k]);
      assert ds[..k + 1][..k] == ds[..k];
      k := k + 1;
    }
    assert ds[..k] == ds;
  }

  /** `handleFullExport`: the subject's block, then the blocks of the subject's objects; None when it throws. */
  method BuildFullExport(selected: Option<SubjectInfo>, showMessage: bool, plan: seq<HourRecord>,
                         objects: seq<PlanObject>, subject: int, hoursMap: map<int, seq<FetchedHour>>)
    returns (combined: Option<seq<Row>>)
    ensures combined == FullExport(selected, showMessage, plan, objects, subject, hoursMap)
  {
    if selected.None? {
      return None;
    }
    var head := ExportHead(selected.value, showMessage, plan);
    var rows := PushBlocks(head, ObjectsData(ObjectsOfSubject(objects, subject), hoursMap));
    combined := Some(rows);
  }

  /** After a 29-row head, block k starts at row 29 + 28 k with its object's name line. */
  lemma BlockStart(head: seq<Row>, ds: seq<ObjectData>, k: nat)
    requires |head| == 29 && TablesOf25(ds) && k < |ds|
    ensures |head + Blocks(ds)| == 29 + 28 * |ds|
    ensures (head + Blocks(ds))[29 + 28 * k] == [Str("Object:"), Str(ds[k].objectName)]
  {
    BlocksAt(ds, k, 0);
  }

  /**
   * The full export has 29 rows for the subject and 28 per object of the subject;
   * block k starts at row 29 + 28 k with the name of the k-th object of the subject,
   * which belongs to the selected subject.
   */
  lemma FullExportLayout(s: SubjectInfo, showMessage: bool, plan: seq<HourRecord>,
                         objects: seq<PlanObject>, subject: int, hoursMap: map<int, seq<FetchedHour>>, k: nat)
    requires k < |ObjectsOfSubject(objects, subject)|
    ensures FullExport(Some(s), showMessage, plan, objects, subject, hoursMap).Some?
    ensures var rows := FullExport(Some(s), showMessage, plan, objects, subject, hoursMap).value;
            var o := ObjectsOfSubject(objects, subject)[k];
            |rows| == 29 + 28 * |ObjectsOfSubject(objects, subject)|
            && rows[29 + 28 * k] == [Str("Object:"), Str(o.name)]
            && o in objects && o.subject == subject
  {
    var objs := ObjectsOfSubject(objects, subject);
    var ds := ObjectsData(objs, hoursMap);
    ObjectsDataTables(objs, hoursMap);
    BlockStart(ExportHead(s, showMessage, plan), ds, k);
    assert objs[k] in objs;
  }
}
