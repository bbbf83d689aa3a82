/**
 * The day and hour plan records the user dashboard reads for the selected
 * subject or object, and the lookups both of its tables perform on them:
 * the day plan of the selected owner and date, its hour rows, and the
 * default selection when nothing is selected yet.
 */
module PlanData {
  import opened Optional
  import opened Text

  /**
   * A JavaScript field that holds an id: absent (`undefined`), `null`, or a number.
   * Equality on it is `===`, under which `undefined` and `null` differ.
   */
  datatype IdField = Absent | Null | Id(id: int)

  /** `x?.id` for an optional record: `undefined` when there is no record. */
  function IdOf(x: Option<int>): (f: IdField)
    ensures !f.Null?
    ensures x.Some? <==> f.Id?
    ensures x.Some? ==> f.id == x.value
  {
    if x.Some? then Id(x.value) else Absent
  }

  /**
   * A day plan: its id, its owner (the `subject` field for subject plans, the
   * `object` field for object plans) and its date-time text.
   */
  datatype DayRecord = DayRecord(id: int, owner: IdField, date: string)

  /**
   * An hour row of a plan: the id of its day plan, its hour, and its values; a
   * `None` value is a field that is null or absent.
   */
  datatype HourRow = HourRow(
    day: IdField, hour: int,
    p1: Option<real>, p1Gen: Option<real>, p2: Option<real>, p2Gen: Option<real>,
    p3: Option<real>, p3Gen: Option<real>, f1: Option<real>, f1Gen: Option<real>)

  predicate IsDayOf(day: DayRecord, owner: Option<int>, date: string) {
    day.owner == IdOf(owner) && DatePart(day.date) == DatePart(date)
  }

  /**
   * `daysList.find(...)`: the first day plan of the selected owner whose date part
   * equals that of the selected date.
   */
  function FindDayPlan(days: seq<DayRecord>, owner: Option<int>, date: string): (r: Option<DayRecord>)
    ensures r.None? <==> forall i :: 0 <= i < |days| ==> !IsDayOf(days[i], owner, date)
    ensures r.Some? ==> exists i :: 0 <= i < |days| && days[i] == r.value && IsDayOf(days[i], owner, date)
                                    && forall j :: 0 <= j < i ==> !IsDayOf(days[j], owner, date)
  {
    if days == [] then None
    else if IsDayOf(days[0], owner, date) then Some(days[0])
    else
      var r := FindDayPlan(days[1..], owner, date);
      if r.Some? then
        var i :| 0 <= i < |days[1..]| && days[1..][i] == r.value && IsDayOf(days[1..][i], owner, date)
                  && forall j :: 0 <= j < i ==> !IsDayOf(days[1..][j], owner, date);
        assert days[i + 1] == r.value;
        assert forall j :: 0 <= j < i + 1 ==> !IsDayOf(days[j], owner, date) by {
          forall j | 0 <= j < i + 1 ensures !IsDayOf(days[j], owner, date) {
            if j > 0 {
              assert days[j] == days[1..][j - 1];
            }
          }
        }
        r
      else r
  }

  /** `dayPlan?.id`: `undefined` when no day plan was found. */
  function DayId(dayPlan: Option<DayRecord>): (f: IdField)
    ensures dayPlan.None? ==> f == Absent
    ensures dayPlan.Some? ==> f == Id(dayPlan.value.id)
  {
    IdOf(if dayPlan.Some? then Some(dayPlan.value.id) else None)
  }

  /** `hoursList.filter(hour => hour.day === dayPlan?.id)`, in list order. */
  function HoursOfDay(hours: seq<HourRow>, dayPlan: Option<DayRecord>): (r: seq<HourRow>)
    ensures |r| <= |hours|
    ensures forall x :: x in r <==> x in hours && x.day == DayId(dayPlan)
    decreases |hours|
  {
    if hours == [] then []
    else
      var rest := HoursOfDay(hours[..|hours| - 1], dayPlan);
      var last := hours[|hours| - 1];
      assert hours == hours[..|hours| - 1] + [last];
      if last.day == DayId(dayPlan) then rest + [last] else rest
  }

  /** The filter distributes over concatenation: each part keeps its hour rows of the day, in order. */
  lemma {:induction false} HoursOfDayAppend(a: seq<HourRow>, b: seq<HourRow>, dayPlan: Option<DayRecord>)
    ensures HoursOfDay(a + b, dayPlan) == HoursOfDay(a, dayPlan) + HoursOfDay(b, dayPlan)
    decreases |b|
  {
    if b == [] {
      assert a + b == a;
    } else {
      var init := b[..|b| - 1];
      assert (a + b)[..|a + b| - 1] == a + init;
      assert (a + b)[|a + b| - 1] == b[|b| - 1];
      HoursOfDayAppend(a, init, dayPlan);
    }
  }

  /** One hour row on its own is kept exactly when it belongs to the day plan. */
  lemma HoursOfDaySingle(x: HourRow, dayPlan: Option<DayRecord>)
    ensures HoursOfDay([x], dayPlan) == if x.day == DayId(dayPlan) then [x] else []
  {
    assert [x][..0] == [];
  }

  /**
   * A row whose day is `null` never belongs to a day: with a day plan it is compared
   * with a number, and without one with `undefined`. Without a day plan only the rows
   * with no day field at all are kept.
   */
  lemma NullDayDropped(hours: seq<HourRow>, dayPlan: Option<DayRecord>)
    ensures forall x :: x in HoursOfDay(hours, dayPlan) ==> !x.day.Null?
    ensures dayPlan.None? ==> forall x :: x in HoursOfDay(hours, dayPlan) <==> x in hours && x.day.Absent?
    ensures dayPlan.Some? ==> forall x :: x in HoursOfDay(hours, dayPlan) <==> x in hours && x.day == Id(dayPlan.value.id)
  {
  }

  /**
   * An illustration of `NullDayDropped` on one input: with no day plan,
   * `[{ day: null, … }].filter(hour => hour.day === undefined)` is empty.
   */
  lemma NullDayExample(hour: int)
    ensures HoursOfDay([HourRow(Null, hour, None, None, None, None, None, None, None, None)], None) == []
  {
    HoursOfDaySingle(HourRow(Null, hour, None, None, None, None, None, None, None, None), None);
  }

  /** `x || 0` on a plan value. */
  function ValueOrZero(x: Option<real>): real {
    x.GetOr(0.0)
  }

  /**
   * The selection effect: with nothing selected (`0` is falsy) and a non-empty
   * list, the first id is selected; otherwise the selection is kept.
   */
  function DefaultSelection(selected: int, ids: seq<int>): (r: int)
    ensures selected != 0 ==> r == selected
    ensures selected == 0 && |ids| > 0 ==> r == ids[0]
    ensures |ids| == 0 ==> r == selected
  {
    if selected == 0 && |ids| > 0 then ids[0] else selected
  }

  /** The effect reruns on every change of the list; running it again changes nothing. */
  lemma DefaultSelectionStable(selected: int, ids: seq<int>)
    ensures DefaultSelection(DefaultSelection(selected, ids), ids) == DefaultSelection(selected, ids)
    ensures DefaultSelection(selected, ids) == 0 || DefaultSelection(selected, ids) == selected
            || DefaultSelection(selected, ids) in ids
  {
  }
}
