/**
 * The user dashboard's object table: the objects of the selected subject, the
 * status string of each object, the default object selection, and the hour
 * rows of the selected object's plan.
 */
module ObjectsTable {
  import opened Optional
  import opened Text
  import opened PlanData

  /** An object (a metering point) of a subject. */
  datatype PlanObject = PlanObject(id: int, subject: int, name: string, objectType: Option<string>)

  /** `objectsList.filter(object => object.subject === subject)`, in list order. */
  function ObjectsOfSubject(objects: seq<PlanObject>, subject: int): (r: seq<PlanObject>)
    ensures |r| <= |objects|
    ensures forall o :: o in r <==> o in objects && o.subject == subject
    decreases |objects|
  {
    if objects == [] then []
    else
      var rest := ObjectsOfSubject(objects[1..], subject);
      assert objects == [objects[0]] + objects[1..];
      if objects[0].subject == subject then [objects[0]] + rest else rest
  }

  function Ids(objects: seq<PlanObject>): (r: seq<int>)
    ensures |r| == |objects| && forall i :: 0 <= i < |objects| ==> r[i] == objects[i].id
  {
    seq(|objects|, i requires 0 <= i < |objects| => objects[i].id)
  }

  /** The filter distributes over concatenation: each part keeps its matching objects, in order. */
  lemma {:induction false} ObjectsOfSubjectAppend(a: seq<PlanObject>, b: seq<PlanObject>, subject: int)
    ensures ObjectsOfSubject(a + b, subject) == ObjectsOfSubject(a, subject) + ObjectsOfSubject(b, subject)
    decreases |a|
  {
    if a == [] {
      assert a + b == b;
    } else {
      assert (a + b)[0] == a[0] && (a + b)[1..] == a[1..] + b;
      ObjectsOfSubjectAppend(a[1..], b, subject);
    }
  }

  /** Appending one object appends it to the filtered list exactly when it belongs to the subject. */
  lemma ObjectsOfSubjectSnoc(objects: seq<PlanObject>, o: PlanObject, subject: int)
    ensures ObjectsOfSubject(objects + [o], subject)
            == ObjectsOfSubject(objects, subject) + (if o.subject == subject then [o] else [])
  {
    ObjectsOfSubjectAppend(objects, [o], subject);
    assert [o][1..] == [];
  }

  /** A list without objects of the subject filters to nothing. */
  lemma {:induction false} NoObjectsOfSubject(objects: seq<PlanObject>, subject: int)
    requires forall j :: 0 <= j < |objects| ==> objects[j].subject != subject
    ensures ObjectsOfSubject(objects, subject) == []
    decreases |objects|
  {
    if objects != [] {
      NoObjectsOfSubject(objects[1..], subject);
    }
  }

  /** The first object of the filtered list is the first object of the subject in the whole list. */
  lemma FirstObjectOfSubject(objects: seq<PlanObject>, subject: int, i: nat)
    requires i < |objects| && objects[i].subject == subject
    requires forall j :: 0 <= j < i ==> objects[j].subject != subject
    ensures |ObjectsOfSubject(objects, subject)| > 0 && ObjectsOfSubject(objects, subject)[0] == objects[i]
  {
    var front := objects[..i];
    var back := objects[i..];
    assert objects == front + back;
    ObjectsOfSubjectAppend(front, back, subject);
    NoObjectsOfSubject(front, subject);
    assert back[0] == objects[i];
  }

  /**
   * The object selected by default, when none is selected yet: the id of the first
   * object of the subject, in list order, or 0 when the subject has no object.
   */
  lemma DefaultObjectOfSubject(selected: int, objects: seq<PlanObject>, subject: int)
    requires selected == 0
    ensures var r := DefaultSelection(selected, Ids(ObjectsOfSubject(objects, subject)));
            && ((forall i :: 0 <= i < |objects| ==> objects[i].subject != subject) ==> r == 0)
            && forall i :: (0 <= i < |objects| && objects[i].subject == subject
                            && forall j :: 0 <= j < i ==> objects[j].subject != subject) ==> r == objects[i].id
  {
    var mine := ObjectsOfSubject(objects, subject);
    if mine != [] {
      assert mine[0] in mine;
    }
    forall i | 0 <= i < |objects| && objects[i].subject == subject
               && (forall j :: 0 <= j < i ==> objects[j].subject != subject)
      ensures DefaultSelection(selected, Ids(mine)) == objects[i].id
    {
      FirstObjectOfSubject(objects, subject, i);
    }
  }

  // ---------------------------------------------------------------------------
  // The status string
  // ---------------------------------------------------------------------------

  const NoData: string := "Нет данных"

  /** The k-th of the ten status keys, in display order. */
  function StatusKey(k: nat): string
    requires k < 10
  {
    ["P1_Status", "P1_Gen_Status", "P2_Status", "P2_Gen_Status", "P3_Status", "P3_Gen_Status",
     "F1_Status", "F1_Gen_Status", "F2_Status", "F2_Gen_Status"][k]
  }

  /** The abbreviation shown for the k-th status key. */
  function Abbreviation(k: nat): string
    requires k < 10
  {
    ["П1", "ГП1", "П2", "ГП2", "П3", "ГП3", "Ф1", "ГФ1", "Ф2", "ГФ2"][k]
  }

  predicate Completed(statuses: map<string, string>, k: nat)
    requires k < 10
  {
    StatusKey(k) in statuses && statuses[StatusKey(k)] == "COMPLETED"
  }

  /** The mark of status key k: `-abbreviation-` when it is completed, nothing otherwise. */
  function Mark(statuses: map<string, string>, k: nat): string
    requires k < 10
  {
    if Completed(statuses, k) then "-" + Abbreviation(k) + "-" else ""
  }

  /** The marks of the ten status keys, in key order. */
  function MarkList(statuses: map<string, string>): (ms: seq<string>)
    ensures |ms| == 10
  {
    seq(10, k requires 0 <= k < 10 => Mark(statuses, k))
  }

  /** `parts.join('')`. */
  function Concat(parts: seq<string>): string {
    if parts == [] then "" else parts[0] + Concat(parts[1..])
  }

  /** The status cell of an object: its completed plans, or "Нет данных". */
  function StatusDisplayString(statuses: Option<map<string, string>>): (r: string)
    ensures statuses.None? || |statuses.value| == 0 ==> r == NoData
    ensures r != ""
  {
    if statuses.None? || |statuses.value| == 0 then NoData
    else if Concat(MarkList(statuses.value)) == "" then NoData
    else Concat(MarkList(statuses.value))
  }

  /** The first k parts joined. */
  function ConcatUpTo(parts: seq<string>, k: nat): string
    requires k <= |parts|
  {
    if k == 0 then "" else ConcatUpTo(parts, k - 1) + parts[k - 1]
  }

  lemma {:induction false} ConcatUpToAll(parts: seq<string>, k: nat)
    requires k <= |parts|
    ensures ConcatUpTo(parts, k) + Concat(parts[k..]) == Concat(parts)
  {
    if k > 0 {
      ConcatUpToAll(parts, k - 1);
      assert parts[k - 1..][1..] == parts[k..];
      assert ConcatUpTo(parts, k) + Concat(parts[k..]) == ConcatUpTo(parts, k - 1) + (parts[k - 1] + Concat(parts[k..]));
    } else {
      assert parts[0..] == parts;
    }
  }

  /** `generateStatusDisplayString`: appends the mark of each completed plan in key order. */
  method GenerateStatusDisplayString(statuses: Option<map<string, string>>) returns (display: string)
    ensures display == StatusDisplayString(statuses)
  {
    if statuses.None? || |statuses.value| == 0 {
      return NoData;
    }
    var st := statuses.value;
    ghost var marks := MarkList(st);
    display := "";
    var k := 0;
    while k < 10
      invariant 0 <= k <= 10
      invariant display == ConcatUpTo(marks, k)
    {
      if StatusKey(k) in st && st[StatusKey(k)] == "COMPLETED" {
        display := display + ("-" + Abbreviation(k) + "-");
      }
      k := k + 1;
    }
    ConcatUpToAll(marks, 10);
    assert marks[10..] == [];
    if display == "" {
      display := NoData;
    }
  }

  /** A mark: empty, or some text without '-' between two '-'. */
  predicate IsMark(p: string) {
    p == "" || (|p| >= 2 && p[0] == '-' && p[|p| - 1] == '-' && '-' !in p[1..|p| - 1])
  }

  /** The text between the two '-' of a mark. */
  function Inner(p: string): string {
    if |p| >= 2 then p[1..|p| - 1] else ""
  }

  /** Splitting "-a-" followed by more text yields "", a, then the tokens of the rest. */
  lemma SplitMark(a: string, rest: string)
    requires '-' !in a
    ensures Split(['-'] + (a + ['-'] + rest), '-') == ["", a] + Split(rest, '-')
  {
    SplitLeading(a + ['-'] + rest, '-');
    SplitFirst(a, rest, '-');
  }

  /** Splitting peels the text of a leading non-empty mark off. */
  lemma SplitConcat(parts: seq<string>)
    requires parts != [] && IsMark(parts[0])
    ensures Split(Concat(parts), '-')
            == (if parts[0] == "" then [] else ["", Inner(parts[0])]) + Split(Concat(parts[1..]), '-')
  {
    var p := parts[0];
    var rest := Concat(parts[1..]);
    assert Concat(parts) == p + rest;
    if p != "" {
      var a := Inner(p);
      assert p == ['-'] + a + ['-'];
      assert p + rest == ['-'] + (a + ['-'] + rest);
      SplitMark(a, rest);
    } else {
      assert p + rest == rest;
    }
  }

  /** Every token of a concatenation of marks is empty or the text of one of its marks. */
  lemma {:induction false} TokensAreMarks(parts: seq<string>)
    requires forall j :: 0 <= j < |parts| ==> IsMark(parts[j])
    ensures forall t :: t in Split(Concat(parts), '-') ==>
              t == "" || exists j :: 0 <= j < |parts| && parts[j] != "" && t == Inner(parts[j])
  {
    if parts != [] {
      var tail := parts[1..];
      TokensAreMarks(tail);
      SplitConcat(parts);
      forall t | t in Split(Concat(parts), '-') && t != ""
        ensures exists j :: 0 <= j < |parts| && parts[j] != "" && t == Inner(parts[j])
      {
        if t in Split(Concat(tail), '-') {
          var j :| 0 <= j < |tail| && tail[j] != "" && t == Inner(tail[j]);
          assert parts[j + 1] == tail[j];
        } else {
          assert parts[0] != "" && t == Inner(parts[0]);
        }
      }
    }
  }

  /** The text of every non-empty mark is a token of the concatenation. */
  lemma {:induction false} MarksAreTokens(parts: seq<string>)
    requires forall j :: 0 <= j < |parts| ==> IsMark(parts[j])
    ensures forall j :: 0 <= j < |parts| && parts[j] != "" ==> Inner(parts[j]) in Split(Concat(parts), '-')
  {
    if parts != [] {
      var tail := parts[1..];
      MarksAreTokens(tail);
      SplitConcat(parts);
      forall j | 0 <= j < |parts| && parts[j] != ""
        ensures Inner(parts[j]) in Split(Concat(parts), '-')
      {
        if j > 0 {
          assert parts[j] == tail[j - 1];
        }
      }
    }
  }

  lemma {:induction false} ConcatEmpty(parts: seq<string>)
    ensures Concat(parts) == "" <==> forall j :: 0 <= j < |parts| ==> parts[j] == ""
  {
    if parts != [] {
      ConcatEmpty(parts[1..]);
      assert forall j :: 1 <= j < |parts| ==> parts[j] == parts[1..][j - 1];
    }
  }

  lemma {:induction false} ConcatStartsWithDash(parts: seq<string>)
    requires forall j :: 0 <= j < |parts| ==> IsMark(parts[j])
    ensures Concat(parts) == "" || Concat(parts)[0] == '-'
  {
    if parts != [] {
      ConcatStartsWithDash(parts[1..]);
    }
  }

  lemma MarkFacts(statuses: map<string, string>, k: nat)
    requires k < 10
    ensures IsMark(Mark(statuses, k))
    ensures Mark(statuses, k) != "" <==> Completed(statuses, k)
    ensures Completed(statuses, k) ==> Inner(Mark(statuses, k)) == Abbreviation(k)
  {
    var a := Abbreviation(k);
    assert '-' !in a && a != "";
    if Completed(statuses, k) {
      var m := Mark(statuses, k);
      assert m[1..|m| - 1] == a;
    }
  }

  lemma AbbreviationsDistinct(i: nat, j: nat)
    requires i < j < 10
    ensures Abbreviation(i) != Abbreviation(j)
  {
  }

  lemma MarkListFacts(statuses: map<string, string>)
    ensures forall k :: 0 <= k < 10 ==> IsMark(MarkList(statuses)[k])
    ensures forall k :: 0 <= k < 10 ==> (MarkList(statuses)[k] != "" <==> Completed(statuses, k))
    ensures forall k :: 0 <= k < 10 && Completed(statuses, k) ==> Inner(MarkList(statuses)[k]) == Abbreviation(k)
  {
    forall k | 0 <= k < 10 ensures IsMark(MarkList(statuses)[k]) && (MarkList(statuses)[k] != "" <==> Completed(statuses, k))
      && (Completed(statuses, k) ==> Inner(MarkList(statuses)[k]) == Abbreviation(k))
    {
      MarkFacts(statuses, k);
    }
  }

  /** "Нет данных" is shown for a non-empty status map exactly when no plan is completed. */
  lemma StatusStringNoData(statuses: map<string, string>)
    requires |statuses| > 0
    ensures StatusDisplayString(Some(statuses)) == NoData <==> forall k :: 0 <= k < 10 ==> !Completed(statuses, k)
  {
    var ms := MarkList(statuses);
    MarkListFacts(statuses);
    ConcatEmpty(ms);
    ConcatStartsWithDash(ms);
    assert NoData[0] != '-';
  }

  /** Plan k's abbreviation is a token of the joined marks exactly when plan k is completed. */
  lemma TokenIffCompleted(statuses: map<string, string>, k: nat)
    requires k < 10
    ensures Completed(statuses, k) <==> Abbreviation(k) in Split(Concat(MarkList(statuses)), '-')
  {
    var ms := MarkList(statuses);
    var tokens := Split(Concat(ms), '-');
    MarkListFacts(statuses);
    if Completed(statuses, k) {
      MarksAreTokens(ms);
      assert Inner(ms[k]) in tokens;
    }
    if Abbreviation(k) in tokens {
      TokensAreMarks(ms);
      var j :| 0 <= j < 10 && ms[j] != "" && Abbreviation(k) == Inner(ms[j]);
      assert Inner(ms[j]) == Abbreviation(j);
      if j < k {
        AbbreviationsDistinct(j, k);
      } else if k < j {
        AbbreviationsDistinct(k, j);
      }
      assert j == k;
    }
  }

  /**
   * The status string names exactly the completed plans: a plan's abbreviation is
   * one of its '-'-separated tokens if and only if that plan is completed.
   */
  lemma StatusStringDecodes(statuses: map<string, string>)
    requires StatusDisplayString(Some(statuses)) != NoData
    ensures forall k :: 0 <= k < 10 ==>
              (Completed(statuses, k) <==> Abbreviation(k) in Split(StatusDisplayString(Some(statuses)), '-'))
  {
    assert StatusDisplayString(Some(statuses)) == Concat(MarkList(statuses));
    forall k | 0 <= k < 10
      ensures Completed(statuses, k) <==> Abbreviation(k) in Split(Concat(MarkList(statuses)), '-')
    {
      TokenIffCompleted(statuses, k);
    }
  }

  // ---------------------------------------------------------------------------
  // The hour rows
  // ---------------------------------------------------------------------------

  /** The selected object's hour plan: the rows of its day plan, in the order the server sent them. */
  function ObjectHourPlan(days: seq<DayRecord>, hours: seq<HourRow>, obj: Option<int>, date: string): (r: seq<HourRow>)
    ensures forall x :: x in r <==> x in hours && x.day == DayId(FindDayPlan(days, obj, date))
  {
    HoursOfDay(hours, FindDayPlan(days, obj, date))
  }

  /** Generation columns are shown for "ЭПО" objects only. */
  predicate ShowsGen(objectType: Option<string>) {
    objectType == Some("ЭПО")
  }

  /** The P1, P2, P3 and F1 values of a row, in column order. */
  function MainValues(row: HourRow): (vs: seq<Option<real>>)
    ensures |vs| == 4
  {
    [row.p1, row.p2, row.p3, row.f1]
  }

  /** The generation values of a row, in the same order. */
  function GenValues(row: HourRow): (vs: seq<Option<real>>)
    ensures |vs| == 4
  {
    [row.p1Gen, row.p2Gen, row.p3Gen, row.f1Gen]
  }

  /**
   * The cells of the row of time interval i: P1, P2, P3, F1, each followed by its
   * generation value for "ЭПО" objects; a missing row or value shows 0.
   */
  function HourCells(plan: seq<HourRow>, i: nat, objectType: Option<string>): (r: seq<real>)
    ensures |r| == if ShowsGen(objectType) then 8 else 4
    ensures i >= |plan| ==> forall k :: 0 <= k < |r| ==> r[k] == 0.0
    ensures i < |plan| ==> forall k :: 0 <= k < 4 ==>
              r[if ShowsGen(objectType) then 2 * k else k] == ValueOrZero(MainValues(plan[i])[k])
    ensures i < |plan| && ShowsGen(objectType) ==> forall k :: 0 <= k < 4 ==>
              r[2 * k + 1] == ValueOrZero(GenValues(plan[i])[k])
  {
    if i >= |plan| then (if ShowsGen(objectType) then [0.0, 0.0, 0.0, 0.0, 0.0, 0.0, 0.0, 0.0] else [0.0, 0.0, 0.0, 0.0])
    else
      var row := plan[i];
      if ShowsGen(objectType) then
        [ValueOrZero(row.p1), ValueOrZero(row.p1Gen), ValueOrZero(row.p2), ValueOrZero(row.p2Gen),
         ValueOrZero(row.p3), ValueOrZero(row.p3Gen), ValueOrZero(row.f1), ValueOrZero(row.f1Gen)]
      else [ValueOrZero(row.p1), ValueOrZero(row.p2), ValueOrZero(row.p3), ValueOrZero(row.f1)]
  }

  /** The table rows are positional: row i shows the i-th row received, whatever its hour. */
  lemma HourCellsPositional(plan: seq<HourRow>, i: nat, objectType: Option<string>)
    requires i < |plan|
    ensures HourCells(plan, i, objectType)[0] == ValueOrZero(plan[i].p1)
    ensures forall other: seq<HourRow> :: i < |other| && other[i] == plan[i] ==>
              HourCells(other, i, objectType) == HourCells(plan, i, objectType)
  {
  }
}
