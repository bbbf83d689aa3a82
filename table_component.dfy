/**
 * The form constructor's table: the merge of several named series of dated
 * values into one date-keyed map, the projection of that map into rectangular
 * rows (for the export of one subject and for the sub-table on screen), the
 * sheet name of the export, and the toggles of the view.
 */
module TableComponent {
  import opened Optional
  import opened Seqs
  import opened Text
  import opened Sheet

  // ---------------------------------------------------------------------------
  // Series and the date-value map
  // ---------------------------------------------------------------------------

  /** One element of an hourly value: its hour and its value (`None` is null or undefined). */
  datatype HourItem = HourItem(hour: nat, value: Option<real>)

  /** The value of a dated item: one number (or null), or an array of hourly values. */
  datatype Value = Scalar(v: Option<real>) | Hourly(items: seq<HourItem>)

  datatype DateItem = DateItem(date: string, value: Value)

  /** A named result series: its dated values (`date_value`, possibly missing) and its raw value. */
  datatype Series = Series(name: string, dateValue: Option<seq<DateItem>>, value: Option<real>) {
    /** The dated items; none when `date_value` is missing. */
    function Dates(): seq<DateItem> {
      if dateValue.Some? then dateValue.value else []
    }
  }

  /** Every series has its `date_value`; `res.date_value.forEach` throws on one that has not. */
  predicate AllDated(data: seq<Series>) {
    forall i :: 0 <= i < |data| ==> data[i].dateValue.Some?
  }

  /**
   * The object stored under one date. Hour keys map to a series-name map; the scalar
   * values of the series sit under their names. `hourKeys` lists the hour keys in
   * ascending order and `names` the series-name keys in the order they were created,
   * which is the order JavaScript enumerates integer-like and other keys in.
   */
  datatype Entry = Entry(hours: map<nat, map<string, Option<real>>>, hourKeys: seq<nat>,
                         scalars: map<string, Option<real>>, names: seq<string>)

  /** `dateValueMap`: its dates in creation order and the object of each date. */
  datatype DateValueMap = DateValueMap(dates: seq<string>, entries: map<string, Entry>)

  const EmptyEntry: Entry := Entry(map[], [], map[], [])
  const EmptyMap: DateValueMap := DateValueMap([], map[])

  /** `if (!dateValueMap[date]) dateValueMap[date] = {}`. */
  function TouchDate(dm: DateValueMap, date: string): (r: DateValueMap)
    ensures date in r.entries
  {
    if date in dm.entries then dm else DateValueMap(dm.dates + [date], dm.entries[date := EmptyEntry])
  }

  /** `dateValueMap[date][name] = value`. */
  function PutScalar(e: Entry, name: string, v: Option<real>): Entry {
    Entry(e.hours, e.hourKeys, e.scalars[name := v], if name in e.scalars then e.names else e.names + [name])
  }

  /** `if (!entry[hour]) entry[hour] = {}; entry[hour][name] = value`. */
  function PutHour(e: Entry, hour: nat, name: string, v: Option<real>): Entry {
    var cell := if hour in e.hours then e.hours[hour] else map[];
    Entry(e.hours[hour := cell[name := v]], if hour in e.hours then e.hourKeys else Insert(hour, e.hourKeys), e.scalars, e.names)
  }

  /** The writes the merge performs, one at a time. */
  datatype Write =
    | Visit(date: string)
    | StoreScalar(date: string, name: string, v: Option<real>)
    | StoreHour(date: string, hour: nat, name: string, v: Option<real>)

  function Apply(dm: DateValueMap, w: Write): DateValueMap {
    match w
    case Visit(d) => TouchDate(dm, d)
    case StoreScalar(d, n, v) =>
      var t := TouchDate(dm, d);
      t.(entries := t.entries[d := PutScalar(t.entries[d], n, v)])
    case StoreHour(d, h, n, v) =>
      var t := TouchDate(dm, d);
      t.(entries := t.entries[d := PutHour(t.entries[d], h, n, v)])
  }

  function ApplyAll(dm: DateValueMap, ws: seq<Write>): DateValueMap
    decreases |ws|
  {
    if ws == [] then dm else Apply(ApplyAll(dm, ws[..|ws| - 1]), ws[|ws| - 1])
  }

  /** The writes of an hourly value, in array order. */
  function HourWrites(date: string, name: string, hs: seq<HourItem>): (ws: seq<Write>)
    ensures |ws| == |hs|
    decreases |hs|
  {
    if hs == [] then []
    else HourWrites(date, name, hs[..|hs| - 1]) + [StoreHour(date, hs[|hs| - 1].hour, name, hs[|hs| - 1].value)]
  }

  /** The writes of one dated item of the series `name`. */
  function ItemWrites(name: string, item: DateItem): seq<Write> {
    [Visit(item.date)]
    + match item.value
      case Hourly(hs) => HourWrites(item.date, name, hs)
      case Scalar(v) => [StoreScalar(item.date, name, v)]
  }

  function ItemsWrites(name: string, items: seq<DateItem>): seq<Write>
    decreases |items|
  {
    if items == [] then [] else ItemsWrites(name, items[..|items| - 1]) + ItemWrites(name, items[|items| - 1])
  }

  /** Every write of the merge: series by series, item by item, hour by hour. */
  function Writes(data: seq<Series>): seq<Write>
    decreases |data|
  {
    if data == [] then [] else Writes(data[..|data| - 1]) + ItemsWrites(data[|data| - 1].name, data[|data| - 1].Dates())
  }

  /** The merged map of a subject's series. */
  function Aggregate(data: seq<Series>): (dm: DateValueMap)
    ensures MapWellFormed(dm)
  {
    MapFoldWellFormed(Writes(data));
    ApplyAll(EmptyMap, Writes(data))
  }

  lemma ApplyAllSnoc(dm: DateValueMap, ws: seq<Write>, w: Write)
    ensures ApplyAll(dm, ws + [w]) == Apply(ApplyAll(dm, ws), w)
  {
    assert (ws + [w])[..|ws|] == ws;
  }

  lemma {:induction false} ApplyAllConcat(dm: DateValueMap, a: seq<Write>, b: seq<Write>)
    ensures ApplyAll(dm, a + b) == ApplyAll(ApplyAll(dm, a), b)
    decreases |b|
  {
    if b == [] {
      assert a + b == a;
    } else {
      var b' := b[..|b| - 1];
      assert (a + b)[..|a + b| - 1] == a + b';
      ApplyAllConcat(dm, a, b');
    }
  }

  /** The view's two-step update of an hour key is `PutHour`. */
  lemma HourUpdate(e0: Entry, hour: nat, name: string, v: Option<real>)
    ensures var e1 := if hour !in e0.hours then e0.(hours := e0.hours[hour := map[]], hourKeys := Insert(hour, e0.hourKeys)) else e0;
            e1.(hours := e1.hours[hour := e1.hours[hour][name := v]]) == PutHour(e0, hour, name, v)
  {
    var e1 := if hour !in e0.hours then e0.(hours := e0.hours[hour := map[]], hourKeys := Insert(hour, e0.hourKeys)) else e0;
    assert e1.hours[hour := e1.hours[hour][name := v]] == PutHour(e0, hour, name, v).hours;
  }

  /** The innermost loop: the hourly values of one dated item stored under their hours. */
  method StoreHours(dm0: DateValueMap, date: string, name: string, hs: seq<HourItem>) returns (dm: DateValueMap)
    requires date in dm0.entries
    ensures dm == ApplyAll(dm0, HourWrites(date, name, hs))
  {
    dm := dm0;
    var k := 0;
    while k < |hs|
      invariant 0 <= k <= |hs| && date in dm.entries
      invariant dm == ApplyAll(dm0, HourWrites(date, name, hs[..k]))
    {
      var hour := hs[k].hour;
      var e := dm.entries[date];
      ghost var e0 := e;
      if hour !in e.hours {
        e := e.(hours := e.hours[hour := map[]], hourKeys := Insert(hour, e.hourKeys));
      }
      e := e.(hours := e.hours[hour := e.hours[hour][name := hs[k].value]]);
      HourUpdate(e0, hour, name, hs[k].value);
      ghost var w := StoreHour(date, hour, name, hs[k].value);
      assert hs[..k + 1][..k] == hs[..k];
      ApplyAllSnoc(dm0, HourWrites(date, name, hs[..k]), w);
      dm := dm.(entries := dm.entries[date := e]);
      k := k + 1;
    }
    assert hs[..k] == hs;
  }

  /** The body of the middle loop: one dated item of the series `name`. */
  method MergeItem(dm0: DateValueMap, name: string, item: DateItem) returns (dm: DateValueMap)
    ensures dm == ApplyAll(dm0, ItemWrites(name, item))
  {
    var date := item.date;
    dm := dm0;
    if date !in dm.entries {
      dm := DateValueMap(dm.dates + [date], dm.entries[date := EmptyEntry]);
    }
    assert dm == ApplyAll(dm0, [Visit(date)]);
    match item.value {
      case Hourly(hs) =>
        dm := StoreHours(dm, date, name, hs);
      case Scalar(v) =>
        ghost var w := StoreScalar(date, name, v);
        assert dm.(entries := dm.entries[date := PutScalar(dm.entries[date], name, v)]) == Apply(dm, w);
        ApplyAllSnoc(dm0, [Visit(date)], w);
        dm := dm.(entries := dm.entries[date := PutScalar(dm.entries[date], name, v)]);
    }
    ApplyAllConcat(dm0, [Visit(date)], ItemWrites(name, item)[1..]);
    assert ItemWrites(name, item) == [Visit(date)] + ItemWrites(name, item)[1..];
  }

  /** The middle loop: every dated item of one series. */
  method MergeSeries(dm0: DateValueMap, res: Series) returns (dm: DateValueMap)
    ensures dm == ApplyAll(dm0, ItemsWrites(res.name, res.Dates()))
  {
    dm := dm0;
    var j := 0;
    while j < |res.Dates()|
      invariant 0 <= j <= |res.Dates()|
      invariant dm == ApplyAll(dm0, ItemsWrites(res.name, res.Dates()[..j]))
    {
      ghost var before := ItemsWrites(res.name, res.Dates()[..j]);
      dm := MergeItem(dm, res.name, res.Dates()[j]);
      ApplyAllConcat(dm0, before, ItemWrites(res.name, res.Dates()[j]));
      assert res.Dates()[..j + 1][..j] == res.Dates()[..j];
      j := j + 1;
    }
    assert res.Dates()[..j] == res.Dates();
  }

  /** The writes of one more series extend those of the series before it. */
  lemma WritesPrefixStep(data: seq<Series>, i: nat)
    requires i < |data|
    ensures Writes(data[..i + 1]) == Writes(data[..i]) + ItemsWrites(data[i].name, data[i].Dates())
  {
    assert data[..i + 1][..i] == data[..i];
  }

  /** The merge as the view writes it: nested loops updating the map in place. */
  method BuildDateValueMap(data: seq<Series>) returns (dm: Option<DateValueMap>)
    ensures dm.None? <==> !AllDated(data)
    ensures dm.Some? ==> dm.value == Aggregate(data)
  {
    var acc := EmptyMap;
    var i := 0;
    while i < |data|
      invariant 0 <= i <= |data|
      invariant forall k :: 0 <= k < i ==> data[k].dateValue.Some?
      invariant acc == ApplyAll(EmptyMap, Writes(data[..i]))
    {
      if data[i].dateValue.None? {
        assert !AllDated(data);
        return None;
      }
      assert forall k :: 0 <= k < i + 1 ==> data[k].dateValue.Some?;
      ghost var before := Writes(data[..i]);
      ghost var step := ItemsWrites(data[i].name, data[i].Dates());
      acc := MergeSeries(acc, data[i]);
      ApplyAllConcat(EmptyMap, before, step);
      WritesPrefixStep(data, i);
      i := i + 1;
    }
    assert data[..i] == data;
    return Some(acc);
  }

  // ---------------------------------------------------------------------------
  // What the merge stores: a reference over the flat list of writes
  // ---------------------------------------------------------------------------

  /** The object under `date`, or the empty object a first visit would create. */
  function EntryOf(dm: DateValueMap, date: string): Entry {
    if date in dm.entries then dm.entries[date] else EmptyEntry
  }

  /** The effect of one write on the object of its own date. */
  function Step(e: Entry, w: Write): Entry {
    match w
    case Visit(_) => e
    case StoreScalar(_, n, v) => PutScalar(e, n, v)
    case StoreHour(_, h, n, v) => PutHour(e, h, n, v)
  }

  /** The object of `date` after the writes `ws`, folding only the writes of that date. */
  function EntryFold(ws: seq<Write>, date: string): Entry
    decreases |ws|
  {
    if ws == [] then EmptyEntry
    else
      var e := EntryFold(ws[..|ws| - 1], date);
      if ws[|ws| - 1].date == date then Step(e, ws[|ws| - 1]) else e
  }

  /** A write touches only the object of its own date. */
  lemma ApplyEntry(dm: DateValueMap, w: Write, date: string)
    ensures EntryOf(Apply(dm, w), date) == if w.date == date then Step(EntryOf(dm, date), w) else EntryOf(dm, date)
  {
  }

  lemma {:induction false} EntryOfAll(ws: seq<Write>, date: string)
    ensures EntryOf(ApplyAll(EmptyMap, ws), date) == EntryFold(ws, date)
    decreases |ws|
  {
    if ws != [] {
      EntryOfAll(ws[..|ws| - 1], date);
      ApplyEntry(ApplyAll(EmptyMap, ws[..|ws| - 1]), ws[|ws| - 1], date);
    }
  }

  /** The map has a key for `date` exactly when some write names that date. */
  lemma {:induction false} DatesOfWrites(ws: seq<Write>, date: string)
    ensures date in ApplyAll(EmptyMap, ws).entries <==> exists k :: 0 <= k < |ws| && ws[k].date == date
    decreases |ws|
  {
    if ws != [] {
      var init := ws[..|ws| - 1];
      DatesOfWrites(init, date);
      if exists k :: 0 <= k < |init| && init[k].date == date {
        var k :| 0 <= k < |init| && init[k].date == date;
        assert ws[k].date == date;
      }
      if exists k :: 0 <= k < |ws| && ws[k].date == date {
        var k :| 0 <= k < |ws| && ws[k].date == date;
        if k < |init| {
          assert init[k].date == date;
        }
      }
    }
  }

  predicate IsScalarWrite(w: Write, date: string, name: string) {
    w.StoreScalar? && w.date == date && w.name == name
  }

  predicate IsHourWrite(w: Write, date: string, hour: nat, name: string) {
    w.StoreHour? && w.date == date && w.hour == hour && w.name == name
  }

  /** The value of the last scalar write of `name` on `date`, if there is one. */
  function LastScalar(ws: seq<Write>, date: string, name: string): (r: Option<Option<real>>)
    ensures r.None? <==> forall k :: 0 <= k < |ws| ==> !IsScalarWrite(ws[k], date, name)
    ensures r.Some? ==> exists k :: 0 <= k < |ws| && ws[k] == StoreScalar(date, name, r.value)
                                    && forall k' :: k < k' < |ws| ==> !IsScalarWrite(ws[k'], date, name)
    decreases |ws|
  {
    if ws == [] then None
    else if IsScalarWrite(ws[|ws| - 1], date, name) then Some(ws[|ws| - 1].v)
    else
      LastScalar(ws[..|ws| - 1], date, name)
  }

  /** The value of the last write of `name` under `hour` on `date`, if there is one. */
  function LastHour(ws: seq<Write>, date: string, hour: nat, name: string): (r: Option<Option<real>>)
    ensures r.None? <==> forall k :: 0 <= k < |ws| ==> !IsHourWrite(ws[k], date, hour, name)
    ensures r.Some? ==> exists k :: 0 <= k < |ws| && ws[k] == StoreHour(date, hour, name, r.value)
                                    && forall k' :: k < k' < |ws| ==> !IsHourWrite(ws[k'], date, hour, name)
    decreases |ws|
  {
    if ws == [] then None
    else if IsHourWrite(ws[|ws| - 1], date, hour, name) then Some(ws[|ws| - 1].v)
    else
      LastHour(ws[..|ws| - 1], date, hour, name)
  }

  predicate HourWritten(ws: seq<Write>, date: string, hour: nat) {
    exists k :: 0 <= k < |ws| && ws[k].StoreHour? && ws[k].date == date && ws[k].hour == hour
  }

  /** Later scalar writes overwrite earlier ones: the stored value is the last one written. */
  lemma {:induction false} ScalarLookup(ws: seq<Write>, date: string, name: string)
    ensures name in EntryFold(ws, date).scalars <==> LastScalar(ws, date, name).Some?
    ensures name in EntryFold(ws, date).scalars ==> EntryFold(ws, date).scalars[name] == LastScalar(ws, date, name).value
    decreases |ws|
  {
    if ws != [] {
      ScalarLookup(ws[..|ws| - 1], date, name);
    }
  }

  /** An hour key exists exactly when some hourly write for that date used it. */
  lemma {:induction false} HourKeyLookup(ws: seq<Write>, date: string, hour: nat)
    ensures hour in EntryFold(ws, date).hours <==> HourWritten(ws, date, hour)
    decreases |ws|
  {
    if ws != [] {
      var init := ws[..|ws| - 1];
      HourKeyLookup(init, date, hour);
      if HourWritten(init, date, hour) {
        var k :| 0 <= k < |init| && init[k].StoreHour? && init[k].date == date && init[k].hour == hour;
        assert ws[k] == init[k];
      }
      if HourWritten(ws, date, hour) {
        var k :| 0 <= k < |ws| && ws[k].StoreHour? && ws[k].date == date && ws[k].hour == hour;
        if k < |init| {
          assert init[k] == ws[k];
        }
      }
    }
  }

  /** Later hourly writes overwrite earlier ones: the stored value is the last one written. */
  lemma {:induction false} HourLookup(ws: seq<Write>, date: string, hour: nat, name: string)
    requires hour in EntryFold(ws, date).hours
    ensures name in EntryFold(ws, date).hours[hour] <==> LastHour(ws, date, hour, name).Some?
    ensures name in EntryFold(ws, date).hours[hour] ==> EntryFold(ws, date).hours[hour][name] == LastHour(ws, date, hour, name).value
    decreases |ws|
  {
    var init := ws[..|ws| - 1];
    var w := ws[|ws| - 1];
    if hour in EntryFold(init, date).hours {
      HourLookup(init, date, hour, name);
    } else {
      assert w.StoreHour? && w.date == date && w.hour == hour;
      HourKeyLookup(init, date, hour);
    }
  }

  // ---------------------------------------------------------------------------
  // Key order of the merged objects
  // ---------------------------------------------------------------------------

  /** Each key is listed once, and the lists hold exactly the keys of the maps. */
  ghost predicate EntryWellFormed(e: Entry) {
    StrictlyAscending(e.hourKeys) && (forall h :: h in e.hourKeys <==> h in e.hours)
    && Distinct(e.names) && (forall n :: n in e.names <==> n in e.scalars)
  }

  ghost predicate MapWellFormed(dm: DateValueMap) {
    Distinct(dm.dates) && forall d :: d in dm.dates <==> d in dm.entries
  }

  lemma StepWellFormed(e: Entry, w: Write)
    requires EntryWellFormed(e)
    ensures EntryWellFormed(Step(e, w))
  {
    match w
    case Visit(_) =>
    case StoreScalar(_, n, v) =>
      if n !in e.scalars {
        DistinctSnoc(e.names, n);
      }
    case StoreHour(_, h, n, v) =>
  }

  lemma {:induction false} EntryFoldWellFormed(ws: seq<Write>, date: string)
    ensures EntryWellFormed(EntryFold(ws, date))
    decreases |ws|
  {
    if ws != [] {
      EntryFoldWellFormed(ws[..|ws| - 1], date);
      StepWellFormed(EntryFold(ws[..|ws| - 1], date), ws[|ws| - 1]);
    }
  }

  /** The dates of the merged map are listed once each, in the order they were first met. */
  lemma {:induction false} MapFoldWellFormed(ws: seq<Write>)
    ensures MapWellFormed(ApplyAll(EmptyMap, ws))
    decreases |ws|
  {
    if ws != [] {
      var dm := ApplyAll(EmptyMap, ws[..|ws| - 1]);
      MapFoldWellFormed(ws[..|ws| - 1]);
      var d := ws[|ws| - 1].date;
      if d !in dm.entries {
        DistinctSnoc(dm.dates, d);
      }
    }
  }

  predicate StrictlyAscending(s: seq<nat>) {
    forall i, j :: 0 <= i < j < |s| ==> s[i] < s[j]
  }

  lemma ConsAscending(a: nat, t: seq<nat>)
    requires StrictlyAscending(t) && forall y :: y in t ==> a < y
    ensures StrictlyAscending([a] + t)
  {
    var r := [a] + t;
    forall i, j | 0 <= i < j < |r| ensures r[i] < r[j] {
      assert r[j] == t[j - 1] && t[j - 1] in t;
      if i > 0 {
        assert r[i] == t[i - 1];
      }
    }
  }

  /** `x` added to a strictly ascending list of keys, in its place; a key already there is kept once. */
  function Insert(x: nat, s: seq<nat>): (r: seq<nat>)
    ensures StrictlyAscending(s) ==> StrictlyAscending(r)
    ensures forall y :: y in r <==> y == x || y in s
    ensures StrictlyAscending(s) ==> |r| == if x in s then |s| else |s| + 1
  {
    if s == [] then [x]
    else if x == s[0] then s
    else if x < s[0] then [x] + s
    else
      var t := Insert(x, s[1..]);
      if StrictlyAscending(s) then
        assert forall y :: y in s[1..] ==> s[0] < y;
        ConsAscending(s[0], t);
        [s[0]] + t
      else
        [s[0]] + t
  }

  /** A key of a date's object: an hour, or the name of a series stored as a scalar. */
  datatype Key = HourKey(hour: nat) | NameKey(name: string)

  /** `Object.keys(dateValueMap[date])`: the hour keys ascending, then the names in insertion order. */
  function EntryKeys(e: Entry): (keys: seq<Key>)
    ensures |keys| == |e.hourKeys| + |e.names|
    ensures forall i :: 0 <= i < |e.hourKeys| ==> keys[i] == HourKey(e.hourKeys[i])
    ensures forall i :: 0 <= i < |e.names| ==> keys[|e.hourKeys| + i] == NameKey(e.names[i])
  {
    HourKeys(e.hourKeys) + NameKeys(e.names)
  }

  function HourKeys(hs: seq<nat>): (keys: seq<Key>)
    ensures |keys| == |hs| && forall i :: 0 <= i < |hs| ==> keys[i] == HourKey(hs[i])
  {
    seq(|hs|, i requires 0 <= i < |hs| => HourKey(hs[i]))
  }

  function NameKeys(names: seq<string>): (keys: seq<Key>)
    ensures |keys| == |names| && forall i :: 0 <= i < |names| ==> keys[i] == NameKey(names[i])
  {
    seq(|names|, i requires 0 <= i < |names| => NameKey(names[i]))
  }

  /** Every key of the object is enumerated, and nothing else. */
  lemma EntryKeysCover(e: Entry)
    requires EntryWellFormed(e)
    ensures forall k: Key :: k in EntryKeys(e) <==> (k.HourKey? && k.hour in e.hours) || (k.NameKey? && k.name in e.scalars)
  {
    var hs := e.hourKeys;
    var keys := EntryKeys(e);
    assert keys == HourKeys(hs) + NameKeys(e.names);
    forall k: Key | k in keys ensures (k.HourKey? && k.hour in e.hours) || (k.NameKey? && k.name in e.scalars) {
      var i :| 0 <= i < |keys| && keys[i] == k;
      if i < |hs| {
        assert keys[i] == HourKey(hs[i]) && hs[i] in hs;
      } else {
        assert keys[i] == NameKey(e.names[i - |hs|]) && e.names[i - |hs|] in e.names;
      }
    }
    forall k: Key | (k.HourKey? && k.hour in e.hours) || (k.NameKey? && k.name in e.scalars) ensures k in keys {
      if k.HourKey? {
        var i :| 0 <= i < |hs| && hs[i] == k.hour;
        assert keys[i] == k;
      } else {
        var i :| 0 <= i < |e.names| && e.names[i] == k.name;
        assert keys[|hs| + i] == k;
      }
    }
  }

  /** Hour keys come first, strictly ascending, and are followed by the names in insertion order. */
  lemma EntryKeysOrder(e: Entry)
    requires StrictlyAscending(e.hourKeys)
    ensures forall i, j :: 0 <= i < j < |EntryKeys(e)| && EntryKeys(e)[j].HourKey? ==>
              EntryKeys(e)[i].HourKey? && EntryKeys(e)[i].hour < EntryKeys(e)[j].hour
    ensures EntryKeys(e)[|e.hourKeys|..] == NameKeys(e.names)
  {
    assert EntryKeys(e) == HourKeys(e.hourKeys) + NameKeys(e.names);
  }

  // ---------------------------------------------------------------------------
  // What the merge stores, stated over the series
  // ---------------------------------------------------------------------------

  lemma {:induction false} HourWritesMember(date: string, name: string, hs: seq<HourItem>, w: Write)
    ensures w in HourWrites(date, name, hs) <==> exists k :: 0 <= k < |hs| && w == StoreHour(date, hs[k].hour, name, hs[k].value)
    decreases |hs|
  {
    if hs != [] {
      var init := hs[..|hs| - 1];
      HourWritesMember(date, name, init, w);
      if exists k :: 0 <= k < |init| && w == StoreHour(date, init[k].hour, name, init[k].value) {
        var k :| 0 <= k < |init| && w == StoreHour(date, init[k].hour, name, init[k].value);
        assert hs[k] == init[k];
      }
      if exists k :: 0 <= k < |hs| && w == StoreHour(date, hs[k].hour, name, hs[k].value) {
        var k :| 0 <= k < |hs| && w == StoreHour(date, hs[k].hour, name, hs[k].value);
        if k < |init| {
          assert hs[k] == init[k];
        }
      }
    }
  }

  /** The writes of one item: its visit, then its scalar or its hourly values, all under its date. */
  lemma ItemWriteKinds(name: string, item: DateItem, w: Write)
    requires w in ItemWrites(name, item)
    ensures w.date == item.date
    ensures w.StoreScalar? ==> w.name == name && item.value == Scalar(w.v)
    ensures w.StoreHour? ==> w.name == name && item.value.Hourly?
                             && exists k :: 0 <= k < |item.value.items| && item.value.items[k] == HourItem(w.hour, w.v)
  {
    if w != Visit(item.date) && item.value.Hourly? {
      HourWritesMember(item.date, name, item.value.items, w);
    }
  }

  lemma {:induction false} ItemsMemberIn(name: string, items: seq<DateItem>, j: nat, w: Write)
    requires j < |items| && w in ItemWrites(name, items[j])
    ensures w in ItemsWrites(name, items)
    decreases |items|
  {
    var init := items[..|items| - 1];
    var tail := ItemWrites(name, items[|items| - 1]);
    assert ItemsWrites(name, items) == ItemsWrites(name, init) + tail;
    if j < |init| {
      assert items[j] == init[j];
      ItemsMemberIn(name, init, j, w);
      assert w in ItemsWrites(name, init);
    } else {
      assert w in tail;
    }
  }

  lemma {:induction false} ItemsMemberOut(name: string, items: seq<DateItem>, w: Write)
    requires w in ItemsWrites(name, items)
    ensures exists j :: 0 <= j < |items| && w in ItemWrites(name, items[j])
    decreases |items|
  {
    var init := items[..|items| - 1];
    var tail := ItemWrites(name, items[|items| - 1]);
    assert ItemsWrites(name, items) == ItemsWrites(name, init) + tail;
    if w !in tail {
      ItemsMemberOut(name, init, w);
      var j :| 0 <= j < |init| && w in ItemWrites(name, init[j]);
      assert items[j] == init[j];
    }
  }

  lemma {:induction false} WritesMemberIn(data: seq<Series>, i: nat, j: nat, w: Write)
    requires i < |data| && j < |data[i].Dates()| && w in ItemWrites(data[i].name, data[i].Dates()[j])
    ensures w in Writes(data)
    decreases |data|
  {
    var init := data[..|data| - 1];
    var last := data[|data| - 1];
    assert Writes(data) == Writes(init) + ItemsWrites(last.name, last.Dates());
    if i < |init| {
      assert data[i] == init[i];
      WritesMemberIn(init, i, j, w);
    } else {
      ItemsMemberIn(last.name, last.Dates(), j, w);
    }
  }

  lemma {:induction false} WritesMemberOut(data: seq<Series>, w: Write)
    requires w in Writes(data)
    ensures exists i, j :: 0 <= i < |data| && 0 <= j < |data[i].Dates()|
                           && w in ItemWrites(data[i].name, data[i].Dates()[j])
    decreases |data|
  {
    var init := data[..|data| - 1];
    var last := data[|data| - 1];
    assert Writes(data) == Writes(init) + ItemsWrites(last.name, last.Dates());
    if w in Writes(init) {
      WritesMemberOut(init, w);
      var i, j :| 0 <= i < |init| && 0 <= j < |init[i].Dates()| && w in ItemWrites(init[i].name, init[i].Dates()[j]);
      assert data[i] == init[i];
    } else {
      ItemsMemberOut(last.name, last.Dates(), w);
      var j :| 0 <= j < |last.Dates()| && w in ItemWrites(last.name, last.Dates()[j]);
      assert data[|data| - 1] == last;
    }
  }

  /** Every date of any item of any series is a key of the map, even one whose hourly array is empty. */
  lemma AggregateDates(data: seq<Series>, date: string)
    ensures date in Aggregate(data).entries <==>
            exists i, j :: 0 <= i < |data| && 0 <= j < |data[i].Dates()| && data[i].Dates()[j].date == date
  {
    var ws := Writes(data);
    DatesOfWrites(ws, date);
    if date in Aggregate(data).entries {
      var k :| 0 <= k < |ws| && ws[k].date == date;
      WritesMemberOut(data, ws[k]);
      var i, j :| 0 <= i < |data| && 0 <= j < |data[i].Dates()| && ws[k] in ItemWrites(data[i].name, data[i].Dates()[j]);
      ItemWriteKinds(data[i].name, data[i].Dates()[j], ws[k]);
    }
    if exists i, j :: 0 <= i < |data| && 0 <= j < |data[i].Dates()| && data[i].Dates()[j].date == date {
      var i, j :| 0 <= i < |data| && 0 <= j < |data[i].Dates()| && data[i].Dates()[j].date == date;
      assert Visit(date) in ItemWrites(data[i].name, data[i].Dates()[j]);
      WritesMemberIn(data, i, j, Visit(date));
      var k :| 0 <= k < |ws| && ws[k] == Visit(date);
    }
  }

  /** A stored series name comes from a single-number item of that series on that date. */
  lemma ScalarKeyHasItem(data: seq<Series>, date: string, name: string)
    requires name in EntryOf(Aggregate(data), date).scalars
    ensures exists i, j :: 0 <= i < |data| && 0 <= j < |data[i].Dates()| && data[i].name == name
                           && data[i].Dates()[j].date == date && data[i].Dates()[j].value.Scalar?
  {
    var ws := Writes(data);
    EntryOfAll(ws, date);
    ScalarLookup(ws, date, name);
    var k :| 0 <= k < |ws| && ws[k] == StoreScalar(date, name, LastScalar(ws, date, name).value);
    WritesMemberOut(data, ws[k]);
    var i, j :| 0 <= i < |data| && 0 <= j < |data[i].Dates()| && ws[k] in ItemWrites(data[i].name, data[i].Dates()[j]);
    ItemWriteKinds(data[i].name, data[i].Dates()[j], ws[k]);
  }

  /** A single-number item of a series on a date stores the series name under that date. */
  lemma ScalarItemStoresKey(data: seq<Series>, date: string, name: string, i: nat, j: nat)
    requires i < |data| && j < |data[i].Dates()| && data[i].name == name
    requires data[i].Dates()[j].date == date && data[i].Dates()[j].value.Scalar?
    ensures name in EntryOf(Aggregate(data), date).scalars
  {
    var ws := Writes(data);
    EntryOfAll(ws, date);
    ScalarLookup(ws, date, name);
    var w := StoreScalar(date, name, data[i].Dates()[j].value.v);
    assert w in ItemWrites(data[i].name, data[i].Dates()[j]);
    WritesMemberIn(data, i, j, w);
    var k :| 0 <= k < |ws| && ws[k] == w;
    assert IsScalarWrite(ws[k], date, name);
  }

  /** A series name is a key of a date's object exactly when that series has a single-number item on that date. */
  lemma AggregateScalarKeys(data: seq<Series>, date: string, name: string)
    ensures name in EntryOf(Aggregate(data), date).scalars <==>
            exists i, j :: 0 <= i < |data| && 0 <= j < |data[i].Dates()| && data[i].name == name
                           && data[i].Dates()[j].date == date && data[i].Dates()[j].value.Scalar?
  {
    if name in EntryOf(Aggregate(data), date).scalars {
      ScalarKeyHasItem(data, date, name);
    }
    if exists i, j :: 0 <= i < |data| && 0 <= j < |data[i].Dates()| && data[i].name == name
                      && data[i].Dates()[j].date == date && data[i].Dates()[j].value.Scalar? {
      var i, j :| 0 <= i < |data| && 0 <= j < |data[i].Dates()| && data[i].name == name
                  && data[i].Dates()[j].date == date && data[i].Dates()[j].value.Scalar?;
      ScalarItemStoresKey(data, date, name, i, j);
    }
  }

  /** A stored hour key comes from an hourly item on that date that lists the hour. */
  lemma HourKeyHasItem(data: seq<Series>, date: string, hour: nat)
    requires hour in EntryOf(Aggregate(data), date).hours
    ensures exists i, j, k :: 0 <= i < |data| && 0 <= j < |data[i].Dates()| && data[i].Dates()[j].date == date
                              && data[i].Dates()[j].value.Hourly? && 0 <= k < |data[i].Dates()[j].value.items|
                              && data[i].Dates()[j].value.items[k].hour == hour
  {
    var ws := Writes(data);
    EntryOfAll(ws, date);
    HourKeyLookup(ws, date, hour);
    var m :| 0 <= m < |ws| && ws[m].StoreHour? && ws[m].date == date && ws[m].hour == hour;
    WritesMemberOut(data, ws[m]);
    var i, j :| 0 <= i < |data| && 0 <= j < |data[i].Dates()| && ws[m] in ItemWrites(data[i].name, data[i].Dates()[j]);
    ItemWriteKinds(data[i].name, data[i].Dates()[j], ws[m]);
  }

  /** An hourly item on a date that lists an hour stores that hour key under the date. */
  lemma HourItemStoresKey(data: seq<Series>, date: string, hour: nat, i: nat, j: nat, k: nat)
    requires i < |data| && j < |data[i].Dates()| && data[i].Dates()[j].date == date
    requires data[i].Dates()[j].value.Hourly? && k < |data[i].Dates()[j].value.items|
    requires data[i].Dates()[j].value.items[k].hour == hour
    ensures hour in EntryOf(Aggregate(data), date).hours
  {
    var ws := Writes(data);
    EntryOfAll(ws, date);
    HourKeyLookup(ws, date, hour);
    var item := data[i].Dates()[j];
    var w := StoreHour(date, hour, data[i].name, item.value.items[k].value);
    HourWritesMember(date, data[i].name, item.value.items, w);
    assert w in ItemWrites(data[i].name, item);
    WritesMemberIn(data, i, j, w);
    var m :| 0 <= m < |ws| && ws[m] == w;
  }

  /** An hour is a key of a date's object exactly when some hourly item on that date lists it. */
  lemma AggregateHourKeys(data: seq<Series>, date: string, hour: nat)
    ensures hour in EntryOf(Aggregate(data), date).hours <==>
            exists i, j, k :: 0 <= i < |data| && 0 <= j < |data[i].Dates()| && data[i].Dates()[j].date == date
                              && data[i].Dates()[j].value.Hourly? && 0 <= k < |data[i].Dates()[j].value.items|
                              && data[i].Dates()[j].value.items[k].hour == hour
  {
    if hour in EntryOf(Aggregate(data), date).hours {
      HourKeyHasItem(data, date, hour);
    }
    if exists i, j, k :: 0 <= i < |data| && 0 <= j < |data[i].Dates()| && data[i].Dates()[j].date == date
                         && data[i].Dates()[j].value.Hourly? && 0 <= k < |data[i].Dates()[j].value.items|
                         && data[i].Dates()[j].value.items[k].hour == hour {
      var i, j, k :| 0 <= i < |data| && 0 <= j < |data[i].Dates()| && data[i].Dates()[j].date == date
                     && data[i].Dates()[j].value.Hourly? && 0 <= k < |data[i].Dates()[j].value.items|
                     && data[i].Dates()[j].value.items[k].hour == hour;
      HourItemStoresKey(data, date, hour, i, j, k);
    }
  }

  /** A series appended with one single-number item overwrites whatever was stored under its name on that date. */
  lemma LaterSeriesWins(data: seq<Series>, name: string, date: string, v: Option<real>, raw: Option<real>)
    ensures name in EntryOf(Aggregate(data + [Series(name, Some([DateItem(date, Scalar(v))]), raw)]), date).scalars
    ensures EntryOf(Aggregate(data + [Series(name, Some([DateItem(date, Scalar(v))]), raw)]), date).scalars[name] == v
  {
    var s := Series(name, Some([DateItem(date, Scalar(v))]), raw);
    var all := data + [s];
    assert all[..|all| - 1] == data;
    assert ItemsWrites(name, s.Dates()) == ItemWrites(name, s.Dates()[0]);
    var ws := Writes(all);
    assert ws == Writes(data) + [Visit(date), StoreScalar(date, name, v)];
    EntryOfAll(ws, date);
    ScalarLookup(ws, date, name);
  }

  // ---------------------------------------------------------------------------
  // Rows of the export of one subject
  // ---------------------------------------------------------------------------

  const DateTitle: string := "Дата"
  const HourTitle: string := "Час"
  const SubjectTitle: string := "Субъект"
  const Dash: string := "-"

  /** `value !== null && value !== undefined ? value : '-'`. */
  function ValueCell(v: Option<real>): (c: Cell)
    ensures c.Num? <==> v.Some?
    ensures c.Num? ==> c.x == v.value
    ensures c.Str? ==> c.s == Dash
  {
    if v.Some? then Num(v.value) else Str(Dash)
  }

  /** A property read: a missing key reads as undefined. */
  function Lookup(m: map<string, Option<real>>, name: string): Option<real> {
    if name in m then m[name] else None
  }

  /** One cell per series, read from a name-keyed object. */
  function SeriesCells(m: map<string, Option<real>>, data: seq<Series>): (cells: Row)
    ensures |cells| == |data|
    ensures forall k :: 0 <= k < |data| ==> cells[k] == ValueCell(Lookup(m, data[k].name))
  {
    seq(|data|, k requires 0 <= k < |data| => ValueCell(Lookup(m, data[k].name)))
  }

  function Dashes(n: nat): (cells: Row)
    ensures |cells| == n && forall k :: 0 <= k < n ==> cells[k] == Str(Dash)
  {
    seq(n, k => Str(Dash))
  }

  /** The text of a key as `Object.keys` yields it. */
  function KeyText(key: Key): string {
    match key
    case HourKey(h) => NatToString(h)
    case NameKey(n) => n
  }

  /** The cells of one key's row after its key. Under a name key the object holds a scalar:
    * reading a series name from a number gives undefined, and from null or undefined it
    * throws (`None`). */
  function KeyCells(e: Entry, key: Key, data: seq<Series>): (cells: Option<Row>)
    ensures cells.Some? ==> |cells.value| == |data|
  {
    match key
    case HourKey(h) => Some(SeriesCells(if h in e.hours then e.hours[h] else map[], data))
    case NameKey(n) => if |data| > 0 && Lookup(e.scalars, n).None? then None else Some(Dashes(|data|))
  }

  /** The export row of one key in hour mode: `[date, key, rowName, one cell per series]`. */
  function KeyRow(date: string, e: Entry, key: Key, rowName: string, data: seq<Series>): Option<Row> {
    var cells := KeyCells(e, key, data);
    if cells.None? then None else Some([Str(date), Str(KeyText(key)), Str(rowName)] + cells.value)
  }

  /** The export rows of one date in hour mode, one per key; `None` when one of them throws. */
  function KeyRows(date: string, e: Entry, keys: seq<Key>, rowName: string, data: seq<Series>): (rows: Option<seq<Row>>)
  {
    if forall k :: 0 <= k < |keys| ==> KeyRow(date, e, keys[k], rowName, data).Some? then
      Some(seq(|keys|, k requires 0 <= k < |keys| => KeyRow(date, e, keys[k], rowName, data).GetOr([])))
    else None
  }

  /** The export row of one date in date mode: `[date, rowName, one cell per series]`. */
  function DateRow(date: string, e: Entry, rowName: string, data: seq<Series>): Row {
    [Str(date), Str(rowName)] + SeriesCells(e.scalars, data)
  }

  /** The export rows of one date. */
  function DateRows(dm: DateValueMap, date: string, groupByHour: bool, rowName: string, data: seq<Series>): Option<seq<Row>> {
    var e := EntryOf(dm, date);
    if groupByHour then KeyRows(date, e, EntryKeys(e), rowName, data) else Some([DateRow(date, e, rowName, data)])
  }

  /** The rows of consecutive groups joined in order; `None` as soon as one group throws. */
  function Flatten(groups: seq<Option<seq<Row>>>): Option<seq<Row>>
    decreases |groups|
  {
    if groups == [] then Some([])
    else
      var pre := Flatten(groups[..|groups| - 1]);
      var last := groups[|groups| - 1];
      if pre.None? || last.None? then None else Some(pre.value + last.value)
  }

  /** Flattening one more group that holds rows appends its rows. */
  lemma FlattenExtend(groups: seq<Option<seq<Row>>>, i: nat)
    requires i < |groups| && Flatten(groups[..i]).Some? && groups[i].Some?
    ensures Flatten(groups[..i + 1]) == Some(Flatten(groups[..i]).value + groups[i].value)
  {
    assert groups[..i + 1][..i] == groups[..i];
  }

  /** The rows of every date, group by group. */
  function DateGroups(dm: DateValueMap, dates: seq<string>, groupByHour: bool, rowName: string, data: seq<Series>)
    : (groups: seq<Option<seq<Row>>>)
    ensures |groups| == |dates|
  {
    seq(|dates|, i requires 0 <= i < |dates| => DateRows(dm, dates[i], groupByHour, rowName, data))
  }

  /** The export rows of the dates `dates`, in order; `None` when a row throws. */
  function BodyRows(dm: DateValueMap, dates: seq<string>, groupByHour: bool, rowName: string, data: seq<Series>): Option<seq<Row>> {
    Flatten(DateGroups(dm, dates, groupByHour, rowName, data))
  }

  function Header(groupByHour: bool, data: seq<Series>): (h: Row)
    ensures |h| == (if groupByHour then 3 else 2) + |data|
  {
    [Str(DateTitle)] + (if groupByHour then [Str(HourTitle)] else []) + [Str(SubjectTitle)]
    + seq(|data|, k requires 0 <= k < |data| => Str(data[k].name))
  }

  /** `subjectItem.data[0]?.date_value?.length > 0`: only the first series is looked at. */
  predicate HasDatedValues(data: seq<Series>) {
    |data| > 0 && |data[0].Dates()| > 0
  }

  /** `table.startDate || '-'`. */
  function StartCell(startDate: Option<string>): string {
    if startDate.Some? && startDate.value != "" then startDate.value else Dash
  }

  /** The single row written when there are no dated values: `[startDate, rowName, raw value per series]`. */
  function FallbackRow(startDate: Option<string>, rowName: string, data: seq<Series>): (row: Row)
    ensures |row| == 2 + |data|
  {
    [Str(StartCell(startDate)), Str(rowName)] + seq(|data|, k requires 0 <= k < |data| => ValueCell(data[k].value))
  }

  /** The rows of the sheet `exportSubjectToExcel` writes; `None` when building them throws. */
  function ExportSheet(groupByHour: bool, startDate: Option<string>, rowName: string, data: seq<Series>): (sheet: Option<seq<Row>>)
    ensures sheet.Some? ==> |sheet.value| > 0 && sheet.value[0] == Header(groupByHour, data)
    ensures !HasDatedValues(data) ==> sheet.Some? && |sheet.value| == 2
  {
    var header := Header(groupByHour, data);
    if HasDatedValues(data) then
      if !AllDated(data) then None
      else
        var dm := Aggregate(data);
        var body := BodyRows(dm, dm.dates, groupByHour, rowName, data);
        if body.None? then None else Some([header] + body.value)
    else Some([header, FallbackRow(startDate, rowName, data)])
  }

  // ---------------------------------------------------------------------------
  // Properties of the exported sheet
  // ---------------------------------------------------------------------------

  /** Every row has `w` cells. */
  predicate RowsOfWidth(rows: seq<Row>, w: nat) {
    forall k :: 0 <= k < |rows| ==> |rows[k]| == w
  }

  /** Joining the groups throws exactly when one of the groups throws. */
  lemma {:induction false} FlattenNone(groups: seq<Option<seq<Row>>>)
    ensures Flatten(groups).None? <==> exists i :: 0 <= i < |groups| && groups[i].None?
    decreases |groups|
  {
    if groups != [] {
      var init := groups[..|groups| - 1];
      FlattenNone(init);
      if exists i :: 0 <= i < |init| && init[i].None? {
        var i :| 0 <= i < |init| && init[i].None?;
        assert groups[i] == init[i];
      }
      if exists i :: 0 <= i < |groups| && groups[i].None? {
        var i :| 0 <= i < |groups| && groups[i].None?;
        if i < |init| {
          assert init[i] == groups[i];
        }
      }
    }
  }

  /** Joining groups whose rows all have `w` cells gives rows of `w` cells. */
  lemma {:induction false} FlattenWidth(groups: seq<Option<seq<Row>>>, w: nat)
    requires forall i :: 0 <= i < |groups| && groups[i].Some? ==> RowsOfWidth(groups[i].value, w)
    ensures Flatten(groups).Some? ==> RowsOfWidth(Flatten(groups).value, w)
    decreases |groups|
  {
    if groups != [] {
      var init := groups[..|groups| - 1];
      assert forall i :: 0 <= i < |init| ==> init[i] == groups[i];
      FlattenWidth(init, w);
    }
  }

  /** Joining one-row groups gives those rows in order. */
  lemma {:induction false} FlattenSingletons(groups: seq<Option<seq<Row>>>, rows: seq<Row>)
    requires |groups| == |rows| && forall i :: 0 <= i < |rows| ==> groups[i] == Some([rows[i]])
    ensures Flatten(groups) == Some(rows)
    decreases |rows|
  {
    if rows != [] {
      var n := |rows| - 1;
      assert forall i :: 0 <= i < n ==> groups[..n][i] == groups[i];
      FlattenSingletons(groups[..n], rows[..n]);
      assert rows[..n] + [rows[n]] == rows;
    }
  }

  /** Every object of the merged map is well formed, and so is the map. */
  lemma AggregateWellFormed(data: seq<Series>, date: string)
    ensures MapWellFormed(Aggregate(data))
    ensures EntryWellFormed(EntryOf(Aggregate(data), date))
  {
    MapFoldWellFormed(Writes(data));
    EntryOfAll(Writes(data), date);
    EntryFoldWellFormed(Writes(data), date);
  }

  /** With dated values, every written row is as wide as the header. */
  lemma ExportRectangular(groupByHour: bool, startDate: Option<string>, rowName: string, data: seq<Series>)
    requires HasDatedValues(data) && ExportSheet(groupByHour, startDate, rowName, data).Some?
    ensures RowsOfWidth(ExportSheet(groupByHour, startDate, rowName, data).value, |Header(groupByHour, data)|)
  {
    var dm := Aggregate(data);
    var w := |Header(groupByHour, data)|;
    var groups := DateGroups(dm, dm.dates, groupByHour, rowName, data);
    forall i | 0 <= i < |groups| && groups[i].Some? ensures RowsOfWidth(groups[i].value, w) {
      var e := EntryOf(dm, dm.dates[i]);
      if groupByHour {
        var keys := EntryKeys(e);
        forall k | 0 <= k < |keys| ensures |groups[i].value[k]| == w {
          assert KeyRow(dm.dates[i], e, keys[k], rowName, data).Some?;
        }
      }
    }
    FlattenWidth(groups, w);
  }

  /**
   * Without dated values the sheet is the header and one fallback row; in hour mode that
   * row is one cell shorter than the header, so the row name sits under "Час" and every
   * value one column to the left of its series.
   */
  lemma FallbackMisaligned(groupByHour: bool, startDate: Option<string>, rowName: string, data: seq<Series>)
    requires !HasDatedValues(data)
    ensures ExportSheet(groupByHour, startDate, rowName, data) == Some([Header(groupByHour, data), FallbackRow(startDate, rowName, data)])
    ensures |FallbackRow(startDate, rowName, data)| == |Header(groupByHour, data)| - (if groupByHour then 1 else 0)
  {
  }

  /** A null scalar value somewhere in the merged map. */
  ghost predicate HasNullScalar(dm: DateValueMap) {
    exists d, n :: d in dm.entries && n in dm.entries[d].scalars && dm.entries[d].scalars[n] == None
  }

  /** In hour mode the rows of one date throw exactly when its object holds null under a series name. */
  lemma KeyRowsThrowIff(date: string, e: Entry, rowName: string, data: seq<Series>)
    requires EntryWellFormed(e) && |data| > 0
    ensures KeyRows(date, e, EntryKeys(e), rowName, data).None? <==> exists n :: n in e.scalars && e.scalars[n] == None
  {
    if KeyRows(date, e, EntryKeys(e), rowName, data).None? {
      KeyRowsThrowOnNull(date, e, rowName, data);
    }
    if exists n :: n in e.scalars && e.scalars[n] == None {
      var n :| n in e.scalars && e.scalars[n] == None;
      NullThrows(date, e, rowName, data, n);
    }
  }

  /** A key whose row throws is a series name holding null. */
  lemma KeyRowThrows(date: string, e: Entry, key: Key, rowName: string, data: seq<Series>)
    requires KeyRow(date, e, key, rowName, data).None?
    ensures key.NameKey? && |data| > 0 && Lookup(e.scalars, key.name).None?
  {
  }

  /** The rows of a date throw as soon as the row of one key does. */
  lemma KeyRowsThrowAt(date: string, e: Entry, keys: seq<Key>, rowName: string, data: seq<Series>, k: nat)
    requires k < |keys| && KeyRow(date, e, keys[k], rowName, data).None?
    ensures KeyRows(date, e, keys, rowName, data).None?
  {
  }

  /** A name key of `Object.keys` names one of the object's series. */
  lemma NameKeyOfEntry(e: Entry, k: nat)
    requires k < |EntryKeys(e)| && EntryKeys(e)[k].NameKey?
    ensures k >= |e.hourKeys| && EntryKeys(e)[k].name == e.names[k - |e.hourKeys|]
  {
    var keys := EntryKeys(e);
    if k >= |e.hourKeys| {
      assert keys[|e.hourKeys| + (k - |e.hourKeys|)] == NameKey(e.names[k - |e.hourKeys|]);
    }
  }

  /** Series name j of the object is enumerated after all of its hour keys. */
  lemma EntryKeyOfName(e: Entry, j: nat)
    requires j < |e.names|
    ensures |e.hourKeys| + j < |EntryKeys(e)| && EntryKeys(e)[|e.hourKeys| + j] == NameKey(e.names[j])
  {
  }

  /** The rows of a date throw when series name j of its object holds null. */
  lemma NameThrows(date: string, e: Entry, rowName: string, data: seq<Series>, j: nat)
    requires j < |e.names| && |data| > 0 && Lookup(e.scalars, e.names[j]).None?
    ensures KeyRows(date, e, EntryKeys(e), rowName, data).None?
  {
    EntryKeyOfName(e, j);
    KeyRowsThrowAt(date, e, EntryKeys(e), rowName, data, |e.hourKeys| + j);
  }

  lemma KeyRowsThrowOnNull(date: string, e: Entry, rowName: string, data: seq<Series>)
    requires EntryWellFormed(e) && KeyRows(date, e, EntryKeys(e), rowName, data).None?
    ensures exists n :: n in e.scalars && e.scalars[n] == None
  {
    var keys := EntryKeys(e);
    var k :| 0 <= k < |keys| && KeyRow(date, e, keys[k], rowName, data).None?;
    KeyRowThrows(date, e, keys[k], rowName, data);
    NameKeyOfEntry(e, k);
    var n := keys[k].name;
    assert n in e.names;
  }

  lemma NullThrows(date: string, e: Entry, rowName: string, data: seq<Series>, n: string)
    requires EntryWellFormed(e) && |data| > 0 && n in e.scalars && e.scalars[n] == None
    ensures KeyRows(date, e, EntryKeys(e), rowName, data).None?
  {
    assert n in e.names;
    var j :| 0 <= j < |e.names| && e.names[j] == n;
    NameThrows(date, e, rowName, data, j);
  }

  /** In hour mode the rows of a well-formed map throw exactly when some object holds null under a series name. */
  lemma HourBodyThrowsIff(dm: DateValueMap, rowName: string, data: seq<Series>)
    requires MapWellFormed(dm) && (forall d :: d in dm.entries ==> EntryWellFormed(dm.entries[d])) && |data| > 0
    ensures BodyRows(dm, dm.dates, true, rowName, data).None? <==> HasNullScalar(dm)
  {
    var groups := DateGroups(dm, dm.dates, true, rowName, data);
    FlattenNone(groups);
    if exists i :: 0 <= i < |groups| && groups[i].None? {
      var i :| 0 <= i < |groups| && groups[i].None?;
      var d := dm.dates[i];
      assert d in dm.entries;
      KeyRowsThrowIff(d, dm.entries[d], rowName, data);
    }
    if HasNullScalar(dm) {
      var d, n :| d in dm.entries && n in dm.entries[d].scalars && dm.entries[d].scalars[n] == None;
      var i :| 0 <= i < |dm.dates| && dm.dates[i] == d;
      KeyRowsThrowIff(d, dm.entries[d], rowName, data);
      assert groups[i].None?;
    }
  }

  /**
   * The export throws exactly when the first series has dated values and either some
   * series has no `date_value` (its `forEach` reads a property of undefined) or, in hour
   * mode, some date's object holds null under a series name (enumerating that key reads
   * a property of null).
   */
  lemma ExportThrowsIff(groupByHour: bool, startDate: Option<string>, rowName: string, data: seq<Series>)
    ensures ExportSheet(groupByHour, startDate, rowName, data).None? <==>
            HasDatedValues(data) && (!AllDated(data) || (groupByHour && HasNullScalar(Aggregate(data))))
  {
    if HasDatedValues(data) && AllDated(data) {
      var dm := Aggregate(data);
      if groupByHour {
        forall d | d in dm.entries ensures EntryWellFormed(dm.entries[d]) {
          AggregateWellFormed(data, d);
        }
        AggregateWellFormed(data, "");
        HourBodyThrowsIff(dm, rowName, data);
      } else {
        var groups := DateGroups(dm, dm.dates, false, rowName, data);
        FlattenNone(groups);
      }
    }
  }

  /** In date mode with dated values, the sheet is the header and one row per date, in the order the dates were first met. */
  lemma DateModeRows(startDate: Option<string>, rowName: string, data: seq<Series>)
    requires HasDatedValues(data)
    ensures var dm := Aggregate(data);
            ExportSheet(false, startDate, rowName, data)
            == if !AllDated(data) then None
               else Some([Header(false, data)] + seq(|dm.dates|, i requires 0 <= i < |dm.dates| => DateRow(dm.dates[i], EntryOf(dm, dm.dates[i]), rowName, data)))
  {
    if AllDated(data) {
      var dm := Aggregate(data);
      var rows := seq(|dm.dates|, i requires 0 <= i < |dm.dates| => DateRow(dm.dates[i], EntryOf(dm, dm.dates[i]), rowName, data));
      FlattenSingletons(DateGroups(dm, dm.dates, false, rowName, data), rows);
    }
  }

  // ---------------------------------------------------------------------------
  // The sub-table shown on the page for one subject
  // ---------------------------------------------------------------------------

  const NoDataNotice: string := "Нет данных для отображения"

  /** What a visible sub-table shows: the notice, or a header and rows of cells. */
  datatype SubjectView = Notice(text: string) | Grid(header: Row, rows: seq<Row>)

  /** The shown header: the export header without the subject column. */
  function ViewHeader(groupByHour: bool, data: seq<Series>): (h: Row)
    ensures var at := if groupByHour then 2 else 1;
            |h| == at + |data| && Header(groupByHour, data) == h[..at] + [Str(SubjectTitle)] + h[at..]
  {
    [Str(DateTitle)] + (if groupByHour then [Str(HourTitle)] else []) + seq(|data|, k requires 0 <= k < |data| => Str(data[k].name))
  }

  /** A shown row in hour mode: the date cell on the first row of the date only (it spans them all), the key, the values. */
  function ViewKeyRow(date: string, e: Entry, key: Key, first: bool, data: seq<Series>): Option<Row> {
    var cells := KeyCells(e, key, data);
    if cells.None? then None else Some((if first then [Str(date)] else []) + [Str(KeyText(key))] + cells.value)
  }

  function ViewKeyRows(date: string, e: Entry, keys: seq<Key>, data: seq<Series>): Option<seq<Row>> {
    if forall k :: 0 <= k < |keys| ==> ViewKeyRow(date, e, keys[k], k == 0, data).Some? then
      Some(seq(|keys|, k requires 0 <= k < |keys| => ViewKeyRow(date, e, keys[k], k == 0, data).GetOr([])))
    else None
  }

  /** The shown rows of one date. */
  function ViewDateRows(dm: DateValueMap, date: string, groupByHour: bool, data: seq<Series>): Option<seq<Row>> {
    var e := EntryOf(dm, date);
    if groupByHour then ViewKeyRows(date, e, EntryKeys(e), data) else Some([[Str(date)] + SeriesCells(e.scalars, data)])
  }

  function ViewGroups(dm: DateValueMap, groupByHour: bool, data: seq<Series>): (groups: seq<Option<seq<Row>>>)
    ensures |groups| == |dm.dates|
  {
    seq(|dm.dates|, i requires 0 <= i < |dm.dates| => ViewDateRows(dm, dm.dates[i], groupByHour, data))
  }

  /** The visible sub-table of a subject; `None` when rendering it throws. */
  function SubjectTableView(groupByHour: bool, data: seq<Series>): (v: Option<SubjectView>)
    ensures v == Some(Notice(NoDataNotice)) <==> !HasDatedValues(data)
    ensures v.Some? && v.value.Grid? ==> v.value.header == ViewHeader(groupByHour, data)
  {
    if HasDatedValues(data) then
      if !AllDated(data) then None
      else
        var dm := Aggregate(data);
        var body := Flatten(ViewGroups(dm, groupByHour, data));
        if body.None? then None else Some(Grid(ViewHeader(groupByHour, data), body.value))
    else Some(Notice(NoDataNotice))
  }

  /**
   * The shown form of the `k`-th export row of a date: the subject cell dropped and, in
   * hour mode, the date cell kept on the first row only. (Export rows always have those
   * cells; a shorter row is left as it is.)
   */
  function Shown(row: Row, k: nat, groupByHour: bool): Row {
    if groupByHour && |row| >= 3 then (if k == 0 then row[..2] else row[1..2]) + row[3..]
    else if !groupByHour && |row| >= 2 then row[..1] + row[2..]
    else row
  }

  /** In hour mode the page shows the export's key rows of a date in their shown form. */
  lemma ViewKeyRowsMatch(date: string, e: Entry, keys: seq<Key>, rowName: string, data: seq<Series>)
    ensures ViewKeyRows(date, e, keys, data).None? <==> KeyRows(date, e, keys, rowName, data).None?
    ensures var ex := KeyRows(date, e, keys, rowName, data);
            var view := ViewKeyRows(date, e, keys, data);
            ex.Some? ==> |view.value| == |ex.value| && forall k :: 0 <= k < |ex.value| ==> view.value[k] == Shown(ex.value[k], k, true)
  {
    forall k | 0 <= k < |keys|
      ensures ViewKeyRow(date, e, keys[k], k == 0, data).Some? <==> KeyRow(date, e, keys[k], rowName, data).Some?
      ensures KeyRow(date, e, keys[k], rowName, data).Some? ==>
              ViewKeyRow(date, e, keys[k], k == 0, data).value == Shown(KeyRow(date, e, keys[k], rowName, data).value, k, true)
    {
      var row := KeyRow(date, e, keys[k], rowName, data);
      if row.Some? {
        assert row.value[3..] == KeyCells(e, keys[k], data).value;
      }
    }
  }

  /** The page shows, for each date, the export's rows of that date in their shown form. */
  lemma ViewGroupMatchesExport(dm: DateValueMap, date: string, groupByHour: bool, rowName: string, data: seq<Series>)
    ensures ViewDateRows(dm, date, groupByHour, data).None? <==> DateRows(dm, date, groupByHour, rowName, data).None?
    ensures var ex := DateRows(dm, date, groupByHour, rowName, data);
            var view := ViewDateRows(dm, date, groupByHour, data);
            ex.Some? ==> |view.value| == |ex.value| && forall k :: 0 <= k < |ex.value| ==> view.value[k] == Shown(ex.value[k], k, groupByHour)
  {
    var e := EntryOf(dm, date);
    if groupByHour {
      ViewKeyRowsMatch(date, e, EntryKeys(e), rowName, data);
    } else {
      ShownDateRow(date, e, rowName, data);
    }
  }

  /** In date mode the shown row is the export row without its subject cell. */
  lemma ShownDateRow(date: string, e: Entry, rowName: string, data: seq<Series>)
    ensures Shown(DateRow(date, e, rowName, data), 0, false) == [Str(date)] + SeriesCells(e.scalars, data)
  {
    var row := DateRow(date, e, rowName, data);
    assert row[2..] == SeriesCells(e.scalars, data);
  }

  /** Two lists of groups that throw at the same places and have groups of the same sizes join alike. */
  lemma {:induction false} FlattenSameShape(a: seq<Option<seq<Row>>>, b: seq<Option<seq<Row>>>)
    requires |a| == |b|
    requires forall i :: 0 <= i < |a| ==> (a[i].None? <==> b[i].None?) && (a[i].Some? ==> |a[i].value| == |b[i].value|)
    ensures Flatten(a).None? <==> Flatten(b).None?
    ensures Flatten(a).Some? ==> |Flatten(a).value| == |Flatten(b).value|
    decreases |a|
  {
    if a != [] {
      var n := |a| - 1;
      assert forall i :: 0 <= i < n ==> a[..n][i] == a[i] && b[..n][i] == b[i];
      FlattenSameShape(a[..n], b[..n]);
    }
  }

  /** The page throws exactly when the export does, and shows one row per exported data row. */
  lemma ViewMatchesExport(groupByHour: bool, startDate: Option<string>, rowName: string, data: seq<Series>)
    requires HasDatedValues(data)
    ensures SubjectTableView(groupByHour, data).None? <==> ExportSheet(groupByHour, startDate, rowName, data).None?
    ensures SubjectTableView(groupByHour, data).Some? ==>
            |SubjectTableView(groupByHour, data).value.rows| + 1 == |ExportSheet(groupByHour, startDate, rowName, data).value|
  {
    if AllDated(data) {
      var dm := Aggregate(data);
      var a := ViewGroups(dm, groupByHour, data);
      var b := DateGroups(dm, dm.dates, groupByHour, rowName, data);
      forall i | 0 <= i < |a| ensures (a[i].None? <==> b[i].None?) && (a[i].Some? ==> |a[i].value| == |b[i].value|) {
        ViewGroupMatchesExport(dm, dm.dates[i], groupByHour, rowName, data);
      }
      FlattenSameShape(a, b);
    }
  }

  lemma {:induction false} FlattenNoneExtends(groups: seq<Option<seq<Row>>>, n: nat)
    requires n <= |groups| && Flatten(groups[..n]).None?
    ensures Flatten(groups).None?
    decreases |groups| - n
  {
    if n < |groups| {
      assert groups[..n + 1][..n] == groups[..n];
      FlattenNoneExtends(groups, n + 1);
    } else {
      assert groups[..n] == groups;
    }
  }


  /** The rows of one date in hour mode, pushed key by key; `None` when a key's row throws. */
  method PushKeyRows(date: string, e: Entry, keys: seq<Key>, rowName: string, data: seq<Series>, wsData: seq<Row>)
    returns (r: Option<seq<Row>>)
    ensures var rows := KeyRows(date, e, keys, rowName, data);
            if rows.None? then r.None? else r == Some(wsData + rows.value)
  {
    var acc := wsData;
    var k := 0;
    while k < |keys|
      invariant 0 <= k <= |keys|
      invariant forall j :: 0 <= j < k ==> KeyRow(date, e, keys[j], rowName, data).Some?
      invariant acc == wsData + seq(k, j requires 0 <= j < k => KeyRow(date, e, keys[j], rowName, data).GetOr([]))
    {
      var row := KeyRow(date, e, keys[k], rowName, data);
      if row.None? {
        return None;
      }
      assert seq(k + 1, j requires 0 <= j < k + 1 => KeyRow(date, e, keys[j], rowName, data).GetOr([]))
          == seq(k, j requires 0 <= j < k => KeyRow(date, e, keys[j], rowName, data).GetOr([])) + [row.value];
      acc := acc + [row.value];
      k := k + 1;
    }
    assert seq(k, j requires 0 <= j < k => KeyRow(date, e, keys[j], rowName, data).GetOr([]))
        == seq(|keys|, j requires 0 <= j < |keys| => KeyRow(date, e, keys[j], rowName, data).GetOr([]));
    return Some(acc);
  }

  /** The rows of one date of the map pushed after `acc`; `None` when a row throws. */
  method PushDateGroup(dm: DateValueMap, date: string, groupByHour: bool, rowName: string, data: seq<Series>, acc: seq<Row>)
    returns (r: Option<seq<Row>>)
    requires date in dm.entries
    ensures var rows := DateRows(dm, date, groupByHour, rowName, data);
            if rows.None? then r.None? else r == Some(acc + rows.value)
  {
    var e := dm.entries[date];
    assert e == EntryOf(dm, date);
    if groupByHour {
      r := PushKeyRows(date, e, EntryKeys(e), rowName, data, acc);
    } else {
      r := Some(acc + [DateRow(date, e, rowName, data)]);
    }
  }

  /** The rows of every date of the map, pushed date by date; `None` when a row throws. */
  method PushDateRows(dm: DateValueMap, groupByHour: bool, rowName: string, data: seq<Series>, wsData: seq<Row>)
    returns (r: Option<seq<Row>>)
    requires forall i :: 0 <= i < |dm.dates| ==> dm.dates[i] in dm.entries
    ensures var rows := BodyRows(dm, dm.dates, groupByHour, rowName, data);
            if rows.None? then r.None? else r == Some(wsData + rows.value)
  {
    ghost var groups := DateGroups(dm, dm.dates, groupByHour, rowName, data);
    var acc := wsData;
    var i := 0;
    while i < |dm.dates|
      invariant 0 <= i <= |dm.dates|
      invariant Flatten(groups[..i]).Some?
      invariant acc == wsData + Flatten(groups[..i]).value
    {
      ghost var pre := Flatten(groups[..i]).value;
      assert groups[i] == DateRows(dm, dm.dates[i], groupByHour, rowName, data);
      var next := PushDateGroup(dm, dm.dates[i], groupByHour, rowName, data, acc);
      if next.None? {
        FlattenNoneExtends(groups, i + 1);
        return None;
      }
      FlattenExtend(groups, i);
      assert next.value == (wsData + pre) + groups[i].value == wsData + (pre + groups[i].value);
      acc := next.value;
      i := i + 1;
    }
    assert groups[..i] == groups;
    return Some(acc);
  }

  /** `exportSubjectToExcel`: the header, then the rows of every date of the merged map, or the single fallback row. */
  method ExportSubjectToExcel(groupByHour: bool, startDate: Option<string>, rowName: string, data: seq<Series>)
    returns (sheet: Option<seq<Row>>)
    ensures sheet == ExportSheet(groupByHour, startDate, rowName, data)
  {
    var wsData := [Header(groupByHour, data)];
    if |data| > 0 && |data[0].Dates()| > 0 {
      var built := BuildDateValueMap(data);
      if built.None? {
        return None;
      }
      var dm := built.value;
      MapFoldWellFormed(Writes(data));
      assert forall i :: 0 <= i < |dm.dates| ==> dm.dates[i] in dm.dates;
      sheet := PushDateRows(dm, groupByHour, rowName, data, wsData);
      assert HasDatedValues(data) && dm == Aggregate(data);
      ghost var body := BodyRows(dm, dm.dates, groupByHour, rowName, data);
      assert ExportSheet(groupByHour, startDate, rowName, data) == if body.None? then None else Some(wsData + body.value);
    } else {
      sheet := Some(wsData + [FallbackRow(startDate, rowName, data)]);
      assert wsData + [FallbackRow(startDate, rowName, data)] == [Header(groupByHour, data), FallbackRow(startDate, rowName, data)];
    }
  }
  // ---------------------------------------------------------------------------
  // Sheet name
  // ---------------------------------------------------------------------------

  /** The longest sheet name the export writes. */
  const MaxSheetName: nat := 31

  /** `${table.name}_${subjectName}`, cut to its first 31 characters when longer. */
  function SheetName(tableName: string, subjectName: string): (name: string)
    ensures var full := tableName + "_" + subjectName;
            |name| <= MaxSheetName && name <= full
            && (name == full <==> |full| <= MaxSheetName)
            && (|full| > MaxSheetName ==> |name| == MaxSheetName)
  {
    var full := tableName + "_" + subjectName;
    if |full| > MaxSheetName then full[..MaxSheetName] else full
  }

  // ---------------------------------------------------------------------------
  // Toggles of the view
  // ---------------------------------------------------------------------------

  /** A flag of a state object read for its truth: a missing key reads as undefined, which is false. */
  function Flag(m: map<string, bool>, key: string): bool {
    key in m && m[key]
  }

  /** `{...prev, [key]: !prev[key]}`. */
  function ToggleFlag(m: map<string, bool>, key: string): (r: map<string, bool>)
    ensures Flag(r, key) == !Flag(m, key)
    ensures forall k :: k != key ==> Flag(r, k) == Flag(m, k) && (k in r <==> k in m)
    ensures r.Keys == m.Keys + {key}
  {
    m[key := !Flag(m, key)]
  }

  /** The digits of each id. */
  function IdStrings(ids: seq<nat>): (parts: seq<string>)
    ensures |parts| == |ids| && forall i :: 0 <= i < |ids| ==> parts[i] == NatToString(ids[i])
  {
    seq(|ids|, i requires 0 <= i < |ids| => NatToString(ids[i]))
  }

  /** `${item.subject}_${item.objects.join(',')}`: the key of a subject row's sub-table. */
  function SubTableKey(subject: nat, objects: seq<nat>): string {
    NatToString(subject) + "_" + Join(IdStrings(objects), ",")
  }

  /** Rows with the same subject and object list share one visibility key, and only they do. */
  lemma SubTableKeyInjective(s1: nat, o1: seq<nat>, s2: nat, o2: seq<nat>)
    ensures SubTableKey(s1, o1) == SubTableKey(s2, o2) <==> s1 == s2 && o1 == o2
  {
    if SubTableKey(s1, o1) == SubTableKey(s2, o2) {
      var j1 := Join(IdStrings(o1), ",");
      var j2 := Join(IdStrings(o2), ",");
      forall i | 0 <= i < |o1| ensures '_' !in IdStrings(o1)[i] && ',' !in IdStrings(o1)[i] {
        DigitsHaveNo(NatToString(o1[i]), '_');
        DigitsHaveNo(NatToString(o1[i]), ',');
      }
      forall i | 0 <= i < |o2| ensures '_' !in IdStrings(o2)[i] && ',' !in IdStrings(o2)[i] {
        DigitsHaveNo(NatToString(o2[i]), '_');
        DigitsHaveNo(NatToString(o2[i]), ',');
      }
      JoinHasNo(IdStrings(o1), ",", '_');
      JoinHasNo(IdStrings(o2), ",", '_');
      DigitsHaveNo(NatToString(s1), '_');
      DigitsHaveNo(NatToString(s2), '_');
      SplitFirst(NatToString(s1), j1, '_');
      SplitFirst(NatToString(s2), j2, '_');
      assert Split(j1, '_') == [j1] && Split(j2, '_') == [j2];
      assert Split(SubTableKey(s1, o1), '_') == [NatToString(s1), j1];
      assert Split(SubTableKey(s2, o2), '_') == [NatToString(s2), j2];
      NatToStringInjective(s1, s2);
      ObjectsOfJoin(o1, o2);
    }
  }

  /** The joined object lists are equal only for equal lists. */
  lemma ObjectsOfJoin(o1: seq<nat>, o2: seq<nat>)
    requires Join(IdStrings(o1), ",") == Join(IdStrings(o2), ",")
    ensures o1 == o2
  {
    var p1 := IdStrings(o1);
    var p2 := IdStrings(o2);
    if o1 == [] || o2 == [] {
      if o1 != [] {
        JoinStartsWith(p1, ",");
      }
      if o2 != [] {
        JoinStartsWith(p2, ",");
      }
    } else {
      forall i | 0 <= i < |o1| ensures ',' !in p1[i] {
        DigitsHaveNo(p1[i], ',');
      }
      forall i | 0 <= i < |o2| ensures ',' !in p2[i] {
        DigitsHaveNo(p2[i], ',');
      }
      SplitJoin(p1, ',');
      SplitJoin(p2, ',');
      forall i | 0 <= i < |o1| ensures o1[i] == o2[i] {
        NatToStringInjective(o1[i], o2[i]);
      }
    }
  }

  /** `toggleSubTableVisibility(uniqueKey)` for the row of `subject` and `objects`. */
  function ToggleSubTable(visible: map<string, bool>, subject: nat, objects: seq<nat>): map<string, bool> {
    ToggleFlag(visible, SubTableKey(subject, objects))
  }

  /** Toggling one row's sub-table shows or hides it and leaves every other row's as it was. */
  lemma ToggleSubTableOnly(visible: map<string, bool>, subject: nat, objects: seq<nat>, s: nat, o: seq<nat>)
    ensures Flag(ToggleSubTable(visible, subject, objects), SubTableKey(s, o)) ==
            if s == subject && o == objects then !Flag(visible, SubTableKey(s, o)) else Flag(visible, SubTableKey(s, o))
  {
    SubTableKeyInjective(subject, objects, s, o);
  }

  /** `${tableIdx}-${rowIdx}-${colIdx}`: the key of a cell of the main table. */
  function CellKey(table: nat, row: nat, col: nat): string {
    NatToString(table) + "-" + NatToString(row) + "-" + NatToString(col)
  }

  /** Distinct cells have distinct keys. */
  lemma CellKeyInjective(t1: nat, r1: nat, c1: nat, t2: nat, r2: nat, c2: nat)
    ensures CellKey(t1, r1, c1) == CellKey(t2, r2, c2) <==> t1 == t2 && r1 == r2 && c1 == c2
  {
    if CellKey(t1, r1, c1) == CellKey(t2, r2, c2) {
      DigitsHaveNo(NatToString(t1), '-');
      DigitsHaveNo(NatToString(r1), '-');
      DigitsHaveNo(NatToString(c1), '-');
      DigitsHaveNo(NatToString(t2), '-');
      DigitsHaveNo(NatToString(r2), '-');
      DigitsHaveNo(NatToString(c2), '-');
      SplitThree(NatToString(t1), NatToString(r1), NatToString(c1), '-');
      SplitThree(NatToString(t2), NatToString(r2), NatToString(c2), '-');
      NatToStringInjective(t1, t2);
      NatToStringInjective(r1, r2);
      NatToStringInjective(c1, c2);
    }
  }

  /** `toggleExpanded(tableIdx, rowIdx, colIdx)`. */
  function ToggleExpanded(expanded: map<string, bool>, table: nat, row: nat, col: nat): map<string, bool> {
    ToggleFlag(expanded, CellKey(table, row, col))
  }

  /** A series' raw value in the main table: a number, null (or undefined), or an array of numbers. */
  datatype RawValue = RawNumber(x: real) | RawNull | RawArray(xs: seq<real>)

  /** What a cell of the main table shows: a text, a number, or the array button with the array when expanded. */
  datatype MainCell = CellText(s: string) | CellNumber(x: real) | ArrayButton(caption: string, shown: Option<seq<real>>)

  const ShowArray: string := "Показать массив"
  const HideArray: string := "Скрыть массив"

  /** The cell of series `col` of row `row` of table `table`; grouped tables show '-' in every cell. */
  function MainCellView(grouped: bool, v: RawValue, expanded: map<string, bool>, table: nat, row: nat, col: nat): (c: MainCell)
    ensures grouped ==> c == CellText(Dash)
    ensures !grouped && v.RawArray? ==> c.ArrayButton? && (c.shown.Some? <==> Flag(expanded, CellKey(table, row, col)))
                                        && (c.shown.Some? ==> c.shown.value == v.xs)
                                        && c.caption == (if c.shown.Some? then HideArray else ShowArray)
    ensures !grouped && v.RawNumber? ==> c == CellNumber(v.x)
    ensures !grouped && v.RawNull? ==> c == CellText(Dash)
  {
    if grouped then CellText(Dash)
    else match v
      case RawArray(xs) =>
        var open := Flag(expanded, CellKey(table, row, col));
        ArrayButton(if open then HideArray else ShowArray, if open then Some(xs) else None)
      case RawNumber(x) => CellNumber(x)
      case RawNull => CellText(Dash)
  }

  /** Toggling one cell opens or closes that cell's array and no other cell's. */
  lemma ToggleExpandedOnly(expanded: map<string, bool>, table: nat, row: nat, col: nat,
                           grouped: bool, v: RawValue, t: nat, r: nat, c: nat)
    ensures (t, r, c) != (table, row, col) ==>
            MainCellView(grouped, v, ToggleExpanded(expanded, table, row, col), t, r, c) == MainCellView(grouped, v, expanded, t, r, c)
    ensures !grouped && v.RawArray? ==>
            MainCellView(grouped, v, ToggleExpanded(expanded, table, row, col), table, row, col).shown.Some?
            == MainCellView(grouped, v, expanded, table, row, col).shown.None?
  {
    CellKeyInjective(table, row, col, t, r, c);
  }

  /**
   * `handleObjectToggle(objId)`: a selected id is removed (every occurrence of it),
   * an unselected one appended at the end.
   */
  function ToggleObject(selected: seq<nat>, id: nat): (r: seq<nat>)
    ensures id in r <==> id !in selected
    ensures forall x :: x != id ==> (x in r <==> x in selected)
    ensures id !in selected ==> r == selected + [id]
    ensures id in selected ==> r == Without(selected, id)
    ensures Distinct(selected) ==> Distinct(r)
  {
    if id in selected then
      WithoutDistinct(selected, id);
      Without(selected, id)
    else
      selected + [id]
  }

  /** Toggling an unselected id twice restores the list; toggling a selected one twice moves it to the end. */
  lemma ToggleObjectTwice(selected: seq<nat>, id: nat)
    ensures id !in selected ==> ToggleObject(ToggleObject(selected, id), id) == selected
    ensures id in selected ==> ToggleObject(ToggleObject(selected, id), id) == Without(selected, id) + [id]
  {
    if id !in selected {
      WithoutAppended(selected, id);
      WithoutAbsent(selected, id);
    }
  }
}
