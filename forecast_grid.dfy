/**
 * The date/hour indexer behind the forecast grid (`buildForecastGrid`) and
 * the evaluation step that precedes it: records are bucketed by date in order
 * of first appearance, and each date gets one slot per burn hour, 0800 to
 * 2000, holding the first record for that hour or a no-data marker.
 */
module ForecastGrid {
  import opened Wrappers
  import opened JsText
  import opened Forecast
  import opened Prescription
  import Seqs

  /** A record with its status attached (`{...period, status}`). */
  datatype Evaluated = Evaluated(period: HourRecord, status: Status)

  datatype Slot = NoData(hour: string) | Filled(record: Evaluated)

  datatype DayColumn = DayColumn(date: string, slots: seq<Slot>)

  const BurnHours: seq<string> :=
    ["0800", "0900", "1000", "1100", "1200", "1300", "1400",
     "1500", "1600", "1700", "1800", "1900", "2000"]

  /** The status of every burn-window record, with order and length kept. */
  function EvaluateBurnPeriods(records: seq<HourRecord>, preferred: Criteria, acceptable: Criteria): (evaluated: seq<Evaluated>)
    ensures |evaluated| == |records|
    ensures forall i :: 0 <= i < |records| ==>
      evaluated[i].period == records[i] &&
      evaluated[i].status == DetermineStatus(records[i], preferred, acceptable)
  {
    seq(|records|, i requires 0 <= i < |records| => Evaluated(records[i], DetermineStatus(records[i], preferred, acceptable)))
  }

  /** The keys of the grouping object in insertion order: each date once, in
      the order of its first record. */
  function DatesOf(records: seq<Evaluated>): (dates: seq<string>)
    ensures forall d :: d in dates <==> exists k :: 0 <= k < |records| && records[k].period.date == d
    ensures forall i, j :: 0 <= i < j < |dates| ==> dates[i] != dates[j]
  {
    if records == [] then []
    else
      var init := DatesOf(records[..|records| - 1]);
      var d := records[|records| - 1].period.date;
      assert forall k :: 0 <= k < |records| - 1 ==> records[..|records| - 1][k] == records[k];
      if d in init then init else init + [d]
  }

  /** The bucket of one date: that date's records in input order. */
  function OnDate(records: seq<Evaluated>, date: string): (bucket: seq<Evaluated>)
    ensures Seqs.IsSubsequence(bucket, records)
    ensures forall e :: multiset(bucket)[e] == if e.period.date == date then multiset(records)[e] else 0
    ensures forall e :: e in bucket <==> e in records && e.period.date == date
  {
    Seqs.Filter(records, DateIs(date))
  }

  function DateIs(date: string): Evaluated -> bool
  {
    (e: Evaluated) => e.period.date == date
  }

  /** The slot the grid shows for `hour`: the first record with that hour
      label, or a no-data marker when there is none. */
  ghost predicate IsSlotFor(records: seq<Evaluated>, hour: string, slot: Slot)
  {
    match slot
    case NoData(h) =>
      h == hour && forall k :: 0 <= k < |records| ==> records[k].period.hour != hour
    case Filled(e) =>
      exists k :: 0 <= k < |records| && records[k] == e && e.period.hour == hour &&
        forall j :: 0 <= j < k ==> records[j].period.hour != hour
  }

  /** One column per date in order of first appearance, each with the slot
      of every burn hour for that date's bucket. */
  ghost predicate IsGridOf(records: seq<Evaluated>, grid: seq<DayColumn>)
  {
    |grid| == |DatesOf(records)| &&
    forall i :: 0 <= i < |grid| ==> IsColumnOf(OnDate(records, DatesOf(records)[i]), DatesOf(records)[i], grid[i])
  }

  /** The column of a date: its 13 slots, one per burn hour in order, for
      the bucket of that date. */
  ghost predicate IsColumnOf(bucket: seq<Evaluated>, date: string, column: DayColumn)
  {
    column.date == date && |column.slots| == |BurnHours| &&
    forall j :: 0 <= j < |BurnHours| ==> IsSlotFor(bucket, BurnHours[j], column.slots[j])
  }

  /** Every date holds a dash. A plain object lists such keys in insertion
      order and inherits none of them, so the grouping below opens a bucket
      at each new date; array-index keys, listed first and in ascending
      order, and inherited names such as "constructor", on which the push
      throws, are excluded. */
  predicate PlainKeys(records: seq<Evaluated>)
  {
    forall k :: 0 <= k < |records| ==> '-' in records[k].period.date
  }

  /** The grouping `reduce`: walks the records once, appending each to the
      bucket of its date and opening a bucket at a date's first record. */
  method GroupByDate(records: seq<Evaluated>) returns (dates: seq<string>, groups: map<string, seq<Evaluated>>)
    requires PlainKeys(records)
    ensures dates == DatesOf(records)
    ensures forall d :: d in groups <==> d in dates
    ensures forall d :: d in groups ==> groups[d] == OnDate(records, d)
  {
    dates, groups := [], map[];
    var i := 0;
    while i < |records|
      invariant 0 <= i <= |records|
      invariant Grouped(records[..i], dates, groups)
    {
      var e := records[i];
      var d := e.period.date;
      ghost var before, beforeDates := groups, dates;
      var bucket := [];
      if d in groups {
        bucket := groups[d];
      } else {
        dates := dates + [d];
      }
      groups := groups[d := bucket + [e]];
      Seqs.TakeSnoc(records, i);
      GroupedStep(records[..i], e, records[..i + 1], beforeDates, before, dates, groups);
      i := i + 1;
    }
    assert records[..i] == records;
  }

  /** The grouping state after a prefix: its dates in insertion order, and
      for each of them, and no other key, the bucket of that date. */
  ghost predicate Grouped(prefix: seq<Evaluated>, dates: seq<string>, groups: map<string, seq<Evaluated>>)
  {
    && dates == DatesOf(prefix)
    && (forall d :: d in groups <==> d in dates)
    && (forall d :: d in groups ==> groups[d] == OnDate(prefix, d))
  }

  lemma GroupedStep(prefix: seq<Evaluated>, e: Evaluated, longer: seq<Evaluated>,
                    dates: seq<string>, groups: map<string, seq<Evaluated>>,
                    dates': seq<string>, groups': map<string, seq<Evaluated>>)
    requires longer == prefix + [e]
    requires Grouped(prefix, dates, groups)
    requires var d := e.period.date;
      dates' == (if d in groups then dates else dates + [d]) &&
      groups' == groups[d := (if d in groups then groups[d] else []) + [e]]
    ensures Grouped(longer, dates', groups')
  {
    GroupStep(prefix, e, longer, dates, groups, dates', groups');
  }

  /** One step of the grouping: appending `e` to the bucket of its date,
      opened first when the date is new, keeps the keys and buckets equal to
      those of the longer prefix. */
  lemma GroupStep(prefix: seq<Evaluated>, e: Evaluated, longer: seq<Evaluated>,
                  dates: seq<string>, groups: map<string, seq<Evaluated>>,
                  dates': seq<string>, groups': map<string, seq<Evaluated>>)
    requires longer == prefix + [e]
    requires dates == DatesOf(prefix)
    requires forall d :: d in groups <==> d in dates
    requires forall d :: d in groups ==> groups[d] == OnDate(prefix, d)
    requires var d := e.period.date;
      dates' == (if d in groups then dates else dates + [d]) &&
      groups' == groups[d := (if d in groups then groups[d] else []) + [e]]
    ensures dates' == DatesOf(longer)
    ensures forall d :: d in groups' <==> d in dates'
    ensures forall d :: d in groups' ==> groups'[d] == OnDate(longer, d)
  {
    var d := e.period.date;
    DatesOfSnoc(prefix, e);
    forall d' | d' in groups' ensures groups'[d'] == OnDate(longer, d') {
      OnDateSnoc(prefix, e, d');
      if d' == d && d !in groups {
        OnDateOfAbsentDate(prefix, d);
      }
    }
  }

  lemma ColumnsSnoc(records: seq<Evaluated>, dates: seq<string>, grid: seq<DayColumn>, column: DayColumn)
    requires |grid| < |dates|
    requires forall m :: 0 <= m < |grid| ==> IsColumnOf(OnDate(records, dates[m]), dates[m], grid[m])
    requires IsColumnOf(OnDate(records, dates[|grid|]), dates[|grid|], column)
    ensures forall m :: 0 <= m < |grid| + 1 ==> IsColumnOf(OnDate(records, dates[m]), dates[m], (grid + [column])[m])
  {
    var g := grid + [column];
    forall m | 0 <= m < |g| ensures IsColumnOf(OnDate(records, dates[m]), dates[m], g[m]) {
      if m < |grid| {
        assert g[m] == grid[m];
      }
    }
  }

  /** The columns come in the order of the dates' first records: the first
      record of an earlier column precedes every record of a later one. */
  lemma {:induction false} DatesInFirstAppearanceOrder(records: seq<Evaluated>, i: nat, j: nat)
    requires i < j < |DatesOf(records)|
    ensures exists k :: 0 <= k < |records| && records[k].period.date == DatesOf(records)[i] &&
                        forall m :: 0 <= m <= k ==> records[m].period.date != DatesOf(records)[j]
  {
    var n := |records|;
    var init := records[..n - 1];
    var e := records[n - 1];
    assert records == init + [e];
    DatesOfSnoc(init, e);
    var ds := DatesOf(records);
    if j < |DatesOf(init)| {
      DatesInFirstAppearanceOrder(init, i, j);
      var k :| 0 <= k < |init| && init[k].period.date == DatesOf(init)[i] &&
        forall m :: 0 <= m <= k ==> init[m].period.date != DatesOf(init)[j];
      assert records[k] == init[k];
    } else {
      var d := ds[i];
      assert d in DatesOf(init);
      var k :| 0 <= k < |init| && init[k].period.date == d;
      assert records[k] == init[k];
      forall m | 0 <= m <= k ensures records[m].period.date != ds[j] {
        assert records[m] == init[m];
      }
    }
  }

  lemma DatesOfSnoc(prefix: seq<Evaluated>, e: Evaluated)
    ensures DatesOf(prefix + [e]) ==
      if e.period.date in DatesOf(prefix) then DatesOf(prefix) else DatesOf(prefix) + [e.period.date]
  {
    assert (prefix + [e])[..|prefix|] == prefix;
  }

  lemma OnDateSnoc(prefix: seq<Evaluated>, e: Evaluated, d: string)
    ensures OnDate(prefix + [e], d) == OnDate(prefix, d) + (if e.period.date == d then [e] else [])
  {
    Seqs.FilterSnoc(prefix, e, DateIs(d));
  }

  lemma OnDateOfAbsentDate(records: seq<Evaluated>, d: string)
    requires d !in DatesOf(records)
    ensures OnDate(records, d) == []
  {
  }

  /** `periods.find(p => p.hour === hour)`. */
  method FindByHour(records: seq<Evaluated>, hour: string) returns (slot: Slot)
    ensures IsSlotFor(records, hour, slot)
  {
    var k := 0;
    while k < |records|
      invariant 0 <= k <= |records|
      invariant forall j :: 0 <= j < k ==> records[j].period.hour != hour
    {
      if records[k].period.hour == hour {
        return Filled(records[k]);
      }
      k := k + 1;
    }
    return NoData(hour);
  }

  /** One column: a slot for each burn hour, in order. */
  method BuildDayColumn(date: string, records: seq<Evaluated>) returns (column: DayColumn)
    ensures IsColumnOf(records, date, column)
  {
    var slots: seq<Slot> := [];
    for j := 0 to |BurnHours|
      invariant |slots| == j
      invariant forall m :: 0 <= m < j ==> IsSlotFor(records, BurnHours[m], slots[m])
    {
      var slot := FindByHour(records, BurnHours[j]);
      slots := slots + [slot];
    }
    column := DayColumn(date, slots);
  }

  /** The grid: one column per date in order of first appearance, each with
      the slots of that date's bucket. */
  method BuildForecastGrid(records: seq<Evaluated>) returns (grid: seq<DayColumn>)
    requires PlainKeys(records)
    ensures IsGridOf(records, grid)
  {
    var dates, groups := GroupByDate(records);
    grid := [];
    for i := 0 to |dates|
      invariant |grid| == i
      invariant forall m :: 0 <= m < i ==> IsColumnOf(OnDate(records, dates[m]), dates[m], grid[m])
    {
      var d := dates[i];
      assert d in groups;
      var column := BuildDayColumn(d, groups[d]);
      ColumnsSnoc(records, dates, grid, column);
      grid := grid + [column];
    }
  }

  /** The thirteen burn hours are the hour labels of 08 to 20. */
  lemma BurnHoursAreHourLabels()
    ensures |BurnHours| == 13
    ensures forall j :: 0 <= j < 13 ==> BurnHours[j] == HourLabel(8 + j)
  {
    forall j | 0 <= j < 13 ensures BurnHours[j] == HourLabel(8 + j) {
      BurnHourLabel(j);
    }
  }

  /** The characters of each listed hour label. */
  lemma BurnHourChars(j: nat)
    requires j < 13
    ensures BurnHours[j] == [DigitChar((8 + j) / 10), DigitChar((8 + j) % 10), '0', '0']
  {
  }

  lemma BurnHourLabel(j: nat)
    requires j < 13
    ensures BurnHours[j] == HourLabel(8 + j)
  {
    HourLabelChars(8 + j);
    BurnHourChars(j);
  }

  /** Only one slot fits a bucket and an hour: the first record, or no data. */
  lemma SlotIsUnique(records: seq<Evaluated>, hour: string, s1: Slot, s2: Slot)
    requires IsSlotFor(records, hour, s1) && IsSlotFor(records, hour, s2)
    ensures s1 == s2
  {
  }

  /** Every record of a date whose hour is a burn hour is represented in the
      column of its date: the slot for that hour holds it or an earlier
      record of the same date and hour, never no data. */
  lemma RecordIsShown(records: seq<Evaluated>, e: Evaluated, j: nat, slot: Slot)
    requires e in records && j < |BurnHours| && e.period.hour == BurnHours[j]
    requires IsSlotFor(OnDate(records, e.period.date), BurnHours[j], slot)
    ensures slot.Filled?
    ensures slot.record.period.date == e.period.date && slot.record.period.hour == e.period.hour
    ensures slot.record in records
  {
  }

  /** A normalised period kept by the burn-hour filter lands in the slot of
      its local hour, so every kept record has a place in its column. */
  lemma KeptRecordHasSlot(p: ForecastPeriod)
    requires IsCalendarTime(p) && InBurnWindow(ToRecord(p))
    ensures 8 <= p.localHours <= 20
    ensures ToRecord(p).hour == BurnHours[p.localHours - 8]
  {
    BurnWindowIsHours8To20(p);
    BurnHoursAreHourLabels();
  }

  /** What a filled slot holds: a record of that column's date and that
      slot's hour, taken from the evaluated sequence. */
  lemma FilledSlotRecord(records: seq<Evaluated>, date: string, hour: string, slot: Slot)
    requires IsSlotFor(OnDate(records, date), hour, slot) && slot.Filled?
    ensures slot.record in records
    ensures slot.record.period.date == date && slot.record.period.hour == hour
  {
    var k :| 0 <= k < |OnDate(records, date)| && OnDate(records, date)[k] == slot.record;
    assert slot.record in OnDate(records, date);
  }

  /** Every filled slot of a grid holds a record of the grid's input with the
      column's date and the slot's hour. */
  lemma FilledSlotsOfGrid(records: seq<Evaluated>, grid: seq<DayColumn>)
    requires IsGridOf(records, grid)
    ensures forall i, j :: 0 <= i < |grid| && 0 <= j < |grid[i].slots| && grid[i].slots[j].Filled? ==>
      grid[i].slots[j].record in records &&
      grid[i].slots[j].record.period.date == grid[i].date &&
      grid[i].slots[j].record.period.hour == BurnHours[j]
  {
    forall i, j | 0 <= i < |grid| && 0 <= j < |grid[i].slots| && grid[i].slots[j].Filled?
      ensures grid[i].slots[j].record in records
      ensures grid[i].slots[j].record.period.date == grid[i].date
      ensures grid[i].slots[j].record.period.hour == BurnHours[j]
    {
      FilledSlotRecord(records, grid[i].date, BurnHours[j], grid[i].slots[j]);
    }
  }

  /** A record of the evaluated sequence carries the status its period gets
      and comes from the kept records. */
  lemma EvaluatedMember(records: seq<HourRecord>, preferred: Criteria, acceptable: Criteria, e: Evaluated)
    requires e in EvaluateBurnPeriods(records, preferred, acceptable)
    ensures e.period in records && e.status == DetermineStatus(e.period, preferred, acceptable)
  {
    var evaluated := EvaluateBurnPeriods(records, preferred, acceptable);
    var k :| 0 <= k < |evaluated| && evaluated[k] == e;
  }

  /** The submit handler's pipeline: normalise, keep the burn hours, classify
      each record, and lay the result out by date and hour. */
  method PlanBurnWindow(periods: seq<ForecastPeriod>, preferred: Criteria, acceptable: Criteria)
    returns (grid: seq<DayColumn>)
    ensures IsGridOf(EvaluateBurnPeriods(FilterBurnPeriods(ProcessForecastData(periods)), preferred, acceptable), grid)
    ensures forall i, j :: 0 <= i < |grid| && 0 <= j < |grid[i].slots| && grid[i].slots[j].Filled? ==>
      grid[i].slots[j].record.period.date == grid[i].date &&
      grid[i].slots[j].record.period.hour == BurnHours[j] &&
      grid[i].slots[j].record.period in FilterBurnPeriods(ProcessForecastData(periods)) &&
      grid[i].slots[j].record.status == DetermineStatus(grid[i].slots[j].record.period, preferred, acceptable)
  {
    var structured := ProcessForecastData(periods);
    var burnPeriods := FilterBurnPeriods(structured);
    var evaluated := EvaluateBurnPeriods(burnPeriods, preferred, acceptable);
    ProcessedDatesHaveDash(periods);
    assert PlainKeys(evaluated) by {
      forall k | 0 <= k < |evaluated| ensures '-' in evaluated[k].period.date {
        assert burnPeriods[k] in structured;
      }
    }
    grid := BuildForecastGrid(evaluated);
    FilledSlotsOfGrid(evaluated, grid);
    forall i, j | 0 <= i < |grid| && 0 <= j < |grid[i].slots| && grid[i].slots[j].Filled?
      ensures grid[i].slots[j].record.period in burnPeriods
      ensures grid[i].slots[j].record.status == DetermineStatus(grid[i].slots[j].record.period, preferred, acceptable)
    {
      EvaluatedMember(burnPeriods, preferred, acceptable, grid[i].slots[j].record);
    }
  }
}
