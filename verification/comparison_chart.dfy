/**
 * `CompetitorComparisonChart`: points grouped by "competitor - keyword",
 * the distinct dates in ascending order, and one chart row per date holding,
 * for every group, the ranking of that group's first point on the date.
 * Dates are day numbers; their `MM/dd` rendering is not modelled.
 */
module ComparisonChart {
  import opened Common
  import opened Grouping

  datatype ComparisonPoint = ComparisonPoint(date: int, ranking: int, keyword: string, competitorName: string, competitorId: string)

  /** `${point.competitorName} - ${point.keyword}`. */
  function SeriesKey(p: ComparisonPoint): string {
    p.competitorName + " - " + p.keyword
  }

  /**
   * Every key holds the " - " separator, so no group key is `date` and no
   * group overwrites the `date` property a chart row starts with.
   */
  lemma SeriesKeyNotDate(p: ComparisonPoint)
    ensures |SeriesKey(p)| == |p.competitorName| + 3 + |p.keyword|
    ensures SeriesKey(p)[|p.competitorName|..|p.competitorName| + 3] == " - "
    ensures SeriesKey(p) != "date"
  {
    var sep := p.competitorName + " - ";
    assert sep[|p.competitorName|..] == " - ";
    assert SeriesKey(p)[..|sep|] == sep;
    assert SeriesKey(p)[|p.competitorName| + 1] == sep[|p.competitorName| + 1] == '-';
  }

  /** The eight series colours, cycled by group index. */
  const Palette: seq<string> := [
    "hsl(var(--primary))", "hsl(var(--secondary))", "hsl(var(--accent))", "hsl(var(--success))",
    "hsl(var(--warning))", "hsl(var(--destructive))", "hsl(220, 70%, 50%)", "hsl(280, 70%, 50%)"]

  /** One row of `chartData`: the date and, per group in group order, its ranking on that date or nothing. */
  datatype ChartRow = ChartRow(date: int, values: seq<Option<int>>)

  function DatesOf(data: seq<ComparisonPoint>): set<int> {
    set p | p in data :: p.date
  }

  /** `items.find(p => p.date === date)`. */
  function FirstOn(items: seq<ComparisonPoint>, date: int): Option<ComparisonPoint> {
    if items == [] then None
    else
      var earlier := FirstOn(items[..|items| - 1], date);
      if earlier.Some? then earlier
      else if items[|items| - 1].date == date then Some(items[|items| - 1])
      else None
  }

  /** The index of the first point of the whole input with key `k` on `date`. */
  function FirstIndex(data: seq<ComparisonPoint>, k: string, date: int): (r: Option<nat>)
    ensures r.Some? ==> r.value < |data| && SeriesKey(data[r.value]) == k && data[r.value].date == date
    ensures r.Some? ==> forall j :: 0 <= j < r.value ==> !(SeriesKey(data[j]) == k && data[j].date == date)
    ensures r.None? <==> forall j :: 0 <= j < |data| ==> !(SeriesKey(data[j]) == k && data[j].date == date)
  {
    if data == [] then None
    else
      var earlier := FirstIndex(data[..|data| - 1], k, date);
      if earlier.Some? then earlier
      else if SeriesKey(data[|data| - 1]) == k && data[|data| - 1].date == date then Some(|data| - 1)
      else None
  }

  /** The value a row holds for the group with key `k`: its ranking on `date`, if any. */
  function ValueOn(data: seq<ComparisonPoint>, k: string, date: int): Option<int> {
    match FirstIndex(data, k, date)
    case Some(i) => Some(data[i].ranking)
    case None => None
  }

  /** The point an index found by `FirstIndex` designates. */
  function PointAt(data: seq<ComparisonPoint>, i: Option<nat>): Option<ComparisonPoint> {
    if i.Some? && i.value < |data| then Some(data[i.value]) else None
  }

  /**
   * Searching a group for a date finds the first point of the whole input
   * with that group's key and that date.
   */
  lemma {:induction false} FirstOnGroup(data: seq<ComparisonPoint>, k: string, date: int)
    ensures FirstOn(Select(data, SeriesKey, k), date) == PointAt(data, FirstIndex(data, k, date))
  {
    if data != [] {
      var init := data[..|data| - 1];
      var last := data[|data| - 1];
      FirstOnGroup(init, k, date);
      var sel := Select(init, SeriesKey, k);
      PointAtPrefix(data, FirstIndex(init, k, date));
      if SeriesKey(last) == k {
        assert Select(data, SeriesKey, k) == sel + [last];
        FirstOnSnoc(sel, last, date);
      } else {
        assert Select(data, SeriesKey, k) == sel;
      }
    }
  }

  /** Searching one more point changes nothing once the date was found earlier. */
  lemma FirstOnSnoc(items: seq<ComparisonPoint>, p: ComparisonPoint, date: int)
    ensures FirstOn(items + [p], date)
         == if FirstOn(items, date).Some? then FirstOn(items, date) else if p.date == date then Some(p) else None
  {
    assert (items + [p])[..|items|] == items;
  }

  /** An index into all but the last point designates the same point in the whole input. */
  lemma PointAtPrefix(data: seq<ComparisonPoint>, i: Option<nat>)
    requires data != [] && (i.Some? ==> i.value < |data| - 1)
    ensures PointAt(data[..|data| - 1], i) == PointAt(data, i)
  {
  }

  /** `[...new Set(data.map(d => d.date))]`: each date once, in first-appearance order. */
  method DistinctDates(data: seq<ComparisonPoint>) returns (dates: seq<int>)
    ensures Distinct(dates)
    ensures forall d :: d in dates <==> d in DatesOf(data)
  {
    dates := [];
    for i := 0 to |data|
      invariant Distinct(dates)
      invariant forall d :: d in dates <==> d in DatesOf(data[..i])
    {
      assert data[..i + 1] == data[..i] + [data[i]];
      if data[i].date !in dates {
        dates := dates + [data[i].date];
      }
    }
    assert data[..|data|] == data;
  }

  /**
   * `chartData`, with the groups it is keyed by: one row per distinct date,
   * in ascending order, holding for every group (in first-appearance order)
   * the ranking of the first input point with that group's key on that
   * date, or nothing.
   */
  method ChartData(data: seq<ComparisonPoint>) returns (groups: seq<Group<ComparisonPoint>>, rows: seq<ChartRow>)
    ensures GroupedExactly(groups, data, SeriesKey)
    ensures StrictlyIncreasing(seq(|rows|, i requires 0 <= i < |rows| => rows[i].date))
    ensures forall d :: d in DatesOf(data) <==> exists i :: 0 <= i < |rows| && rows[i].date == d
    ensures forall i :: 0 <= i < |rows| ==> |rows[i].values| == |groups|
    ensures forall i, j :: 0 <= i < |rows| && 0 <= j < |groups| ==> rows[i].values[j] == ValueOn(data, groups[j].key, rows[i].date)
  {
    groups := GroupBy(data, SeriesKey);
    var seen := DistinctDates(data);
    var dates := SortAscending(seen);
    rows := [];
    for i := 0 to |dates|
      invariant |rows| == i
      invariant forall m :: 0 <= m < i ==> rows[m].date == dates[m] && |rows[m].values| == |groups|
      invariant forall m, j :: 0 <= m < i && 0 <= j < |groups| ==> rows[m].values[j] == ValueOn(data, groups[j].key, rows[m].date)
    {
      var values := RowValues(data, groups, dates[i]);
      rows := rows + [ChartRow(dates[i], values)];
    }
    assert seq(|rows|, i requires 0 <= i < |rows| => rows[i].date) == dates;
    forall d | d in DatesOf(data) ensures exists i :: 0 <= i < |rows| && rows[i].date == d {
      var i :| 0 <= i < |dates| && dates[i] == d;
      assert rows[i].date == d;
    }
  }

  /** One row: for each group, in order, `groupedData[key].find(p => p.date === date)?.ranking`. */
  method RowValues(data: seq<ComparisonPoint>, groups: seq<Group<ComparisonPoint>>, date: int) returns (values: seq<Option<int>>)
    requires GroupedExactly(groups, data, SeriesKey)
    ensures |values| == |groups|
    ensures forall j :: 0 <= j < |groups| ==> values[j] == ValueOn(data, groups[j].key, date)
  {
    values := [];
    for j := 0 to |groups|
      invariant |values| == j
      invariant forall m :: 0 <= m < j ==> values[m] == ValueOn(data, groups[m].key, date)
    {
      var point := FirstOn(groups[j].items, date);
      FirstOnGroup(data, groups[j].key, date);
      values := values + [if point.Some? then Some(point.value.ranking) else None];
    }
  }

  /** The colour of group `index`: `colors[index % 8]`. */
  function GroupColour(index: nat): (c: string)
    ensures c in Palette
    ensures index < 8 ==> c == Palette[index]
  {
    SeriesColour(Palette, index)
  }

  /** Group `index + 8` gets the same colour as group `index`. */
  lemma GroupColourCycles(index: nat)
    ensures GroupColour(index + 8) == GroupColour(index)
  {
    SeriesColourCycles(Palette, index);
  }
}
