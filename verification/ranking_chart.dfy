/**
 * `RankingChart`: points grouped by keyword (else competitor name, else
 * "unknown"), and rows aligned by position: row `i` takes its date from the
 * first group's `i`-th point and holds, for every group that has an `i`-th
 * point, that point's ranking. A group keyed `date` writes its ranking over
 * the row's date. Dates are day numbers; their `MM/dd` rendering is not
 * modelled.
 */
module RankingChart {
  import opened Common
  import opened Grouping

  datatype RankingPoint = RankingPoint(date: int, ranking: int, keyword: Option<string>, competitorName: Option<string>)

  /** `point.keyword || point.competitorName || 'unknown'`: a missing or empty string falls through. */
  function SeriesKey(p: RankingPoint): (k: string)
    ensures k != ""
    ensures p.keyword.Some? && p.keyword.value != "" ==> k == p.keyword.value
    ensures (p.keyword.None? || p.keyword.value == "") && p.competitorName.Some? && p.competitorName.value != "" ==> k == p.competitorName.value
    ensures (p.keyword.None? || p.keyword.value == "") && (p.competitorName.None? || p.competitorName.value == "") ==> k == "unknown"
  {
    NameOr(p.keyword, NameOr(p.competitorName, "unknown"))
  }

  /** The five series colours, cycled by group index. */
  const Palette: seq<string> := [
    "hsl(var(--primary))", "hsl(var(--secondary))", "hsl(var(--accent))", "hsl(var(--success))", "hsl(var(--warning))"]

  /**
   * The `date` property of a row: the day of the first group's point, or,
   * when a group is keyed `date` and has a point at this position, that
   * point's ranking, since `dataPoint[key] = ...` writes the same property.
   */
  datatype DateCell = Day(day: int) | RankingAsDate(ranking: int)

  /** One row of `chartData`: its `date` property and, per group in group order, its ranking at this position or nothing. */
  datatype ChartRow = ChartRow(date: DateCell, values: seq<Option<int>>)

  /** The `date` property after the groups' writes, starting from `{date: day}`: the last write wins. */
  function DateAfter(groups: seq<Group<RankingPoint>>, index: nat, day: int): (d: DateCell)
    ensures d.Day? ==> d.day == day
    ensures (forall j :: 0 <= j < |groups| ==> groups[j].key != "date") ==> d == Day(day)
  {
    if groups == [] then Day(day)
    else
      var last := groups[|groups| - 1];
      if last.key == "date" && index < |last.items| then RankingAsDate(last.items[index].ranking)
      else DateAfter(groups[..|groups| - 1], index, day)
  }

  /** Row `index`: the `date` property started from the first group's point there, and every group's ranking there if it has one. */
  function RowAt(groups: seq<Group<RankingPoint>>, index: nat): ChartRow
    requires groups != [] && index < |groups[0].items|
  {
    ChartRow(DateAfter(groups, index, groups[0].items[index].date),
      seq(|groups|, j requires 0 <= j < |groups| =>
        if index < |groups[j].items| then Some(groups[j].items[index].ranking) else None))
  }

  /**
   * With distinct group keys, the row's `date` is the day unless the group
   * keyed `date` has a point at this position, whose ranking then replaces it.
   */
  lemma {:induction false} DateOverwritten(groups: seq<Group<RankingPoint>>, index: nat, day: int)
    requires KeysDistinct(groups)
    ensures forall j :: 0 <= j < |groups| && groups[j].key == "date" ==>
      DateAfter(groups, index, day) == if index < |groups[j].items| then RankingAsDate(groups[j].items[index].ranking) else Day(day)
  {
    if groups != [] {
      var init := groups[..|groups| - 1];
      assert KeysDistinct(init) by {
        forall a, b | 0 <= a < b < |init| ensures init[a].key != init[b].key {
          assert init[a] == groups[a] && init[b] == groups[b];
        }
      }
      DateOverwritten(init, index, day);
      forall j | 0 <= j < |groups| && groups[j].key == "date"
        ensures DateAfter(groups, index, day) == if index < |groups[j].items| then RankingAsDate(groups[j].items[index].ranking) else Day(day)
      {
        if j < |init| {
          assert init[j] == groups[j];
          assert groups[|groups| - 1].key != "date";
        }
      }
    }
  }

  /**
   * `chartData`: no rows without data; otherwise one row per point of the
   * first group, which is the group of the first point's key, positions
   * aligned across groups regardless of dates. A row's `date` is the first
   * group's day there, unless a group keyed `date` has a point there.
   */
  method ChartData(data: seq<RankingPoint>) returns (groups: seq<Group<RankingPoint>>, rows: seq<ChartRow>)
    ensures GroupedExactly(groups, data, SeriesKey)
    ensures groups == [] <==> data == []
    ensures groups == [] ==> rows == []
    ensures groups != [] ==> groups[0].key == SeriesKey(data[0]) && |rows| == |groups[0].items|
    ensures groups != [] ==> forall i :: 0 <= i < |rows| ==> rows[i] == RowAt(groups, i)
    ensures forall i, j :: 0 <= i < |rows| && 0 <= j < |groups| && groups[j].key == "date" ==>
      rows[i].date == if i < |groups[j].items| then RankingAsDate(groups[j].items[i].ranking) else Day(groups[0].items[i].date)
    ensures (forall j :: 0 <= j < |groups| ==> groups[j].key != "date") ==>
      forall i :: 0 <= i < |rows| ==> rows[i].date == Day(groups[0].items[i].date)
  {
    groups := GroupBy(data, SeriesKey);
    if data == [] {
      return groups, [];
    }
    FirstGroupIsFirstKey(data);
    rows := PositionRows(groups);
    forall i | 0 <= i < |rows|
      ensures forall j :: 0 <= j < |groups| && groups[j].key == "date" ==>
        rows[i].date == if i < |groups[j].items| then RankingAsDate(groups[j].items[i].ranking) else Day(groups[0].items[i].date)
    {
      DateOverwritten(groups, i, groups[0].items[i].date);
    }
  }

  /** `Object.values(groupedData)[0]?.map(...)` over a non-empty dictionary. */
  method PositionRows(groups: seq<Group<RankingPoint>>) returns (rows: seq<ChartRow>)
    requires groups != []
    ensures |rows| == |groups[0].items|
    ensures forall i :: 0 <= i < |rows| ==> rows[i] == RowAt(groups, i)
  {
    var first := groups[0].items;
    rows := [];
    for i := 0 to |first|
      invariant |rows| == i
      invariant forall m :: 0 <= m < i ==> rows[m] == RowAt(groups, m)
    {
      var date, values := PositionValues(groups, i, first[i].date);
      rows := rows + [ChartRow(date, values)];
    }
  }

  /**
   * One `dataPoint`: starting from `{date: day}`, for every group in order,
   * `dataPoint[key] = groupedData[key][index].ranking` when that point exists.
   */
  method PositionValues(groups: seq<Group<RankingPoint>>, index: nat, day: int) returns (date: DateCell, values: seq<Option<int>>)
    ensures date == DateAfter(groups, index, day)
    ensures |values| == |groups|
    ensures forall j :: 0 <= j < |groups| ==>
      values[j] == if index < |groups[j].items| then Some(groups[j].items[index].ranking) else None
  {
    date := Day(day);
    values := [];
    for j := 0 to |groups|
      invariant date == DateAfter(groups[..j], index, day)
      invariant |values| == j
      invariant forall m :: 0 <= m < j ==>
        values[m] == if index < |groups[m].items| then Some(groups[m].items[index].ranking) else None
    {
      assert groups[..j + 1][..j] == groups[..j];
      var v := if index < |groups[j].items| then Some(groups[j].items[index].ranking) else None;
      if groups[j].key == "date" && v.Some? {
        date := RankingAsDate(v.value);
      }
      values := values + [v];
    }
    assert groups[..|groups|] == groups;
  }

  /** A keyword named `date` with a point at position 0 puts its ranking, 7, where row 0's date belongs. */
  lemma DateKeywordHidesDate()
    ensures var data := [RankingPoint(1, 3, Some("seo"), None), RankingPoint(1, 7, Some("date"), None)];
      var groups := GroupsOf(data, SeriesKey);
      |groups| == 2 && RowAt(groups, 0).date == RankingAsDate(7)
  {
    var data := [RankingPoint(1, 3, Some("seo"), None), RankingPoint(1, 7, Some("date"), None)];
    assert SeriesKey(data[0]) == "seo" && SeriesKey(data[1]) == "date";
    assert data[..1][..0] == [] && data[..1][0] == data[0];
    assert GroupsOf(data[..1][..0], SeriesKey) == [];
    var none: seq<Group<RankingPoint>> := [];
    assert FindKey(none, "seo") == None;
    var g1 := GroupsOf(data[..1], SeriesKey);
    assert g1 == AddPoint(none, "seo", data[0]);
    assert g1 == [Group("seo", [data[0]])];
    assert data[..|data| - 1] == data[..1];
    assert FindKey(g1, "date") == None by {
      assert g1[0].key != "date";
    }
    assert GroupsOf(data, SeriesKey) == [Group("seo", [data[0]]), Group("date", [data[1]])];
  }

  /** The first group is keyed by the first point's key: the dictionary keeps insertion order. */
  lemma {:induction false} FirstGroupIsFirstKey(data: seq<RankingPoint>)
    requires data != []
    ensures GroupsOf(data, SeriesKey) != []
    ensures GroupsOf(data, SeriesKey)[0].key == SeriesKey(data[0])
  {
    if |data| == 1 {
      assert GroupsOf(data[..0], SeriesKey) == [];
    } else {
      var init := data[..|data| - 1];
      FirstGroupIsFirstKey(init);
      var gs := GroupsOf(init, SeriesKey);
      assert init[0] == data[0];
      var last := data[|data| - 1];
      match FindKey(gs, SeriesKey(last))
      case Some(j) =>
      case None =>
    }
  }

  /** The colour of group `index`: `colors[index % 5]`. */
  function GroupColour(index: nat): (c: string)
    ensures c in Palette
    ensures index < 5 ==> c == Palette[index]
  {
    SeriesColour(Palette, index)
  }

  /** Group `index + 5` gets the same colour as group `index`. */
  lemma GroupColourCycles(index: nat)
    ensures GroupColour(index + 5) == GroupColour(index)
  {
    SeriesColourCycles(Palette, index);
  }
}
