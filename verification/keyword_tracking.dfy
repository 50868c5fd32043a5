/**
 * The keyword-tracking page: the latest ranking and the last change of a
 * tracking's history, adding a tracking (blank-input check and the limit of
 * two distinct websites), and the pivot of all histories into one chart row
 * per date. `histories` is the page's dictionary from tracking id to its
 * history in `checked_at` order; dates are day numbers.
 */
module KeywordTracking {
  import opened Common
  import opened Text

  /** A row of `keyword_tracking`. */
  datatype TrackingItem = TrackingItem(id: Id, keyword: string, websiteUrl: string, websiteName: Option<string>)

  /** A row of `keyword_tracking_history`: the ranking found (null when the site was not found) on a day. */
  datatype TrackingPoint = TrackingPoint(ranking: Option<int>, day: int)

  type Histories = map<Id, seq<TrackingPoint>>

  // ---------------------------------------------------------------------
  // Latest ranking and last change
  // ---------------------------------------------------------------------

  /** `getLatestRanking`: nothing for a missing or empty history, else the last point's ranking. */
  function LatestRanking(hs: Histories, id: Id): (r: Option<int>)
    ensures id !in hs || hs[id] == [] ==> r.None?
    ensures id in hs && hs[id] != [] ==> r == hs[id][|hs[id]| - 1].ranking
  {
    if id !in hs || hs[id] == [] then None else hs[id][|hs[id]| - 1].ranking
  }

  datatype Direction = Up | Down | Same

  datatype Change = Change(value: nat, direction: Direction)

  /**
   * `getRankingChange`: nothing with fewer than two points or when either of
   * the last two rankings is null; otherwise, with `change = previous -
   * latest`, up by `change`, down by `|change|`, or the same with value 0.
   */
  function RankingChange(hs: Histories, id: Id): (r: Option<Change>)
    ensures r.None? <==>
      id !in hs || |hs[id]| < 2 || hs[id][|hs[id]| - 1].ranking.None? || hs[id][|hs[id]| - 2].ranking.None?
    ensures r.Some? ==>
      var latest := hs[id][|hs[id]| - 1].ranking.value;
      var previous := hs[id][|hs[id]| - 2].ranking.value;
      && (r.value.direction == Up <==> previous > latest)
      && (r.value.direction == Down <==> previous < latest)
      && (r.value.direction == Same <==> r.value.value == 0)
  {
    if id !in hs || |hs[id]| < 2 then None
    else
      var h := hs[id];
      var latest := h[|h| - 1].ranking;
      var previous := h[|h| - 2].ranking;
      if latest.None? || previous.None? then None
      else
        var change := previous.value - latest.value;
        if change > 0 then Some(Change(change, Up))
        else if change < 0 then Some(Change(-change, Down))
        else Some(Change(0, Same))
  }

  /** The signed amount a change moves a ranking by: down the list is negative. */
  function Signed(c: Change): int {
    match c.direction
    case Up => c.value as int
    case Down => -(c.value as int)
    case Same => 0
  }

  /**
   * A change is always reported together with a latest ranking, and that
   * ranking is the previous one moved by the change.
   */
  lemma ChangeRecoversLatest(hs: Histories, id: Id)
    requires RankingChange(hs, id).Some?
    ensures LatestRanking(hs, id).Some?
    ensures LatestRanking(hs, id).value == hs[id][|hs[id]| - 2].ranking.value - Signed(RankingChange(hs, id).value)
  {
  }

  // ---------------------------------------------------------------------
  // Adding a tracking
  // ---------------------------------------------------------------------

  datatype Rejection = BlankInput | LimitReached | NotSignedIn | InsertFailed

  /** `new Set(trackings.map(t => t.website_url))`. */
  function Urls(items: seq<TrackingItem>): set<string> {
    set t | t in items :: t.websiteUrl
  }

  /** The limit check as written: the URL is looked up as typed, before trimming. */
  predicate LimitReachedAsWritten(items: seq<TrackingItem>, url: string) {
    url !in Urls(items) && |Urls(items)| >= 2
  }

  /**
   * The limit check on the URL that would be stored: refused exactly when it
   * would be a third distinct website.
   */
  predicate LimitReachedFor(items: seq<TrackingItem>, url: string) {
    Trim(url) !in Urls(items) && |Urls(items)| >= 2
  }

  /** The checks before any call: both fields non-blank, then the limit. */
  function Validate(items: seq<TrackingItem>, keyword: string, url: string): (r: Option<Rejection>)
    ensures r == Some(BlankInput) <==> Blank(keyword) || Blank(url)
    ensures r == Some(LimitReached) <==> !Blank(keyword) && !Blank(url) && LimitReachedFor(items, url)
    ensures r.None? <==> !Blank(keyword) && !Blank(url) && (Trim(url) in Urls(items) || |Urls(items)| < 2)
  {
    if Blank(keyword) || Blank(url) then Some(BlankInput)
    else if LimitReachedFor(items, url) then Some(LimitReached)
    else None
  }

  /** The inserted row: keyword and URL trimmed, `website_name.trim() || null`. */
  function NewTracking(id: Id, keyword: string, url: string, name: string): (t: TrackingItem)
    ensures t.id == id && t.keyword == Trim(keyword) && t.websiteUrl == Trim(url)
    ensures Trimmed(t.keyword) && Trimmed(t.websiteUrl)
    ensures t.websiteName.None? <==> Blank(name)
    ensures t.websiteName.Some? ==> t.websiteName.value == Trim(name) && t.websiteName.value != ""
  {
    TrackingItem(id, Trim(keyword), Trim(url), if Blank(name) then None else Some(Trim(name)))
  }

  /** Stored URLs are trimmed and there are at most two distinct ones. */
  predicate WithinLimit(items: seq<TrackingItem>) {
    (forall t :: t in items ==> Trimmed(t.websiteUrl)) && |Urls(items)| <= 2
  }

  /** Appending a row adds its URL to the set of URLs. */
  lemma UrlsAppend(items: seq<TrackingItem>, t: TrackingItem)
    ensures Urls(items + [t]) == Urls(items) + {t.websiteUrl}
  {
    var after := items + [t];
    forall u | u in Urls(after) ensures u in Urls(items) + {t.websiteUrl} {
      var x :| x in after && x.websiteUrl == u;
      if x != t {
        assert x in items;
      }
    }
    forall u | u in Urls(items) ensures u in Urls(after) {
      var x :| x in items && x.websiteUrl == u;
      assert x in after;
    }
    assert t in after;
  }

  /**
   * An accepted tracking keeps the store within the limit: its URL is either
   * one already tracked or the second one.
   */
  lemma AddKeepsLimit(items: seq<TrackingItem>, keyword: string, url: string, name: string, id: Id)
    requires WithinLimit(items) && Validate(items, keyword, url).None?
    ensures Urls(items + [NewTracking(id, keyword, url, name)]) == Urls(items) + {Trim(url)}
    ensures WithinLimit(items + [NewTracking(id, keyword, url, name)])
  {
    var t := NewTracking(id, keyword, url, name);
    UrlsAppend(items, t);
    assert forall x :: x in items + [t] ==> x in items || x == t;
  }

  /** The check as written never lets a third website in either, given trimmed stored URLs. */
  lemma AsWrittenKeepsLimit(items: seq<TrackingItem>, url: string)
    requires WithinLimit(items) && !Blank(url) && !LimitReachedAsWritten(items, url)
    ensures !LimitReachedFor(items, url)
  {
    if url in Urls(items) {
      var x :| x in items && x.websiteUrl == url;
      TrimTrimmed(url);
    }
  }

  /**
   * The check as written refuses a URL typed with a leading space although
   * the row it would store is for a website already tracked.
   */
  lemma UntrimmedUrlRefused()
    ensures var items := [TrackingItem("t1", "seo", "a.com", None), TrackingItem("t2", "seo", "b.com", None)];
      && LimitReachedAsWritten(items, " a.com")
      && Trim(" a.com") in Urls(items)
      && !LimitReachedFor(items, " a.com")
  {
    var items := [TrackingItem("t1", "seo", "a.com", None), TrackingItem("t2", "seo", "b.com", None)];
    UrlsOfTwo(items[0], items[1]);
    assert items == [items[0], items[1]];
    assert |{"a.com", "b.com"}| == 2;
    assert " a.com" == [' '] + "a.com";
    TrimLeadingSpace("a.com");
  }

  lemma UrlsOfTwo(a: TrackingItem, b: TrackingItem)
    ensures Urls([a, b]) == {a.websiteUrl, b.websiteUrl}
  {
    assert Urls([]) == {};
    UrlsAppend([], a);
    UrlsAppend([a], b);
    assert [] + [a] == [a] && [a] + [b] == [a, b];
  }

  /** One leading space goes away under `trim`. */
  lemma TrimLeadingSpace(s: string)
    requires s != [] && !IsSpace(s[0]) && !IsSpace(s[|s| - 1])
    ensures Trim([' '] + s) == s
  {
    var t := [' '] + s;
    assert SkipSpace(t, 0) == 1;
    assert SkipSpaceBack(t, 1, |t|) == |t|;
    assert t[1..] == s;
  }

  /**
   * The `keyword_tracking` rows the page works on. Rows are appended at the
   * end; the reload's `created_at` descending order is not modelled, which
   * does not matter to the limit test, since it only asks which URLs occur.
   */
  class TrackingTable {
    var items: seq<TrackingItem>

    constructor (items: seq<TrackingItem>)
      ensures this.items == items
    {
      this.items := items;
    }

    /**
     * `handleAddTracking`: the checks, then the signed-in user, then one
     * insert that the store may refuse. Nothing is stored unless every step
     * succeeds.
     */
    method AddTracking(keyword: string, url: string, name: string, newId: Id, signedIn: bool, accepted: bool)
      returns (refused: Option<Rejection>)
      modifies this
      ensures Validate(old(items), keyword, url).Some? ==>
        refused == Validate(old(items), keyword, url) && items == old(items)
      ensures Validate(old(items), keyword, url).None? && !signedIn ==>
        refused == Some(NotSignedIn) && items == old(items)
      ensures Validate(old(items), keyword, url).None? && signedIn ==>
        && refused == (if accepted then None else Some(InsertFailed))
        && items == old(items) + if accepted then [NewTracking(newId, keyword, url, name)] else []
    {
      refused := Validate(items, keyword, url);
      if refused.Some? {
        return;
      }
      if !signedIn {
        return Some(NotSignedIn);
      }
      if !accepted {
        return Some(InsertFailed);
      }
      items := items + [NewTracking(newId, keyword, url, name)];
    }
  }

  // ---------------------------------------------------------------------
  // The chart pivot
  // ---------------------------------------------------------------------

  /** The index of the last point of `h` on `day`: later points overwrite earlier ones. */
  function LastOn(h: seq<TrackingPoint>, day: int): (r: Option<nat>)
    ensures r.Some? ==> r.value < |h| && h[r.value].day == day
    ensures r.Some? ==> forall j :: r.value < j < |h| ==> h[j].day != day
    ensures r.None? <==> forall j :: 0 <= j < |h| ==> h[j].day != day
  {
    if h == [] then None
    else if h[|h| - 1].day == day then Some(|h| - 1)
    else LastOn(h[..|h| - 1], day)
  }

  /** What the pivot holds for a tracking on a day: its last point's ranking that day, or null. */
  function CellValue(hs: Histories, id: Id, day: int): Option<int> {
    if id in hs then
      match LastOn(hs[id], day)
      case Some(i) => hs[id][i].ranking
      case None => None
    else None
  }

  /** The days with a point in some history. */
  function DaysOf(hs: Histories): set<int> {
    set id, p | id in hs && p in hs[id] :: p.day
  }

  type ByDate = map<int, map<Id, Option<int>>>

  /** `trackingsByDate[day]` once the histories of `view` are recorded: the trackings with a point that day. */
  function DayMap(view: Histories, day: int): map<Id, Option<int>> {
    map id | id in view && LastOn(view[id], day).Some? :: CellValue(view, id, day)
  }

  /**
   * `trackingsByDate` once the histories of `view` are recorded: an entry
   * per day with a point, holding every tracking with a point that day and
   * the ranking of its last point that day.
   */
  function PivotMap(view: Histories): ByDate {
    map d | d in DaysOf(view) :: DayMap(view, d)
  }

  /** `if (!trackingsByDate[date]) trackingsByDate[date] = {}; trackingsByDate[date][id] = ranking`. */
  function Record(byDate: ByDate, day: int, id: Id, ranking: Option<int>): ByDate {
    byDate[day := (if day in byDate then byDate[day] else map[])[id := ranking]]
  }

  /** A day on which some history has a point is one of the days. */
  lemma DayOfPoint(view: Histories, id: Id, day: int)
    requires id in view && LastOn(view[id], day).Some?
    ensures day in DaysOf(view)
  {
    var i := LastOn(view[id], day).value;
    assert view[id][i] in view[id];
  }

  lemma DaysOfStart(view: Histories, id: Id)
    requires id !in view
    ensures DaysOf(view[id := []]) == DaysOf(view)
  {
    var next := view[id := []];
    forall d | d in DaysOf(next) ensures d in DaysOf(view) {
      var x: Id, q: TrackingPoint :| x in next && q in next[x] && q.day == d;
      assert x != id && q in view[x];
    }
    forall d | d in DaysOf(view) ensures d in DaysOf(next) {
      var x: Id, q: TrackingPoint :| x in view && q in view[x] && q.day == d;
      assert q in next[x];
    }
  }

  /** One more point adds its day. */
  lemma DaysOfStep(view: Histories, id: Id, p: TrackingPoint)
    requires id in view
    ensures DaysOf(view[id := view[id] + [p]]) == DaysOf(view) + {p.day}
  {
    var h := view[id];
    var next := view[id := h + [p]];
    forall d | d in DaysOf(next) ensures d in DaysOf(view) + {p.day} {
      var x: Id, q: TrackingPoint :| x in next && q in next[x] && q.day == d;
      if x != id {
        assert q in view[x];
      } else if q != p {
        assert q in h;
      }
    }
    forall d | d in DaysOf(view) ensures d in DaysOf(next) {
      var x: Id, q: TrackingPoint :| x in view && q in view[x] && q.day == d;
      assert q in next[x];
    }
    assert p in next[id];
  }

  /** Starting a tracking's history records nothing. */
  lemma PivotStart(view: Histories, id: Id)
    requires id !in view
    ensures PivotMap(view[id := []]) == PivotMap(view)
  {
    DaysOfStart(view, id);
    var next := view[id := []];
    forall d | d in DaysOf(view) ensures DayMap(next, d) == DayMap(view, d) {
      DayMapStart(view, id, d);
    }
  }

  /** A tracking with no points yet is in no day's entry. */
  lemma DayMapStart(view: Histories, id: Id, d: int)
    requires id !in view
    ensures DayMap(view[id := []], d) == DayMap(view, d)
  {
    var next := view[id := []];
    assert LastOn(next[id], d).None?;
    forall x ensures x in DayMap(next, d) <==> x in DayMap(view, d) {
      if x != id {
        assert x in next <==> x in view;
      }
    }
    forall x | x in DayMap(view, d) ensures DayMap(next, d)[x] == DayMap(view, d)[x] {
      assert next[x] == view[x];
    }
  }

  /** A day without points has an empty entry. */
  lemma DayMapEmpty(view: Histories, day: int)
    requires day !in DaysOf(view)
    ensures DayMap(view, day) == map[]
  {
    forall x | x in view && LastOn(view[x], day).Some? ensures false {
      DayOfPoint(view, x, day);
    }
  }

  /** One more point of a tracking sets that tracking's value on the point's day. */
  lemma DayMapSame(view: Histories, id: Id, p: TrackingPoint)
    requires id in view
    ensures DayMap(view[id := view[id] + [p]], p.day) == DayMap(view, p.day)[id := p.ranking]
  {
    var h := view[id];
    var next := view[id := h + [p]];
    var got := DayMap(next, p.day);
    var want := DayMap(view, p.day)[id := p.ranking];
    assert LastOn(h + [p], p.day) == Some(|h|);
    forall x ensures (x in got <==> x in want) && (x in got ==> got[x] == want[x]) {
      if x != id {
        assert x in next ==> next[x] == view[x];
      }
    }
    assert got == want;
  }

  /** and leaves the other days as they were. */
  lemma DayMapOther(view: Histories, id: Id, p: TrackingPoint, d: int)
    requires id in view && d != p.day
    ensures DayMap(view[id := view[id] + [p]], d) == DayMap(view, d)
  {
    var next := view[id := view[id] + [p]];
    var got := DayMap(next, d);
    var want := DayMap(view, d);
    CellOtherDay(view, id, p, d);
    forall x ensures (x in got <==> x in want) && (x in got ==> got[x] == want[x]) {
      if x != id && x in view {
        assert next[x] == view[x];
      }
    }
    assert got == want;
  }

  /** A point on another day changes neither whether a tracking has a point on `d` nor its value there. */
  lemma CellOtherDay(view: Histories, id: Id, p: TrackingPoint, d: int)
    requires id in view && d != p.day
    ensures LastOn(view[id] + [p], d) == LastOn(view[id], d)
    ensures CellValue(view[id := view[id] + [p]], id, d) == CellValue(view, id, d)
  {
    var h := view[id];
    assert (h + [p])[..|h|] == h;
    var last := LastOn(h, d);
    if last.Some? {
      assert (h + [p])[last.value] == h[last.value];
    }
  }

  /** Recording one more point of a tracking: its day's entry gets the point's ranking under the tracking's id. */
  lemma PivotStep(view: Histories, id: Id, p: TrackingPoint)
    requires id in view
    ensures PivotMap(view[id := view[id] + [p]]) == Record(PivotMap(view), p.day, id, p.ranking)
  {
    var next := view[id := view[id] + [p]];
    var before := PivotMap(view);
    var after := PivotMap(next);
    var expected := Record(before, p.day, id, p.ranking);
    DaysOfStep(view, id, p);
    assert after.Keys == expected.Keys;
    if p.day !in DaysOf(view) {
      DayMapEmpty(view, p.day);
    }
    DayMapSame(view, id, p);
    forall d | d in after ensures after[d] == expected[d] {
      if d != p.day {
        DayMapOther(view, id, p, d);
      }
    }
  }

  /** Recording one point keeps `allDates` and `trackingsByDate` in step with the histories recorded. */
  lemma RecordStep(byDate: ByDate, dates: seq<int>, view: Histories, id: Id, p: TrackingPoint)
    requires PivotOf(byDate, dates, view) && id in view
    ensures PivotOf(Record(byDate, p.day, id, p.ranking),
                    if p.day in dates then dates else dates + [p.day],
                    view[id := view[id] + [p]])
  {
    PivotStep(view, id, p);
    DaysOfStep(view, id, p);
  }

  /** `allDates` in insertion order and `trackingsByDate` after the histories of `view`. */
  ghost predicate PivotOf(byDate: ByDate, dates: seq<int>, view: Histories) {
    && byDate == PivotMap(view)
    && Distinct(dates)
    && (forall d :: d in dates <==> d in DaysOf(view))
  }

  lemma StartOf(byDate: ByDate, dates: seq<int>, view: Histories, id: Id)
    requires PivotOf(byDate, dates, view) && id !in view
    ensures PivotOf(byDate, dates, view[id := []])
  {
    DaysOfStart(view, id);
    PivotStart(view, id);
  }

  /** `allDates.add(date)` and the write into `trackingsByDate` for one point. */
  method RecordPoint(byDate0: ByDate, dates0: seq<int>, ghost view: Histories, id: Id, p: TrackingPoint)
    returns (byDate: ByDate, dates: seq<int>)
    requires PivotOf(byDate0, dates0, view) && id in view
    ensures PivotOf(byDate, dates, view[id := view[id] + [p]])
  {
    RecordStep(byDate0, dates0, view, id, p);
    dates := if p.day in dates0 then dates0 else dates0 + [p.day];
    byDate := Record(byDate0, p.day, id, p.ranking);
  }

  /** Records one tracking's history, point by point, in history order. */
  method RecordHistory(byDate0: ByDate, dates0: seq<int>, ghost view: Histories, id: Id, h: seq<TrackingPoint>)
    returns (byDate: ByDate, dates: seq<int>)
    requires PivotOf(byDate0, dates0, view) && id !in view
    ensures PivotOf(byDate, dates, view[id := h])
  {
    byDate, dates := byDate0, dates0;
    StartOf(byDate, dates, view, id);
    ghost var cur := view[id := []];
    for j := 0 to |h|
      invariant cur == view[id := h[..j]]
      invariant PivotOf(byDate, dates, cur)
    {
      byDate, dates := RecordPoint(byDate, dates, cur, id, h[j]);
      assert h[..j + 1] == h[..j] + [h[j]];
      cur := cur[id := cur[id] + [h[j]]];
    }
    assert h[..|h|] == h;
  }

  /**
   * The first pass of `prepareChartData`: every history, in whatever order
   * the dictionary yields them, recorded into `allDates` and
   * `trackingsByDate`; the result does not depend on that order.
   */
  method Pivot(hs: Histories) returns (byDate: ByDate, dates: seq<int>)
    ensures PivotOf(byDate, dates, hs)
  {
    byDate, dates := map[], [];
    var todo := hs.Keys;
    ghost var view: Histories := map[];
    assert DaysOf(view) == {};
    while todo != {}
      invariant todo <= hs.Keys
      invariant view.Keys == hs.Keys - todo
      invariant forall id :: id in view ==> view[id] == hs[id]
      invariant PivotOf(byDate, dates, view)
      decreases |todo|
    {
      var id :| id in todo;
      byDate, dates := RecordHistory(byDate, dates, view, id, hs[id]);
      view := view[id := hs[id]];
      todo := todo - {id};
    }
    assert view == hs;
  }

  /** `${t.website_name || t.website_url} - ${t.keyword}`: a tracking's series in the chart. */
  function ChartKey(t: TrackingItem): string {
    NameOr(t.websiteName, t.websiteUrl) + " - " + t.keyword
  }

  /** Every series key holds " - ", so no tracking writes over a row's `date` property. */
  lemma ChartKeyNotDate(t: TrackingItem)
    ensures ChartKey(t) != "date"
  {
    var sep := NameOr(t.websiteName, t.websiteUrl) + " - ";
    var n := |NameOr(t.websiteName, t.websiteUrl)|;
    assert sep[n + 1] == '-';
    assert ChartKey(t)[..|sep|] == sep;
    assert ChartKey(t)[n + 1] == '-';
  }

  /**
   * One chart row's values: each tracking in order writes its series key,
   * so of two trackings with the same key the later one's value stays.
   */
  function RowValues(ts: seq<TrackingItem>, hs: Histories, day: int): map<string, Option<int>> {
    if ts == [] then map[]
    else RowValues(ts[..|ts| - 1], hs, day)[ChartKey(ts[|ts| - 1]) := CellValue(hs, ts[|ts| - 1].id, day)]
  }

  /** Every tracking has its key in a row, and a row has no other key. */
  lemma {:induction false} RowValuesKeys(ts: seq<TrackingItem>, hs: Histories, day: int)
    ensures forall i :: 0 <= i < |ts| ==> ChartKey(ts[i]) in RowValues(ts, hs, day)
    ensures forall k :: k in RowValues(ts, hs, day) ==> exists i :: 0 <= i < |ts| && ChartKey(ts[i]) == k
  {
    if ts != [] {
      var init := ts[..|ts| - 1];
      RowValuesKeys(init, hs, day);
      assert forall i :: 0 <= i < |init| ==> init[i] == ts[i];
    }
  }

  /**
   * The value under a tracking's key is its own, its last ranking on the
   * day or null, unless a later tracking has the same key.
   */
  lemma {:induction false} RowValuesLastWins(ts: seq<TrackingItem>, hs: Histories, day: int, i: int)
    requires 0 <= i < |ts|
    requires forall j :: i < j < |ts| ==> ChartKey(ts[j]) != ChartKey(ts[i])
    ensures ChartKey(ts[i]) in RowValues(ts, hs, day)
    ensures RowValues(ts, hs, day)[ChartKey(ts[i])] == CellValue(hs, ts[i].id, day)
  {
    if i < |ts| - 1 {
      var init := ts[..|ts| - 1];
      assert init[i] == ts[i];
      forall j | i < j < |init| ensures ChartKey(init[j]) != ChartKey(init[i]) {
        assert init[j] == ts[j];
      }
      RowValuesLastWins(init, hs, day, i);
    }
  }

  /** `trackingsByDate[date]?.[id] ?? null`. */
  function Lookup(byDate: ByDate, day: int, id: Id): Option<int> {
    if day in byDate && id in byDate[day] then byDate[day][id] else None
  }

  /** On the complete pivot, a lookup is the cell's value. */
  lemma LookupIsCell(hs: Histories, day: int, id: Id)
    ensures Lookup(PivotMap(hs), day, id) == CellValue(hs, id, day)
  {
    if id in hs && LastOn(hs[id], day).Some? {
      DayOfPoint(hs, id, day);
    }
  }

  /** One row's values: every tracking in order writes its key. */
  method DataPoint(ts: seq<TrackingItem>, byDate: ByDate, ghost hs: Histories, day: int)
    returns (values: map<string, Option<int>>)
    requires byDate == PivotMap(hs)
    ensures values == RowValues(ts, hs, day)
  {
    values := map[];
    for i := 0 to |ts|
      invariant values == RowValues(ts[..i], hs, day)
    {
      LookupIsCell(hs, day, ts[i].id);
      assert ts[..i + 1][..i] == ts[..i];
      values := values[ChartKey(ts[i]) := Lookup(byDate, day, ts[i].id)];
    }
    assert ts[..|ts|] == ts;
  }

  datatype ChartRow = ChartRow(date: int, values: map<string, Option<int>>)

  /**
   * `prepareChartData`: one row per day that has a point in some history,
   * in ascending order; each row's values are those of `RowValues`.
   */
  method PrepareChartData(ts: seq<TrackingItem>, hs: Histories) returns (rows: seq<ChartRow>)
    ensures StrictlyIncreasing(seq(|rows|, i requires 0 <= i < |rows| => rows[i].date))
    ensures forall d :: d in DaysOf(hs) <==> exists i :: 0 <= i < |rows| && rows[i].date == d
    ensures forall i :: 0 <= i < |rows| ==> rows[i].values == RowValues(ts, hs, rows[i].date)
  {
    var byDate, dates := Pivot(hs);
    var sorted := SortAscending(dates);
    rows := [];
    for i := 0 to |sorted|
      invariant |rows| == i
      invariant forall m :: 0 <= m < i ==> rows[m].date == sorted[m] && rows[m].values == RowValues(ts, hs, sorted[m])
    {
      var values := DataPoint(ts, byDate, hs, sorted[i]);
      rows := rows + [ChartRow(sorted[i], values)];
    }
    assert seq(|rows|, i requires 0 <= i < |rows| => rows[i].date) == sorted;
    forall d | d in DaysOf(hs) ensures exists i :: 0 <= i < |rows| && rows[i].date == d {
      var i :| 0 <= i < |sorted| && sorted[i] == d;
      assert rows[i].date == d;
    }
  }
}
