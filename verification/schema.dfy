/**
 * The rows of the SEO store (websites, keywords, competitors, competitor
 * keywords, ranking history, reports), the ranking rotation and score
 * refresh shared by the three report generators, and the store itself as a
 * class whose tables the generators update in place.
 *
 * The three generators differ in their random ranges; each is a `Variant`.
 * `Math.random()` / `rand()` draws are injected per row id (each row is
 * drawn for once per run), so every range below is proved, not assumed.
 */
module Schema {
  import opened Common

  /** A row of `websites`. */
  datatype Website = Website(
    id: Id,
    url: string,
    name: Option<string>,
    notificationEmail: Option<string>,
    isActive: Option<bool>)

  /** A row of `competitors`, owned by a website. */
  datatype Competitor = Competitor(
    id: Id,
    websiteId: Id,
    url: string,
    name: Option<string>,
    overall: Option<int>,
    speed: Option<int>,
    backlinks: Option<int>,
    lastCheckedAt: Option<nat>)

  /**
   * A row of `keywords` (parent = website) or of `competitor_keywords`
   * (parent = competitor): both carry a current and a previous ranking.
   */
  datatype Trackable = Trackable(
    id: Id,
    parent: Id,
    keyword: string,
    current: Option<int>,
    previous: Option<int>,
    updatedAt: Option<nat>)

  /** Which table a history point refers to: `keyword_id` or `competitor_keyword_id`. */
  datatype Kind = KeywordKind | CompetitorKeywordKind

  datatype TrackRef = TrackRef(kind: Kind, id: Id)

  /** A row of `keyword_ranking_history`. */
  datatype HistoryPoint = HistoryPoint(ref: TrackRef, ranking: int, checkedAt: nat)

  /** The four scores of a report; a competitor receives the first three. */
  datatype Scores = Scores(overall: int, speed: int, backlinks: int, issues: int)

  /**
   * `report_data`: the TypeScript generators store counts, the PHP
   * generator a snapshot of the rows it read.
   */
  datatype Payload =
    | Counts(keywordsCount: nat, competitorsCount: nat, generatedAt: nat)
    | Snapshot(keywords: seq<Trackable>, competitors: seq<Competitor>, analysisDate: nat, url: string)

  /** A row of `seo_reports`. */
  datatype Report = Report(id: Id, websiteId: Id, reportDate: nat, createdAt: nat, scores: Scores, payload: Payload)

  /** The three report generators. */
  datatype Variant = Scheduled | GenerateTs | GeneratePhp

  /** The largest ranking a generator draws: 50 for the scheduled one, 100 otherwise. */
  function RankCeiling(v: Variant): int {
    if v == Scheduled then 50 else 100
  }

  /**
   * A new simulated ranking: `floor(r*50)+1`, `max(1, floor(r*100)+1)` or
   * `rand(1, 100)`.
   */
  function NewRanking(v: Variant, u: Unit): (r: int)
    ensures 1 <= r <= RankCeiling(v)
  {
    match v
    case Scheduled => Scaled(u, 50, 1)
    case GenerateTs => Max(1, Scaled(u, 100, 1))
    case GeneratePhp => PhpRand(1, 100, u)
  }

  /** The documented score ranges of each generator. */
  predicate ScoresInRange(v: Variant, s: Scores) {
    match v
    case Scheduled =>
      70 <= s.overall <= 99 && 70 <= s.speed <= 99 && 50 <= s.backlinks <= 549 && 0 <= s.issues <= 9
    case GenerateTs =>
      70 <= s.overall <= 99 && 80 <= s.speed <= 99 && 100 <= s.backlinks <= 399 && 5 <= s.issues <= 24
    case GeneratePhp =>
      60 <= s.overall <= 95 && 50 <= s.speed <= 100 && 100 <= s.backlinks <= 5000 && 0 <= s.issues <= 20
  }

  /** The simulated scores of one report (and, for the first three, of one competitor). */
  function DrawScores(v: Variant, d: Draw4): (s: Scores)
    ensures ScoresInRange(v, s)
  {
    match v
    case Scheduled =>
      Scores(Scaled(d.a, 30, 70), Scaled(d.b, 30, 70), Scaled(d.c, 500, 50), Scaled(d.d, 10, 0))
    case GenerateTs =>
      Scores(Scaled(d.a, 30, 70), Scaled(d.b, 20, 80), Scaled(d.c, 300, 100), Scaled(d.d, 20, 5))
    case GeneratePhp =>
      Scores(PhpRand(60, 95, d.a), PhpRand(50, 100, d.b), PhpRand(100, 5000, d.c), PhpRand(0, 20, d.d))
  }

  // ---------------------------------------------------------------------
  // Selections
  // ---------------------------------------------------------------------

  /** Primary keys are unique. */
  predicate UniqueIds(rows: seq<Trackable>) {
    forall i, j :: 0 <= i < j < |rows| ==> rows[i].id != rows[j].id
  }

  predicate UniqueCompetitorIds(rows: seq<Competitor>) {
    forall i, j :: 0 <= i < j < |rows| ==> rows[i].id != rows[j].id
  }

  function IdsOf(rows: seq<Trackable>): set<Id> {
    set r | r in rows :: r.id
  }

  /** `select * ... where parent in parents`, in table order. */
  function Children(rows: seq<Trackable>, parents: set<Id>): (r: seq<Trackable>)
    ensures forall x :: x in r <==> x in rows && x.parent in parents
    ensures |r| <= |rows|
  {
    if rows == [] then []
    else (if rows[0].parent in parents then [rows[0]] else []) + Children(rows[1..], parents)
  }

  /** A selection keeps the table's primary keys unique. */
  lemma {:induction false} ChildrenUnique(rows: seq<Trackable>, parents: set<Id>)
    requires UniqueIds(rows)
    ensures UniqueIds(Children(rows, parents))
  {
    if rows != [] {
      var tail := rows[1..];
      assert UniqueIds(tail) by {
        forall i, j | 0 <= i < j < |tail| ensures tail[i].id != tail[j].id {
          assert tail[i] == rows[i + 1] && tail[j] == rows[j + 1];
        }
      }
      ChildrenUnique(tail, parents);
      var rest := Children(tail, parents);
      forall x | x in rest ensures x.id != rows[0].id {
        var k :| 0 <= k < |tail| && tail[k] == x;
        assert rows[k + 1] == x;
      }
    }
  }

  /** Selecting by two disjoint sets of parents selects as many rows as the two selections together. */
  lemma {:induction false} ChildrenDisjointUnion(rows: seq<Trackable>, a: set<Id>, b: set<Id>)
    requires a !! b
    ensures |Children(rows, a + b)| == |Children(rows, a)| + |Children(rows, b)|
  {
    if rows != [] {
      ChildrenDisjointUnion(rows[1..], a, b);
    }
  }

  /** No parent, no row. */
  lemma {:induction false} NoParentsNoChildren(rows: seq<Trackable>)
    ensures Children(rows, {}) == []
  {
    if rows != [] {
      NoParentsNoChildren(rows[1..]);
    }
  }

  /** `select * from competitors where website_id in websites`, in table order. */
  function CompetitorsOf(rows: seq<Competitor>, websites: set<Id>): (r: seq<Competitor>)
    ensures forall x :: x in r <==> x in rows && x.websiteId in websites
    ensures |r| <= |rows|
  {
    if rows == [] then []
    else (if rows[0].websiteId in websites then [rows[0]] else []) + CompetitorsOf(rows[1..], websites)
  }

  function CompetitorIds(rows: seq<Competitor>): set<Id> {
    set c | c in rows :: c.id
  }

  lemma {:induction false} CompetitorsOfUnique(rows: seq<Competitor>, websites: set<Id>)
    requires UniqueCompetitorIds(rows)
    ensures UniqueCompetitorIds(CompetitorsOf(rows, websites))
  {
    if rows != [] {
      var tail := rows[1..];
      assert UniqueCompetitorIds(tail) by {
        forall i, j | 0 <= i < j < |tail| ensures tail[i].id != tail[j].id {
          assert tail[i] == rows[i + 1] && tail[j] == rows[j + 1];
        }
      }
      CompetitorsOfUnique(tail, websites);
      var rest := CompetitorsOf(tail, websites);
      forall x | x in rest ensures x.id != rows[0].id {
        var k :| 0 <= k < |tail| && tail[k] == x;
        assert rows[k + 1] == x;
      }
    }
  }

  // ---------------------------------------------------------------------
  // Ranking rotation
  // ---------------------------------------------------------------------

  /** `previous_ranking := current_ranking, current_ranking := new, updated_at := now`. */
  function Rotated(t: Trackable, v: Variant, u: Unit, now: nat): (r: Trackable)
    ensures r.id == t.id && r.parent == t.parent && r.keyword == t.keyword
    ensures r.previous == t.current
    ensures r.current.Some? && 1 <= r.current.value <= RankCeiling(v)
    ensures r.updatedAt == Some(now)
  {
    t.(previous := t.current, current := Some(NewRanking(v, u)), updatedAt := Some(now))
  }

  /** `update ... where id = ?` for every id in `ids`, each with its own draw. */
  function RotateIds(rows: seq<Trackable>, ids: set<Id>, v: Variant, draw: Id -> Unit, now: nat): (r: seq<Trackable>)
    ensures |r| == |rows|
    ensures forall i :: 0 <= i < |rows| ==> r[i].id == rows[i].id && r[i].parent == rows[i].parent
  {
    seq(|rows|, i requires 0 <= i < |rows| =>
      if rows[i].id in ids then Rotated(rows[i], v, draw(rows[i].id), now) else rows[i])
  }

  /** Rotating one more id, not rotated before, extends the rotated set. */
  lemma RotateIdsStep(rows: seq<Trackable>, ids: set<Id>, x: Id, v: Variant, draw: Id -> Unit, now: nat)
    requires x !in ids
    ensures RotateIds(RotateIds(rows, ids, v, draw, now), {x}, v, draw, now) == RotateIds(rows, ids + {x}, v, draw, now)
  {
  }

  /** Rotating one more selected row, and writing its point, extends the rotation and the points of the rows before it. */
  lemma EachStep(rows: seq<Trackable>, kind: Kind, sel: seq<Trackable>, i: int, v: Variant, draw: Id -> Unit, now: nat)
    requires UniqueIds(sel) && 0 <= i < |sel|
    ensures RotateIds(RotateIds(rows, IdsOf(sel[..i]), v, draw, now), {sel[i].id}, v, draw, now)
         == RotateIds(rows, IdsOf(sel[..i + 1]), v, draw, now)
    ensures Points(kind, sel[..i + 1], v, draw, now)
         == Points(kind, sel[..i], v, draw, now) + [HistoryPoint(TrackRef(kind, sel[i].id), NewRanking(v, draw(sel[i].id)), now)]
  {
    var row := sel[i];
    assert row.id !in IdsOf(sel[..i]);
    RotateIdsStep(rows, IdsOf(sel[..i]), row.id, v, draw, now);
    assert IdsOf(sel[..i + 1]) == IdsOf(sel[..i]) + {row.id} by {
      assert sel[..i + 1] == sel[..i] + [row];
    }
  }

  /** The rows of the given parents rotated once each, all other rows untouched. */
  function RotateChildren(rows: seq<Trackable>, parents: set<Id>, v: Variant, draw: Id -> Unit, now: nat): (r: seq<Trackable>)
    ensures |r| == |rows|
    ensures forall i :: 0 <= i < |rows| ==> r[i].id == rows[i].id && r[i].parent == rows[i].parent
  {
    seq(|rows|, i requires 0 <= i < |rows| =>
      if rows[i].parent in parents then Rotated(rows[i], v, draw(rows[i].id), now) else rows[i])
  }

  /**
   * What a rotation promises row by row: a row of a selected parent has its
   * old current ranking as previous and a new current ranking in range; every
   * other row is unchanged; ids and parents never change.
   */
  lemma RotationEffect(rows: seq<Trackable>, parents: set<Id>, v: Variant, draw: Id -> Unit, now: nat, i: int)
    requires 0 <= i < |rows|
    ensures var r := RotateChildren(rows, parents, v, draw, now)[i];
      && r.id == rows[i].id && r.parent == rows[i].parent && r.keyword == rows[i].keyword
      && (rows[i].parent in parents ==>
            r.previous == rows[i].current && r.current.Some? && 1 <= r.current.value <= RankCeiling(v)
            && r.updatedAt == Some(now))
      && (rows[i].parent !in parents ==> r == rows[i])
  {
    var r := RotateChildren(rows, parents, v, draw, now);
    assert r[i] == if rows[i].parent in parents then Rotated(rows[i], v, draw(rows[i].id), now) else rows[i];
  }

  /**
   * Updating, one by one by primary key, exactly the rows a selection by
   * parent returned is the rotation of those parents' rows.
   */
  lemma SelectedIdsAreChildren(rows: seq<Trackable>, parents: set<Id>, v: Variant, draw: Id -> Unit, now: nat)
    requires UniqueIds(rows)
    ensures RotateIds(rows, IdsOf(Children(rows, parents)), v, draw, now) == RotateChildren(rows, parents, v, draw, now)
  {
    var ids := IdsOf(Children(rows, parents));
    forall i | 0 <= i < |rows| ensures rows[i].id in ids <==> rows[i].parent in parents {
      if rows[i].parent in parents {
        assert rows[i] in Children(rows, parents);
      }
      if rows[i].id in ids {
        var x :| x in Children(rows, parents) && x.id == rows[i].id;
        var j :| 0 <= j < |rows| && rows[j] == x;
        assert i == j;
      }
    }
  }

  /** Rotations of disjoint parent sets compose. */
  lemma RotateChildrenCompose(rows: seq<Trackable>, p: set<Id>, q: set<Id>, v: Variant, draw: Id -> Unit, now: nat)
    requires p !! q
    ensures RotateChildren(RotateChildren(rows, p, v, draw, now), q, v, draw, now) == RotateChildren(rows, p + q, v, draw, now)
  {
    var once := RotateChildren(rows, p, v, draw, now);
    forall i | 0 <= i < |rows| ensures once[i].parent == rows[i].parent && once[i].id == rows[i].id {
    }
  }

  /** A rotation leaves the rows of other parents, and hence their selection, as they were. */
  lemma {:induction false} ChildrenAfterRotation(rows: seq<Trackable>, p: set<Id>, q: set<Id>, v: Variant, draw: Id -> Unit, now: nat)
    requires p !! q
    ensures Children(RotateChildren(rows, p, v, draw, now), q) == Children(rows, q)
  {
    if rows != [] {
      var r := RotateChildren(rows, p, v, draw, now);
      assert r[1..] == RotateChildren(rows[1..], p, v, draw, now);
      ChildrenAfterRotation(rows[1..], p, q, v, draw, now);
      assert Children(r, q) == (if r[0].parent in q then [r[0]] else []) + Children(r[1..], q);
      assert r[0].parent in q ==> r[0] == rows[0];
    }
  }

  /** Rotation keeps primary keys unique. */
  lemma RotationKeepsUnique(rows: seq<Trackable>, p: set<Id>, v: Variant, draw: Id -> Unit, now: nat)
    requires UniqueIds(rows)
    ensures UniqueIds(RotateChildren(rows, p, v, draw, now))
  {
  }

  /** The history rows of one rotation pass, one per selected row, in selection order. */
  function Points(kind: Kind, sel: seq<Trackable>, v: Variant, draw: Id -> Unit, now: nat): (r: seq<HistoryPoint>)
    ensures |r| == |sel|
  {
    seq(|sel|, i requires 0 <= i < |sel| =>
      HistoryPoint(TrackRef(kind, sel[i].id), NewRanking(v, draw(sel[i].id)), now))
  }

  /** `j` is the one and only point of `pts` that refers to `ref`. */
  predicate SolePointAt(pts: seq<HistoryPoint>, j: int, ref: TrackRef) {
    0 <= j < |pts| && pts[j].ref == ref && forall k :: 0 <= k < |pts| && pts[k].ref == ref ==> k == j
  }

  /**
   * Every row a pass rotates has exactly one history point in that pass, and
   * its ranking is the row's new current ranking.
   */
  lemma PointsMatchRotation(kind: Kind, rows: seq<Trackable>, parents: set<Id>, v: Variant, draw: Id -> Unit, now: nat, i: int)
    requires UniqueIds(rows) && 0 <= i < |rows| && rows[i].parent in parents
    ensures exists j ::
      && SolePointAt(Points(kind, Children(rows, parents), v, draw, now), j, TrackRef(kind, rows[i].id))
      && Some(Points(kind, Children(rows, parents), v, draw, now)[j].ranking) == RotateChildren(rows, parents, v, draw, now)[i].current
      && Points(kind, Children(rows, parents), v, draw, now)[j].checkedAt == now
  {
    var sel := Children(rows, parents);
    ChildrenUnique(rows, parents);
    assert rows[i] in sel;
    var j :| 0 <= j < |sel| && sel[j] == rows[i];
    var pts := Points(kind, sel, v, draw, now);
    var row := RotateChildren(rows, parents, v, draw, now)[i];
    assert row == Rotated(rows[i], v, draw(rows[i].id), now);
    assert pts[j] == HistoryPoint(TrackRef(kind, row.id), NewRanking(v, draw(rows[i].id)), now);
    forall k | 0 <= k < |pts| && pts[k].ref == TrackRef(kind, row.id) ensures k == j {
      assert sel[k].id == sel[j].id;
    }
    assert SolePointAt(pts, j, TrackRef(kind, row.id));
    assert Some(pts[j].ranking) == row.current;
    assert pts[j].checkedAt == now;
  }

  // ---------------------------------------------------------------------
  // Competitor score refresh
  // ---------------------------------------------------------------------

  /** `overall_score, speed_score, backlinks_count, last_checked_at := ...`. */
  function Scored(c: Competitor, v: Variant, d: Draw4, now: nat): (r: Competitor)
    ensures r.id == c.id && r.websiteId == c.websiteId && r.url == c.url && r.name == c.name
    ensures r.overall.Some? && r.speed.Some? && r.backlinks.Some?
    ensures ScoresInRange(v, Scores(r.overall.value, r.speed.value, r.backlinks.value, DrawScores(v, d).issues))
    ensures r.lastCheckedAt == Some(now)
  {
    var s := DrawScores(v, d);
    c.(overall := Some(s.overall), speed := Some(s.speed), backlinks := Some(s.backlinks), lastCheckedAt := Some(now))
  }

  function ScoreIds(rows: seq<Competitor>, ids: set<Id>, v: Variant, draw: Id -> Draw4, now: nat): (r: seq<Competitor>)
    ensures |r| == |rows|
    ensures forall i :: 0 <= i < |rows| ==> r[i].id == rows[i].id && r[i].websiteId == rows[i].websiteId
  {
    seq(|rows|, i requires 0 <= i < |rows| =>
      if rows[i].id in ids then Scored(rows[i], v, draw(rows[i].id), now) else rows[i])
  }

  lemma ScoreIdsStep(rows: seq<Competitor>, ids: set<Id>, x: Id, v: Variant, draw: Id -> Draw4, now: nat)
    requires x !in ids
    ensures ScoreIds(ScoreIds(rows, ids, v, draw, now), {x}, v, draw, now) == ScoreIds(rows, ids + {x}, v, draw, now)
  {
  }

  /** The competitors of the given websites refreshed once each, all others untouched. */
  function ScoreCompetitors(rows: seq<Competitor>, websites: set<Id>, v: Variant, draw: Id -> Draw4, now: nat): (r: seq<Competitor>)
    ensures |r| == |rows|
    ensures forall i :: 0 <= i < |rows| ==> r[i].id == rows[i].id && r[i].websiteId == rows[i].websiteId
  {
    seq(|rows|, i requires 0 <= i < |rows| =>
      if rows[i].websiteId in websites then Scored(rows[i], v, draw(rows[i].id), now) else rows[i])
  }

  /** What a refresh promises row by row. */
  lemma RefreshEffect(rows: seq<Competitor>, websites: set<Id>, v: Variant, draw: Id -> Draw4, now: nat, i: int)
    requires 0 <= i < |rows|
    ensures var r := ScoreCompetitors(rows, websites, v, draw, now)[i];
      && r.id == rows[i].id && r.websiteId == rows[i].websiteId
      && (rows[i].websiteId in websites ==>
            r.overall.Some? && r.speed.Some? && r.backlinks.Some? && r.lastCheckedAt == Some(now)
            && ScoresInRange(v, Scores(r.overall.value, r.speed.value, r.backlinks.value, DrawScores(v, draw(rows[i].id)).issues)))
      && (rows[i].websiteId !in websites ==> r == rows[i])
  {
  }

  lemma SelectedCompetitorIds(rows: seq<Competitor>, websites: set<Id>, v: Variant, draw: Id -> Draw4, now: nat)
    requires UniqueCompetitorIds(rows)
    ensures ScoreIds(rows, CompetitorIds(CompetitorsOf(rows, websites)), v, draw, now) == ScoreCompetitors(rows, websites, v, draw, now)
  {
    var ids := CompetitorIds(CompetitorsOf(rows, websites));
    forall i | 0 <= i < |rows| ensures rows[i].id in ids <==> rows[i].websiteId in websites {
      if rows[i].websiteId in websites {
        assert rows[i] in CompetitorsOf(rows, websites);
      }
      if rows[i].id in ids {
        var x :| x in CompetitorsOf(rows, websites) && x.id == rows[i].id;
        var j :| 0 <= j < |rows| && rows[j] == x;
        assert i == j;
      }
    }
  }

  lemma ScoreCompetitorsCompose(rows: seq<Competitor>, p: set<Id>, q: set<Id>, v: Variant, draw: Id -> Draw4, now: nat)
    requires p !! q
    ensures ScoreCompetitors(ScoreCompetitors(rows, p, v, draw, now), q, v, draw, now) == ScoreCompetitors(rows, p + q, v, draw, now)
  {
    var once := ScoreCompetitors(rows, p, v, draw, now);
    forall i | 0 <= i < |rows| ensures once[i].websiteId == rows[i].websiteId && once[i].id == rows[i].id {
    }
  }

  /** A refresh leaves the competitors of other websites, and hence their selection, as they were. */
  lemma {:induction false} CompetitorsAfterRefresh(rows: seq<Competitor>, p: set<Id>, q: set<Id>, v: Variant, draw: Id -> Draw4, now: nat)
    requires p !! q
    ensures CompetitorsOf(ScoreCompetitors(rows, p, v, draw, now), q) == CompetitorsOf(rows, q)
  {
    if rows != [] {
      var r := ScoreCompetitors(rows, p, v, draw, now);
      assert r[1..] == ScoreCompetitors(rows[1..], p, v, draw, now);
      CompetitorsAfterRefresh(rows[1..], p, q, v, draw, now);
      assert CompetitorsOf(r, q) == (if r[0].websiteId in q then [r[0]] else []) + CompetitorsOf(r[1..], q);
      assert r[0].websiteId in q ==> r[0] == rows[0];
    }
  }

  lemma RefreshKeepsUnique(rows: seq<Competitor>, p: set<Id>, v: Variant, draw: Id -> Draw4, now: nat)
    requires UniqueCompetitorIds(rows)
    ensures UniqueCompetitorIds(ScoreCompetitors(rows, p, v, draw, now))
  {
  }

  /** Selecting the competitors of two sets of websites selects the union of their ids. */
  lemma CompetitorIdsUnion(rows: seq<Competitor>, a: set<Id>, b: set<Id>)
    ensures CompetitorIds(CompetitorsOf(rows, a + b))
         == CompetitorIds(CompetitorsOf(rows, a)) + CompetitorIds(CompetitorsOf(rows, b))
  {
  }

  /** Competitors of disjoint sets of websites have disjoint ids. */
  lemma CompetitorIdsDisjoint(rows: seq<Competitor>, a: set<Id>, b: set<Id>)
    requires UniqueCompetitorIds(rows) && a !! b
    ensures CompetitorIds(CompetitorsOf(rows, a)) !! CompetitorIds(CompetitorsOf(rows, b))
  {
    forall c, d | c in CompetitorsOf(rows, a) && d in CompetitorsOf(rows, b) ensures c.id != d.id {
      assert c.websiteId != d.websiteId;
      var i :| 0 <= i < |rows| && rows[i] == c;
      var j :| 0 <= j < |rows| && rows[j] == d;
      assert i != j;
    }
  }

  predicate UniqueWebsiteIds(ws: seq<Website>) {
    forall i, j :: 0 <= i < j < |ws| ==> ws[i].id != ws[j].id
  }

  function WebsiteIds(ws: seq<Website>): set<Id> {
    set w | w in ws :: w.id
  }

  /** `select * from websites where id = ?`, first row: the website with that id, if any. */
  function FindWebsite(ws: seq<Website>, id: Id): (r: Option<Website>)
    ensures r.Some? ==> r.value in ws && r.value.id == id
    ensures r.None? <==> id !in WebsiteIds(ws)
  {
    if ws == [] then None
    else if ws[0].id == id then Some(ws[0])
    else FindWebsite(ws[1..], id)
  }

  /** The column a sender orders reports by. */
  datatype OrderBy = ByCreatedAt | ByReportDate

  function SortKey(r: Report, order: OrderBy): nat {
    if order == ByCreatedAt then r.createdAt else r.reportDate
  }

  /**
   * `where website_id = ? order by <key> desc limit 1`: a report of the
   * website whose key is the greatest; among equal keys, the first in table
   * order.
   */
  function Latest(reports: seq<Report>, websiteId: Id, order: OrderBy): (r: Option<Report>)
    ensures r.Some? ==> r.value in reports && r.value.websiteId == websiteId
    ensures r.Some? ==> forall x :: x in reports && x.websiteId == websiteId ==> SortKey(x, order) <= SortKey(r.value, order)
    ensures r.None? <==> forall x :: x in reports ==> x.websiteId != websiteId
  {
    if reports == [] then None
    else
      var rest := Latest(reports[1..], websiteId, order);
      var head := reports[0];
      if head.websiteId == websiteId && (rest.None? || SortKey(rest.value, order) <= SortKey(head, order)) then Some(head)
      else rest
  }

  /**
   * Fresh `keywords` or `competitor_keywords` rows, one per keyword in
   * order, under `parent`, with no rankings yet; `newId(i)` is the id the
   * store assigns to the `i`-th row.
   */
  function NewTrackables(parent: Id, keywords: seq<string>, newId: nat -> Id): (rows: seq<Trackable>)
    ensures |rows| == |keywords|
    ensures forall i :: 0 <= i < |rows| ==>
      rows[i].parent == parent && rows[i].keyword == keywords[i] && rows[i].current.None? && rows[i].previous.None?
  {
    seq(|keywords|, i requires 0 <= i < |keywords| => Trackable(newId(i), parent, keywords[i], None, None, None))
  }

  /** The tables a generator writes, as one value. */
  datatype Tables = Tables(
    keywords: seq<Trackable>,
    competitors: seq<Competitor>,
    competitorKeywords: seq<Trackable>,
    history: seq<HistoryPoint>,
    reports: seq<Report>)

  /** The competitor ids of a website, as `competitors?.map(c => c.id)`. */
  function CompetitorIdsOf(t: Tables, w: Id): set<Id> {
    CompetitorIds(CompetitorsOf(t.competitors, {w}))
  }

  /** Primary keys of the updated tables are unique. */
  predicate TablesValid(t: Tables) {
    UniqueIds(t.keywords) && UniqueIds(t.competitorKeywords) && UniqueCompetitorIds(t.competitors)
  }

  // ---------------------------------------------------------------------
  // The store
  // ---------------------------------------------------------------------

  /** The store's tables, updated in place by the generators. */
  class Store {
    var websites: seq<Website>
    var keywords: seq<Trackable>
    var competitors: seq<Competitor>
    var competitorKeywords: seq<Trackable>
    var history: seq<HistoryPoint>
    var reports: seq<Report>

    /** Primary keys are unique. */
    ghost predicate Valid()
      reads this
    {
      TablesValid(Snapshot()) && UniqueWebsiteIds(websites)
    }

    /** The tables the generators write. */
    function Snapshot(): Tables
      reads this
    {
      Tables(keywords, competitors, competitorKeywords, history, reports)
    }

    constructor (websites: seq<Website>, keywords: seq<Trackable>, competitors: seq<Competitor>,
                 competitorKeywords: seq<Trackable>, reports: seq<Report>)
      ensures this.websites == websites && this.keywords == keywords && this.competitors == competitors
      ensures this.competitorKeywords == competitorKeywords && this.reports == reports && history == []
    {
      this.websites := websites;
      this.keywords := keywords;
      this.competitors := competitors;
      this.competitorKeywords := competitorKeywords;
      this.reports := reports;
      history := [];
    }

    function Table(kind: Kind): seq<Trackable>
      reads this
    {
      if kind == KeywordKind then keywords else competitorKeywords
    }

    /** One `update ... where id = ?` on a ranking table. */
    method RotateRow(kind: Kind, id: Id, v: Variant, draw: Id -> Unit, now: nat)
      modifies this
      ensures Table(kind) == RotateIds(old(Table(kind)), {id}, v, draw, now)
      ensures kind == KeywordKind ==> competitorKeywords == old(competitorKeywords)
      ensures kind == CompetitorKeywordKind ==> keywords == old(keywords)
      ensures websites == old(websites) && competitors == old(competitors)
      ensures history == old(history) && reports == old(reports)
    {
      if kind == KeywordKind {
        keywords := RotateIds(keywords, {id}, v, draw, now);
      } else {
        competitorKeywords := RotateIds(competitorKeywords, {id}, v, draw, now);
      }
    }

    /** One history insert. */
    method AppendHistory(p: HistoryPoint)
      modifies this
      ensures history == old(history) + [p]
      ensures websites == old(websites) && keywords == old(keywords) && competitors == old(competitors)
      ensures competitorKeywords == old(competitorKeywords) && reports == old(reports)
    {
      history := history + [p];
    }

    /** One `update competitors ... where id = ?`. */
    method RefreshCompetitor(id: Id, v: Variant, draw: Id -> Draw4, now: nat)
      modifies this
      ensures competitors == ScoreIds(old(competitors), {id}, v, draw, now)
      ensures websites == old(websites) && keywords == old(keywords) && competitorKeywords == old(competitorKeywords)
      ensures history == old(history) && reports == old(reports)
    {
      competitors := ScoreIds(competitors, {id}, v, draw, now);
    }

    /** One report insert; the store may reject it. */
    method InsertReport(r: Report, accepted: bool) returns (ok: bool)
      modifies this
      ensures ok == accepted
      ensures reports == if accepted then old(reports) + [r] else old(reports)
      ensures websites == old(websites) && keywords == old(keywords) && competitors == old(competitors)
      ensures competitorKeywords == old(competitorKeywords) && history == old(history)
    {
      ok := accepted;
      if accepted {
        reports := reports + [r];
      }
    }

    /** One `insert ... .select().single()` into `websites`; the store may refuse it. */
    method InsertWebsite(w: Website, accepted: bool) returns (ok: bool)
      modifies this
      ensures ok == accepted
      ensures websites == if accepted then old(websites) + [w] else old(websites)
      ensures keywords == old(keywords) && competitors == old(competitors) && competitorKeywords == old(competitorKeywords)
      ensures history == old(history) && reports == old(reports)
    {
      ok := accepted;
      if accepted {
        websites := websites + [w];
      }
    }

    /** One batch insert into `keywords` (or `competitor_keywords`): every row or none. */
    method InsertTrackables(kind: Kind, rows: seq<Trackable>, accepted: bool) returns (ok: bool)
      modifies this
      ensures ok == accepted
      ensures Table(kind) == if accepted then old(Table(kind)) + rows else old(Table(kind))
      ensures kind == KeywordKind ==> competitorKeywords == old(competitorKeywords)
      ensures kind == CompetitorKeywordKind ==> keywords == old(keywords)
      ensures websites == old(websites) && competitors == old(competitors)
      ensures history == old(history) && reports == old(reports)
    {
      ok := accepted;
      if accepted {
        if kind == KeywordKind {
          keywords := keywords + rows;
        } else {
          competitorKeywords := competitorKeywords + rows;
        }
      }
    }

    /** One batch insert into `competitors`: every row or none. */
    method InsertCompetitors(rows: seq<Competitor>, accepted: bool) returns (ok: bool)
      modifies this
      ensures ok == accepted
      ensures competitors == if accepted then old(competitors) + rows else old(competitors)
      ensures websites == old(websites) && keywords == old(keywords) && competitorKeywords == old(competitorKeywords)
      ensures history == old(history) && reports == old(reports)
    {
      ok := accepted;
      if accepted {
        competitors := competitors + rows;
      }
    }

    /**
     * The rotation loop shared by the generators: for each selected row, in
     * order, rotate it by primary key and, when `withHistory`, append its
     * history point.
     */
    method RotateEach(kind: Kind, sel: seq<Trackable>, v: Variant, draw: Id -> Unit, now: nat, withHistory: bool)
      requires UniqueIds(sel)
      modifies this
      ensures Table(kind) == RotateIds(old(Table(kind)), IdsOf(sel), v, draw, now)
      ensures kind == KeywordKind ==> competitorKeywords == old(competitorKeywords)
      ensures kind == CompetitorKeywordKind ==> keywords == old(keywords)
      ensures websites == old(websites) && competitors == old(competitors) && reports == old(reports)
      ensures history == old(history) + if withHistory then Points(kind, sel, v, draw, now) else []
    {
      for i := 0 to |sel|
        invariant Table(kind) == RotateIds(old(Table(kind)), IdsOf(sel[..i]), v, draw, now)
        invariant kind == KeywordKind ==> competitorKeywords == old(competitorKeywords)
        invariant kind == CompetitorKeywordKind ==> keywords == old(keywords)
        invariant websites == old(websites) && competitors == old(competitors) && reports == old(reports)
        invariant history == old(history) + if withHistory then Points(kind, sel[..i], v, draw, now) else []
      {
        var row := sel[i];
        EachStep(old(Table(kind)), kind, sel, i, v, draw, now);
        RotateRow(kind, row.id, v, draw, now);
        if withHistory {
          AppendHistory(HistoryPoint(TrackRef(kind, row.id), NewRanking(v, draw(row.id)), now));
        }
      }
      assert sel[..|sel|] == sel;
    }

    /** The competitor refresh loop: each selected competitor, in order, by primary key. */
    method RefreshEach(sel: seq<Competitor>, v: Variant, draw: Id -> Draw4, now: nat)
      requires UniqueCompetitorIds(sel)
      modifies this
      ensures competitors == ScoreIds(old(competitors), CompetitorIds(sel), v, draw, now)
      ensures websites == old(websites) && keywords == old(keywords) && competitorKeywords == old(competitorKeywords)
      ensures history == old(history) && reports == old(reports)
    {
      for i := 0 to |sel|
        invariant competitors == ScoreIds(old(competitors), CompetitorIds(sel[..i]), v, draw, now)
        invariant websites == old(websites) && keywords == old(keywords) && competitorKeywords == old(competitorKeywords)
        invariant history == old(history) && reports == old(reports)
      {
        var c := sel[i];
        assert c.id !in CompetitorIds(sel[..i]);
        ScoreIdsStep(old(competitors), CompetitorIds(sel[..i]), c.id, v, draw, now);
        assert CompetitorIds(sel[..i + 1]) == CompetitorIds(sel[..i]) + {c.id} by {
          assert sel[..i + 1] == sel[..i] + [c];
        }
        RefreshCompetitor(c.id, v, draw, now);
      }
      assert sel[..|sel|] == sel;
    }
  }
}
