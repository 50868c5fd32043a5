/**
 * `scheduled-seo-report`: for every active website, rotate its keyword and
 * competitor-keyword rankings (with history), refresh its competitors'
 * scores, insert one report with counts, and record a per-website result;
 * then answer with the number of successes and the number of websites.
 */
module ScheduledReport {
  import opened Common
  import opened Schema

  /** The injected random draws, one per row id. */
  datatype Rng = Rng(keyword: Id -> Unit, competitorKeyword: Id -> Unit, competitor: Id -> Draw4, report: Id -> Draw4)

  /** One entry of `results`. */
  datatype SiteResult = Succeeded(websiteId: Id, reportId: Id) | ReportFailed(websiteId: Id)

  /**
   * The response: an OPTIONS preflight (an empty 200), nothing to do, a
   * summary, or a failure of the website read (status 500).
   */
  datatype RunResponse = Preflight | NoWebsites | Summary(processed: nat, total: nat, results: seq<SiteResult>) | ReadFailed {
    function Status(): int {
      if ReadFailed? then 500 else 200
    }
  }

  /** `.eq('is_active', true)`: a null flag does not count as active. */
  predicate IsActive(w: Website) {
    w.isActive == Some(true)
  }

  /** The websites the run processes, in table order. */
  function ActiveWebsites(ws: seq<Website>): (r: seq<Website>)
    ensures forall w :: w in r <==> w in ws && IsActive(w)
  {
    if ws == [] then [] else (if IsActive(ws[0]) then [ws[0]] else []) + ActiveWebsites(ws[1..])
  }

  lemma {:induction false} ActiveWebsitesUnique(ws: seq<Website>)
    requires UniqueWebsiteIds(ws)
    ensures UniqueWebsiteIds(ActiveWebsites(ws))
  {
    if ws != [] {
      var tail := ws[1..];
      assert UniqueWebsiteIds(tail) by {
        forall i, j | 0 <= i < j < |tail| ensures tail[i].id != tail[j].id {
          assert tail[i] == ws[i + 1] && tail[j] == ws[j + 1];
        }
      }
      ActiveWebsitesUnique(tail);
      forall x | x in ActiveWebsites(tail) ensures x.id != ws[0].id {
        var k :| 0 <= k < |tail| && tail[k] == x;
        assert ws[k + 1] == x;
      }
    }
  }

  /** The report inserted for a website, with counts of the rows read for it. */
  function SiteReport(t: Tables, w: Website, rng: Rng, reportId: Id, now: nat): Report {
    Report(reportId, w.id, now, now, DrawScores(Scheduled, rng.report(w.id)),
      Counts(|Children(t.keywords, {w.id})|, |CompetitorsOf(t.competitors, {w.id})|, now))
  }

  /** The tables after one website has been processed. */
  function SiteStep(t: Tables, w: Website, rng: Rng, reportId: Id, accepted: bool, now: nat): Tables {
    var cids := CompetitorIdsOf(t, w.id);
    Tables(
      RotateChildren(t.keywords, {w.id}, Scheduled, rng.keyword, now),
      ScoreCompetitors(t.competitors, {w.id}, Scheduled, rng.competitor, now),
      RotateChildren(t.competitorKeywords, cids, Scheduled, rng.competitorKeyword, now),
      t.history
        + Points(KeywordKind, Children(t.keywords, {w.id}), Scheduled, rng.keyword, now)
        + Points(CompetitorKeywordKind, Children(t.competitorKeywords, cids), Scheduled, rng.competitorKeyword, now),
      t.reports + if accepted then [SiteReport(t, w, rng, reportId, now)] else [])
  }

  function ResultOf(w: Website, reportId: Id, accepted: bool): (r: SiteResult)
    ensures r.websiteId == w.id
    ensures r.Succeeded? <==> accepted
  {
    if accepted then Succeeded(w.id, reportId) else ReportFailed(w.id)
  }

  /**
   * One iteration of the website loop: keywords, then competitor keywords,
   * then competitors, then the report insert, whose rejection is recorded
   * as a failed result.
   */
  method ProcessWebsite(store: Store, w: Website, rng: Rng, reportId: Id, accepted: bool, now: nat)
    returns (result: SiteResult)
    requires store.Valid()
    modifies store
    ensures store.Valid() && store.websites == old(store.websites)
    ensures store.Snapshot() == SiteStep(old(store.Snapshot()), w, rng, reportId, accepted, now)
    ensures result == ResultOf(w, reportId, accepted)
  {
    var t := store.Snapshot();
    var keywords := Children(store.keywords, {w.id});
    var competitors := CompetitorsOf(store.competitors, {w.id});
    var cids := CompetitorIds(competitors);
    var competitorKeywords := Children(store.competitorKeywords, cids);
    var report := SiteReport(t, w, rng, reportId, now);
    ChildrenUnique(t.keywords, {w.id});
    ChildrenUnique(t.competitorKeywords, cids);
    CompetitorsOfUnique(t.competitors, {w.id});

    store.RotateEach(KeywordKind, keywords, Scheduled, rng.keyword, now, true);
    SelectedIdsAreChildren(t.keywords, {w.id}, Scheduled, rng.keyword, now);
    RotationKeepsUnique(t.keywords, {w.id}, Scheduled, rng.keyword, now);

    store.RotateEach(CompetitorKeywordKind, competitorKeywords, Scheduled, rng.competitorKeyword, now, true);
    SelectedIdsAreChildren(t.competitorKeywords, cids, Scheduled, rng.competitorKeyword, now);
    RotationKeepsUnique(t.competitorKeywords, cids, Scheduled, rng.competitorKeyword, now);

    store.RefreshEach(competitors, Scheduled, rng.competitor, now);
    SelectedCompetitorIds(t.competitors, {w.id}, Scheduled, rng.competitor, now);
    RefreshKeepsUnique(t.competitors, {w.id}, Scheduled, rng.competitor, now);

    var ok := store.InsertReport(report, accepted);
    result := ResultOf(w, reportId, ok);
  }

  /** The number of successful results: `results.filter(r => r.success).length`. */
  function CountSucceeded(results: seq<SiteResult>): (n: nat)
    ensures n <= |results|
    ensures n == |results| <==> forall i :: 0 <= i < |results| ==> results[i].Succeeded?
  {
    if results == [] then 0
    else CountSucceeded(results[..|results| - 1]) + if results[|results| - 1].Succeeded? then 1 else 0
  }

  /** The competitor ids of the given websites. */
  function CompetitorIdsOfAll(t: Tables, ws: set<Id>): set<Id> {
    CompetitorIds(CompetitorsOf(t.competitors, ws))
  }

  /**
   * `r` is `t` after the websites in `done` have been processed: every
   * keyword of those websites, every competitor keyword of one of their
   * competitors, and every one of their competitors updated exactly once,
   * and no other row touched.
   */
  predicate ProcessedExactly(t: Tables, r: Tables, done: set<Id>, rng: Rng, now: nat) {
    && r.keywords == RotateChildren(t.keywords, done, Scheduled, rng.keyword, now)
    && r.competitors == ScoreCompetitors(t.competitors, done, Scheduled, rng.competitor, now)
    && r.competitorKeywords == RotateChildren(t.competitorKeywords, CompetitorIdsOfAll(t, done), Scheduled, rng.competitorKeyword, now)
  }

  /** The history rows of one website, read off the tables as they were before the run. */
  function SitePoints(t: Tables, w: Website, rng: Rng, now: nat): seq<HistoryPoint> {
    Points(KeywordKind, Children(t.keywords, {w.id}), Scheduled, rng.keyword, now)
      + Points(CompetitorKeywordKind, Children(t.competitorKeywords, CompetitorIdsOf(t, w.id)), Scheduled, rng.competitorKeyword, now)
  }

  /** The history rows of a run, website by website. */
  function RunPoints(t: Tables, ws: seq<Website>, rng: Rng, now: nat): seq<HistoryPoint> {
    if ws == [] then [] else RunPoints(t, ws[..|ws| - 1], rng, now) + SitePoints(t, ws[|ws| - 1], rng, now)
  }

  /** The reports of a run: one per website whose insert was accepted, in order. */
  function RunReports(t: Tables, ws: seq<Website>, rng: Rng, reportIds: Id -> Id, accepted: Id -> bool, now: nat): seq<Report> {
    if ws == [] then []
    else
      var last := ws[|ws| - 1];
      RunReports(t, ws[..|ws| - 1], rng, reportIds, accepted, now)
        + if accepted(last.id) then [SiteReport(t, last, rng, reportIds(last.id), now)] else []
  }

  /**
   * The whole run: an OPTIONS request is answered at once with nothing read
   * or written; with the website read failing, a 500 and nothing
   * written; with no active website, `processed: 0` and nothing written;
   * otherwise one result per active website, in order, `processed` counting
   * the successes, and the tables updated exactly once per row of an active
   * website.
   */
  method Run(store: Store, requestMethod: string, readOk: bool, rng: Rng, reportIds: Id -> Id, accepted: Id -> bool, now: nat)
    returns (response: RunResponse)
    requires store.Valid()
    modifies store
    ensures store.Valid() && store.websites == old(store.websites)
    ensures requestMethod == "OPTIONS" ==> response == Preflight && store.Snapshot() == old(store.Snapshot())
    ensures requestMethod != "OPTIONS" ==> !response.Preflight?
    ensures requestMethod != "OPTIONS" && !readOk ==> response == ReadFailed && store.Snapshot() == old(store.Snapshot())
    ensures requestMethod != "OPTIONS" && readOk && ActiveWebsites(old(store.websites)) == [] ==>
      response == NoWebsites && store.Snapshot() == old(store.Snapshot())
    ensures requestMethod != "OPTIONS" && readOk && ActiveWebsites(old(store.websites)) != [] ==>
      var active := ActiveWebsites(old(store.websites));
      && response.Summary?
      && |response.results| == |active| == response.total
      && (forall i :: 0 <= i < |active| ==>
            response.results[i] == ResultOf(active[i], reportIds(active[i].id), accepted(active[i].id)))
      && response.processed == CountSucceeded(response.results)
      && RunProgress(old(store.Snapshot()), store.Snapshot(), active, rng, reportIds, accepted, now)
  {
    if requestMethod == "OPTIONS" {
      return Preflight;
    }
    if !readOk {
      return ReadFailed;
    }
    var active := ActiveWebsites(store.websites);
    if active == [] {
      return NoWebsites;
    }
    ActiveWebsitesUnique(store.websites);
    var results := ProcessAll(store, active, rng, reportIds, accepted, now);
    response := Summary(CountSucceeded(results), |active|, results);
  }

  /** The loop over the active websites; a rejected report does not stop it. */
  method ProcessAll(store: Store, active: seq<Website>, rng: Rng, reportIds: Id -> Id, accepted: Id -> bool, now: nat)
    returns (results: seq<SiteResult>)
    requires store.Valid() && UniqueWebsiteIds(active)
    modifies store
    ensures store.Valid() && store.websites == old(store.websites)
    ensures |results| == |active|
    ensures forall i :: 0 <= i < |active| ==> results[i] == ResultOf(active[i], reportIds(active[i].id), accepted(active[i].id))
    ensures RunProgress(old(store.Snapshot()), store.Snapshot(), active, rng, reportIds, accepted, now)
  {
    ghost var t := store.Snapshot();
    RunStart(t, active, rng, reportIds, accepted, now);
    results := [];
    for i := 0 to |active|
      invariant store.Valid() && store.websites == old(store.websites)
      invariant |results| == i
      invariant forall j :: 0 <= j < i ==> results[j] == ResultOf(active[j], reportIds(active[j].id), accepted(active[j].id))
      invariant RunProgress(t, store.Snapshot(), active[..i], rng, reportIds, accepted, now)
    {
      results := ProcessNext(store, t, active, i, results, rng, reportIds, accepted, now);
    }
    assert active[..|active|] == active;
  }

  /**
   * One iteration of the loop: the `i`-th active website is processed on
   * top of the first `i`, and its result is appended.
   */
  method ProcessNext(store: Store, ghost t: Tables, active: seq<Website>, i: nat, results0: seq<SiteResult>,
                     rng: Rng, reportIds: Id -> Id, accepted: Id -> bool, now: nat)
    returns (results: seq<SiteResult>)
    requires store.Valid() && TablesValid(t) && UniqueWebsiteIds(active) && i < |active|
    requires |results0| == i
    requires forall j :: 0 <= j < i ==> results0[j] == ResultOf(active[j], reportIds(active[j].id), accepted(active[j].id))
    requires RunProgress(t, store.Snapshot(), active[..i], rng, reportIds, accepted, now)
    modifies store
    ensures store.Valid() && store.websites == old(store.websites)
    ensures |results| == i + 1
    ensures forall j :: 0 <= j < i + 1 ==> results[j] == ResultOf(active[j], reportIds(active[j].id), accepted(active[j].id))
    ensures RunProgress(t, store.Snapshot(), active[..i + 1], rng, reportIds, accepted, now)
  {
    var w := active[i];
    ghost var r := store.Snapshot();
    var result := ProcessWebsite(store, w, rng, reportIds(w.id), accepted(w.id), now);
    ProgressStep(t, r, active, i, rng, reportIds, accepted, now);
    ResultsStep(active, i, results0, result, reportIds, accepted);
    results := results0 + [result];
  }

  /** Appending the `i`-th website's result to the results of the first `i`. */
  lemma ResultsStep(active: seq<Website>, i: nat, results0: seq<SiteResult>, result: SiteResult,
                    reportIds: Id -> Id, accepted: Id -> bool)
    requires i < |active| && |results0| == i
    requires forall j :: 0 <= j < i ==> results0[j] == ResultOf(active[j], reportIds(active[j].id), accepted(active[j].id))
    requires result == ResultOf(active[i], reportIds(active[i].id), accepted(active[i].id))
    ensures forall j :: 0 <= j < i + 1 ==>
      (results0 + [result])[j] == ResultOf(active[j], reportIds(active[j].id), accepted(active[j].id))
  {
  }

  /**
   * The tables `s` are `t` after the websites `ws` have been processed:
   * their rows updated exactly once, and their history and reports appended
   * in order.
   */
  predicate RunProgress(t: Tables, s: Tables, ws: seq<Website>, rng: Rng, reportIds: Id -> Id, accepted: Id -> bool, now: nat) {
    && ProcessedExactly(t, s, WebsiteIds(ws), rng, now)
    && s.history == t.history + RunPoints(t, ws, rng, now)
    && s.reports == t.reports + RunReports(t, ws, rng, reportIds, accepted, now)
  }

  /** Before the loop nothing is processed. */
  lemma RunStart(t: Tables, ws: seq<Website>, rng: Rng, reportIds: Id -> Id, accepted: Id -> bool, now: nat)
    ensures RunProgress(t, t, ws[..0], rng, reportIds, accepted, now)
  {
    assert ws[..0] == [];
    assert WebsiteIds([]) == {};
    NothingProcessed(t, rng, now);
  }

  lemma ProgressStep(t: Tables, r: Tables, ws: seq<Website>, i: int, rng: Rng, reportIds: Id -> Id, accepted: Id -> bool, now: nat)
    requires TablesValid(t) && UniqueWebsiteIds(ws) && 0 <= i < |ws|
    requires RunProgress(t, r, ws[..i], rng, reportIds, accepted, now)
    ensures RunProgress(t, SiteStep(r, ws[i], rng, reportIds(ws[i].id), accepted(ws[i].id), now), ws[..i + 1], rng, reportIds, accepted, now)
  {
    var w := ws[i];
    var next := SiteStep(r, w, rng, reportIds(w.id), accepted(w.id), now);
    NextIsNew(ws, i);
    StepProcessed(t, r, WebsiteIds(ws[..i]), w, rng, reportIds(w.id), accepted(w.id), now);
    RunStep(t, ws, i, rng, reportIds, accepted, now);
    assert ProcessedExactly(t, next, WebsiteIds(ws[..i + 1]), rng, now);
    assert next.history == t.history + RunPoints(t, ws[..i + 1], rng, now) by {
      ConcatAssoc(t.history, RunPoints(t, ws[..i], rng, now), SitePoints(t, w, rng, now));
    }
    assert next.reports == t.reports + RunReports(t, ws[..i + 1], rng, reportIds, accepted, now) by {
      ConcatAssoc(t.reports, RunReports(t, ws[..i], rng, reportIds, accepted, now),
        if accepted(w.id) then [SiteReport(t, w, rng, reportIds(w.id), now)] else []);
    }
  }


  /** A run over one more website appends that website's history rows and report. */
  lemma RunStep(t: Tables, ws: seq<Website>, i: int, rng: Rng, reportIds: Id -> Id, accepted: Id -> bool, now: nat)
    requires 0 <= i < |ws|
    ensures RunPoints(t, ws[..i + 1], rng, now) == RunPoints(t, ws[..i], rng, now) + SitePoints(t, ws[i], rng, now)
    ensures RunReports(t, ws[..i + 1], rng, reportIds, accepted, now)
         == RunReports(t, ws[..i], rng, reportIds, accepted, now)
            + if accepted(ws[i].id) then [SiteReport(t, ws[i], rng, reportIds(ws[i].id), now)] else []
  {
    assert ws[..i + 1][..i] == ws[..i];
  }

  /** Before the loop, nothing has been processed. */
  lemma NothingProcessed(t: Tables, rng: Rng, now: nat)
    ensures ProcessedExactly(t, t, {}, rng, now)
  {
    assert RotateChildren(t.keywords, {}, Scheduled, rng.keyword, now) == t.keywords;
    assert RotateChildren(t.competitorKeywords, {}, Scheduled, rng.competitorKeyword, now) == t.competitorKeywords;
    assert ScoreCompetitors(t.competitors, {}, Scheduled, rng.competitor, now) == t.competitors;
  }

  /** Among distinct websites, the next one has not been processed yet. */
  lemma NextIsNew(ws: seq<Website>, i: int)
    requires UniqueWebsiteIds(ws) && 0 <= i < |ws|
    ensures ws[i].id !in WebsiteIds(ws[..i])
    ensures WebsiteIds(ws[..i + 1]) == WebsiteIds(ws[..i]) + {ws[i].id}
  {
    forall x | x in ws[..i] ensures x.id != ws[i].id {
      var k :| 0 <= k < i && ws[..i][k] == x;
    }
    assert ws[..i + 1] == ws[..i] + [ws[i]];
  }

  /**
   * Once the websites in `done` have been processed, a further website still
   * reads its keywords, competitors and competitor keywords as they were
   * before the run.
   */
  lemma SiteReadsOriginal(t: Tables, r: Tables, done: set<Id>, w: Website, rng: Rng, now: nat)
    requires TablesValid(t) && w.id !in done && ProcessedExactly(t, r, done, rng, now)
    ensures Children(r.keywords, {w.id}) == Children(t.keywords, {w.id})
    ensures CompetitorsOf(r.competitors, {w.id}) == CompetitorsOf(t.competitors, {w.id})
    ensures CompetitorIdsOf(r, w.id) == CompetitorIdsOf(t, w.id)
    ensures Children(r.competitorKeywords, CompetitorIdsOf(r, w.id)) == Children(t.competitorKeywords, CompetitorIdsOf(t, w.id))
  {
    ChildrenAfterRotation(t.keywords, done, {w.id}, Scheduled, rng.keyword, now);
    CompetitorsAfterRefresh(t.competitors, done, {w.id}, Scheduled, rng.competitor, now);
    CompetitorIdsDisjoint(t.competitors, done, {w.id});
    ChildrenAfterRotation(t.competitorKeywords, CompetitorIdsOfAll(t, done), CompetitorIdsOf(t, w.id),
      Scheduled, rng.competitorKeyword, now);
  }

  /**
   * Processing one more website extends the processed set by it: its rows
   * are updated once and the others keep theirs; it appends the history
   * and the report it would get alone, from the rows as they were before
   * the run.
   */
  lemma StepProcessed(t: Tables, r: Tables, done: set<Id>, w: Website, rng: Rng, reportId: Id, accepted: bool, now: nat)
    requires TablesValid(t) && w.id !in done && ProcessedExactly(t, r, done, rng, now)
    ensures var next := SiteStep(r, w, rng, reportId, accepted, now);
      && ProcessedExactly(t, next, done + {w.id}, rng, now)
      && next.history == r.history + SitePoints(t, w, rng, now)
      && next.reports == r.reports + if accepted then [SiteReport(t, w, rng, reportId, now)] else []
  {
    SiteReadsOriginal(t, r, done, w, rng, now);
    RotateChildrenCompose(t.keywords, done, {w.id}, Scheduled, rng.keyword, now);
    ScoreCompetitorsCompose(t.competitors, done, {w.id}, Scheduled, rng.competitor, now);
    StepCompetitorKeywords(t, r, done, w, rng, now);
    assert SiteReport(r, w, rng, reportId, now) == SiteReport(t, w, rng, reportId, now);
  }

  /** The competitor keywords of one more website are rotated on top of those of the websites before it. */
  lemma StepCompetitorKeywords(t: Tables, r: Tables, done: set<Id>, w: Website, rng: Rng, now: nat)
    requires TablesValid(t) && w.id !in done && ProcessedExactly(t, r, done, rng, now)
    ensures RotateChildren(r.competitorKeywords, CompetitorIdsOf(r, w.id), Scheduled, rng.competitorKeyword, now)
         == RotateChildren(t.competitorKeywords, CompetitorIdsOfAll(t, done + {w.id}), Scheduled, rng.competitorKeyword, now)
  {
    SiteReadsOriginal(t, r, done, w, rng, now);
    CompetitorIdsDisjoint(t.competitors, done, {w.id});
    CompetitorIdsUnion(t.competitors, done, {w.id});
    RotateChildrenCompose(t.competitorKeywords, CompetitorIdsOfAll(t, done), CompetitorIdsOf(t, w.id),
      Scheduled, rng.competitorKeyword, now);
  }

  /**
   * The row-level meaning of a run: a keyword of an active website ends
   * with its old current ranking as previous and a new one in [1, 50],
   * with exactly one history point for it in that website's rows; every
   * other keyword is untouched.
   */
  lemma RunKeywordEffect(t: Tables, r: Tables, done: set<Id>, w: Website, rng: Rng, now: nat, i: int)
    requires TablesValid(t) && ProcessedExactly(t, r, done, rng, now) && 0 <= i < |t.keywords|
    ensures t.keywords[i].parent in done ==>
      && r.keywords[i].previous == t.keywords[i].current
      && r.keywords[i].current.Some? && 1 <= r.keywords[i].current.value <= 50
    ensures t.keywords[i].parent !in done ==> r.keywords[i] == t.keywords[i]
    ensures t.keywords[i].parent == w.id ==>
      exists j :: SolePointAt(Points(KeywordKind, Children(t.keywords, {w.id}), Scheduled, rng.keyword, now), j,
                              TrackRef(KeywordKind, t.keywords[i].id))
  {
    RotationEffect(t.keywords, done, Scheduled, rng.keyword, now, i);
    if t.keywords[i].parent == w.id {
      PointsMatchRotation(KeywordKind, t.keywords, {w.id}, Scheduled, rng.keyword, now, i);
    }
  }

  /** Every report a run inserts has the scheduled score ranges and belongs to an accepted, processed website. */
  lemma {:induction false} RunReportsInRange(t: Tables, ws: seq<Website>, rng: Rng, reportIds: Id -> Id, accepted: Id -> bool, now: nat)
    ensures forall r :: r in RunReports(t, ws, rng, reportIds, accepted, now) ==>
      ScoresInRange(Scheduled, r.scores) && r.websiteId in WebsiteIds(ws) && accepted(r.websiteId)
    ensures |RunReports(t, ws, rng, reportIds, accepted, now)| <= |ws|
  {
    if ws != [] {
      var init := ws[..|ws| - 1];
      RunReportsInRange(t, init, rng, reportIds, accepted, now);
      assert ws == init + [ws[|ws| - 1]];
      assert WebsiteIds(init) <= WebsiteIds(ws);
    }
  }

  /** With every report accepted, the run reports success for every website. */
  lemma AllAcceptedAllProcessed(ws: seq<Website>, reportIds: Id -> Id, accepted: Id -> bool, results: seq<SiteResult>)
    requires |results| == |ws|
    requires forall i :: 0 <= i < |ws| ==> results[i] == ResultOf(ws[i], reportIds(ws[i].id), accepted(ws[i].id))
    requires forall w :: w in ws ==> accepted(w.id)
    ensures CountSucceeded(results) == |ws|
  {
    forall i | 0 <= i < |results| ensures results[i].Succeeded? {
      AcceptedAt(ws, accepted, i);
    }
  }

  lemma AcceptedAt(ws: seq<Website>, accepted: Id -> bool, i: int)
    requires forall w :: w in ws ==> accepted(w.id)
    requires 0 <= i < |ws|
    ensures accepted(ws[i].id)
  {
    assert ws[i] in ws;
  }
}
