/**
 * The TypeScript `generate-seo-report`: for one website the caller may
 * see, rotate its keyword rankings (no history), refresh its competitors'
 * scores, and insert one report with counts. Competitor keywords are not
 * touched. Every failure is a 400 response.
 */
module GenerateReport {
  import opened Common
  import opened Schema

  /** The injected random draws: one per keyword, one per competitor, one for the report. */
  datatype Rng = Rng(keyword: Id -> Unit, competitor: Id -> Draw4, report: Draw4)

  datatype Failure = MissingWebsiteId | WebsiteNotFound | ReportInsertFailed

  /** The answer; a preflight is an empty 200 with the CORS headers. */
  datatype Response = Generated(report: Report) | Preflight | Failed(failure: Failure) {
    function Status(): int {
      if Failed? then 400 else 200
    }
  }

  /** `.single()` on the websites under row-level security: the website, when the caller may see it. */
  function VisibleWebsite(ws: seq<Website>, id: Id, visible: Id -> bool): (r: Option<Website>)
    ensures r.Some? ==> r.value in ws && r.value.id == id
    ensures r.None? <==> !visible(id) || id !in WebsiteIds(ws)
  {
    if visible(id) then FindWebsite(ws, id) else None
  }

  /** The report inserted for the website. */
  function GeneratedReport(t: Tables, websiteId: Id, rng: Rng, reportId: Id, now: nat): Report {
    Report(reportId, websiteId, now, now, DrawScores(GenerateTs, rng.report),
      Counts(|Children(t.keywords, {websiteId})|, |CompetitorsOf(t.competitors, {websiteId})|, now))
  }

  /** The tables after generation: rotations and refreshes persist whether or not the insert is accepted. */
  function GenerateStep(t: Tables, websiteId: Id, rng: Rng, reportId: Id, accepted: bool, now: nat): Tables {
    Tables(
      RotateChildren(t.keywords, {websiteId}, GenerateTs, rng.keyword, now),
      ScoreCompetitors(t.competitors, {websiteId}, GenerateTs, rng.competitor, now),
      t.competitorKeywords,
      t.history,
      t.reports + if accepted then [GeneratedReport(t, websiteId, rng, reportId, now)] else [])
  }

  /**
   * The handler: an OPTIONS request is answered at once with nothing read
   * or written; otherwise a missing id fails before any read, an unknown or hidden
   * website fails before any write; otherwise the website's rows are
   * updated and the report insert decides between success and failure.
   */
  method Generate(store: Store, requestMethod: string, websiteId: Option<Id>, visible: Id -> bool, rng: Rng,
                  reportId: Id, accepted: bool, now: nat) returns (response: Response)
    requires store.Valid()
    modifies store
    ensures store.Valid() && store.websites == old(store.websites)
    ensures requestMethod == "OPTIONS" ==> response == Preflight && store.Snapshot() == old(store.Snapshot())
    ensures requestMethod != "OPTIONS" ==> !response.Preflight?
    ensures requestMethod != "OPTIONS" && (websiteId.None? || websiteId == Some("")) ==>
      response == Failed(MissingWebsiteId) && store.Snapshot() == old(store.Snapshot())
    ensures requestMethod != "OPTIONS" && websiteId.Some? && websiteId.value != "" && VisibleWebsite(old(store.websites), websiteId.value, visible).None? ==>
      response == Failed(WebsiteNotFound) && store.Snapshot() == old(store.Snapshot())
    ensures requestMethod != "OPTIONS" && websiteId.Some? && websiteId.value != "" && VisibleWebsite(old(store.websites), websiteId.value, visible).Some? ==>
      && store.Snapshot() == GenerateStep(old(store.Snapshot()), websiteId.value, rng, reportId, accepted, now)
      && response == if accepted then Generated(GeneratedReport(old(store.Snapshot()), websiteId.value, rng, reportId, now))
                     else Failed(ReportInsertFailed)
  {
    if requestMethod == "OPTIONS" {
      return Preflight;
    }
    if websiteId.None? || websiteId.value == "" {
      return Failed(MissingWebsiteId);
    }
    var id := websiteId.value;
    var website := VisibleWebsite(store.websites, id, visible);
    if website.None? {
      return Failed(WebsiteNotFound);
    }
    var t := store.Snapshot();
    var keywords := Children(store.keywords, {id});
    var competitors := CompetitorsOf(store.competitors, {id});
    ChildrenUnique(t.keywords, {id});
    CompetitorsOfUnique(t.competitors, {id});
    var report := GeneratedReport(t, id, rng, reportId, now);

    store.RotateEach(KeywordKind, keywords, GenerateTs, rng.keyword, now, false);
    SelectedIdsAreChildren(t.keywords, {id}, GenerateTs, rng.keyword, now);
    RotationKeepsUnique(t.keywords, {id}, GenerateTs, rng.keyword, now);

    store.RefreshEach(competitors, GenerateTs, rng.competitor, now);
    SelectedCompetitorIds(t.competitors, {id}, GenerateTs, rng.competitor, now);
    RefreshKeepsUnique(t.competitors, {id}, GenerateTs, rng.competitor, now);

    var ok := store.InsertReport(report, accepted);
    if !ok {
      return Failed(ReportInsertFailed);
    }
    response := Generated(report);
  }

  /**
   * This generator appends no history, leaves competitor keywords alone,
   * inserts at most one report, and touches no keyword or competitor of
   * another website.
   */
  lemma GenerateFootprint(t: Tables, websiteId: Id, rng: Rng, reportId: Id, accepted: bool, now: nat)
    ensures var n := GenerateStep(t, websiteId, rng, reportId, accepted, now);
      && n.history == t.history
      && n.competitorKeywords == t.competitorKeywords
      && |n.reports| == |t.reports| + (if accepted then 1 else 0)
      && (forall i :: 0 <= i < |t.keywords| && t.keywords[i].parent != websiteId ==> n.keywords[i] == t.keywords[i])
      && (forall i :: 0 <= i < |t.competitors| && t.competitors[i].websiteId != websiteId ==> n.competitors[i] == t.competitors[i])
  {
    var n := GenerateStep(t, websiteId, rng, reportId, accepted, now);
    forall i | 0 <= i < |t.keywords| && t.keywords[i].parent != websiteId ensures n.keywords[i] == t.keywords[i] {
      RotationEffect(t.keywords, {websiteId}, GenerateTs, rng.keyword, now, i);
    }
    forall i | 0 <= i < |t.competitors| && t.competitors[i].websiteId != websiteId ensures n.competitors[i] == t.competitors[i] {
      RefreshEffect(t.competitors, {websiteId}, GenerateTs, rng.competitor, now, i);
    }
  }

  /** Each keyword of the website ends with its old current ranking as previous and a current one in [1, 100]. */
  lemma GenerateKeywordEffect(t: Tables, websiteId: Id, rng: Rng, reportId: Id, accepted: bool, now: nat, i: int)
    requires 0 <= i < |t.keywords| && t.keywords[i].parent == websiteId
    ensures var k := GenerateStep(t, websiteId, rng, reportId, accepted, now).keywords[i];
      && k.id == t.keywords[i].id
      && k.previous == t.keywords[i].current
      && k.current.Some? && 1 <= k.current.value <= 100
  {
    RotationEffect(t.keywords, {websiteId}, GenerateTs, rng.keyword, now, i);
  }

  /**
   * The inserted report: for the requested website, scores in [70, 99],
   * [80, 99], [100, 399] and [5, 24], and counts of the keywords and
   * competitors read.
   */
  lemma GeneratedReportShape(t: Tables, websiteId: Id, rng: Rng, reportId: Id, now: nat)
    ensures var r := GeneratedReport(t, websiteId, rng, reportId, now);
      && r.websiteId == websiteId
      && 70 <= r.scores.overall <= 99 && 80 <= r.scores.speed <= 99
      && 100 <= r.scores.backlinks <= 399 && 5 <= r.scores.issues <= 24
      && r.payload == Counts(|Children(t.keywords, {websiteId})|, |CompetitorsOf(t.competitors, {websiteId})|, now)
  {
    assert ScoresInRange(GenerateTs, DrawScores(GenerateTs, rng.report));
  }
}
