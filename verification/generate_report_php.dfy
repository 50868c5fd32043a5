/**
 * The PHP `generate-seo-report.php`: for one website, rotate its keyword
 * rankings with history, then for each of its competitors refresh the
 * scores and rotate that competitor's keywords with history, and finally
 * insert a report whose data is a snapshot of the rows read before any
 * update. There is no transaction: a failing report insert leaves every
 * rotation in place.
 */
module GenerateReportPhp {
  import opened Common
  import opened Schema

  /** The injected `rand()` draws. */
  datatype Rng = Rng(keyword: Id -> Unit, competitorKeyword: Id -> Unit, competitor: Id -> Draw4, report: Draw4)

  datatype Failure = MethodNotAllowed | MissingWebsiteId | WebsiteNotFound | StoreError {
    function Status(): int {
      match this
      case MethodNotAllowed => 405
      case MissingWebsiteId => 400
      case WebsiteNotFound => 404
      case StoreError => 500
    }
  }

  /**
   * `report_id` and the four scores on success; the empty 204 answer to a
   * CORS preflight; the error status otherwise.
   */
  datatype Response = Generated(reportId: Id, scores: Scores) | Preflight | Failed(failure: Failure) {
    function Status(): int {
      match this
      case Generated(_, _) => 200
      case Preflight => 204
      case Failed(failure) => failure.Status()
    }
  }

  /** The history rows of the competitor keywords, competitor by competitor. */
  function CompetitorKeywordPoints(ck: seq<Trackable>, comps: seq<Competitor>, rng: Rng, now: nat): (r: seq<HistoryPoint>)
    ensures forall p :: p in r ==> p.ref.kind == CompetitorKeywordKind && p.checkedAt == now && 1 <= p.ranking <= 100
  {
    if comps == [] then []
    else
      var last := comps[|comps| - 1];
      var sel := Children(ck, {last.id});
      var init := CompetitorKeywordPoints(ck, comps[..|comps| - 1], rng, now);
      var pts := Points(CompetitorKeywordKind, sel, GeneratePhp, rng.competitorKeyword, now);
      assert forall j :: 0 <= j < |pts| ==> pts[j] == HistoryPoint(TrackRef(CompetitorKeywordKind, sel[j].id), NewRanking(GeneratePhp, rng.competitorKeyword(sel[j].id)), now);
      init + pts
  }

  /** The report row: the PHP score ranges and a snapshot of the rows read before any update. */
  function PhpReport(t: Tables, w: Website, rng: Rng, reportId: Id, now: nat): Report {
    Report(reportId, w.id, now, now, DrawScores(GeneratePhp, rng.report),
      Snapshot(Children(t.keywords, {w.id}), CompetitorsOf(t.competitors, {w.id}), now, w.url))
  }

  /** The tables after the generator has run for `w`. */
  function PhpStep(t: Tables, w: Website, rng: Rng, reportId: Id, accepted: bool, now: nat): Tables {
    var comps := CompetitorsOf(t.competitors, {w.id});
    Tables(
      RotateChildren(t.keywords, {w.id}, GeneratePhp, rng.keyword, now),
      ScoreCompetitors(t.competitors, {w.id}, GeneratePhp, rng.competitor, now),
      RotateChildren(t.competitorKeywords, CompetitorIds(comps), GeneratePhp, rng.competitorKeyword, now),
      t.history
        + Points(KeywordKind, Children(t.keywords, {w.id}), GeneratePhp, rng.keyword, now)
        + CompetitorKeywordPoints(t.competitorKeywords, comps, rng, now),
      t.reports + if accepted then [PhpReport(t, w, rng, reportId, now)] else [])
  }

  /**
   * The endpoint: `setCorsHeaders` answers an OPTIONS request with 204 and
   * stops (CORS is switched on in the configuration); anything else but POST is a 405, a missing or null
   * `website_id` a 400, an unknown website a 404 (an empty id passes the
   * `isset` test and ends here); otherwise the website is processed and a
   * rejected report insert is a 500.
   */
  method Generate(store: Store, requestMethod: string, websiteId: Option<Id>, rng: Rng,
                  reportId: Id, accepted: bool, now: nat) returns (response: Response)
    requires store.Valid()
    modifies store
    ensures store.Valid() && store.websites == old(store.websites)
    ensures requestMethod == "OPTIONS" ==>
      response == Preflight && store.Snapshot() == old(store.Snapshot())
    ensures requestMethod != "POST" && requestMethod != "OPTIONS" ==>
      response == Failed(MethodNotAllowed) && store.Snapshot() == old(store.Snapshot())
    ensures requestMethod == "POST" && websiteId.None? ==>
      response == Failed(MissingWebsiteId) && store.Snapshot() == old(store.Snapshot())
    ensures requestMethod == "POST" && websiteId.Some? && websiteId.value !in WebsiteIds(old(store.websites)) ==>
      response == Failed(WebsiteNotFound) && store.Snapshot() == old(store.Snapshot())
    ensures requestMethod == "POST" && websiteId.Some? && websiteId.value in WebsiteIds(old(store.websites)) ==>
      var w := FindWebsite(old(store.websites), websiteId.value).value;
      && store.Snapshot() == PhpStep(old(store.Snapshot()), w, rng, reportId, accepted, now)
      && response == if accepted then Generated(reportId, DrawScores(GeneratePhp, rng.report)) else Failed(StoreError)
  {
    if requestMethod == "OPTIONS" {
      return Preflight;
    }
    if requestMethod != "POST" {
      return Failed(MethodNotAllowed);
    }
    if websiteId.None? {
      return Failed(MissingWebsiteId);
    }
    var website := FindWebsite(store.websites, websiteId.value);
    if website.None? {
      return Failed(WebsiteNotFound);
    }
    var w := website.value;
    var t := store.Snapshot();
    var keywords := Children(store.keywords, {w.id});
    var competitors := CompetitorsOf(store.competitors, {w.id});
    var report := PhpReport(t, w, rng, reportId, now);
    ChildrenUnique(t.keywords, {w.id});
    CompetitorsOfUnique(t.competitors, {w.id});

    store.RotateEach(KeywordKind, keywords, GeneratePhp, rng.keyword, now, true);
    SelectedIdsAreChildren(t.keywords, {w.id}, GeneratePhp, rng.keyword, now);
    RotationKeepsUnique(t.keywords, {w.id}, GeneratePhp, rng.keyword, now);

    ProcessCompetitors(store, competitors, rng, now);
    SelectedCompetitorIds(t.competitors, {w.id}, GeneratePhp, rng.competitor, now);
    RefreshKeepsUnique(t.competitors, {w.id}, GeneratePhp, rng.competitor, now);
    RotationKeepsUnique(t.competitorKeywords, CompetitorIds(competitors), GeneratePhp, rng.competitorKeyword, now);

    var ok := store.InsertReport(report, accepted);
    if !ok {
      return Failed(StoreError);
    }
    response := Generated(reportId, report.scores);
  }

  /**
   * The competitor loop: each competitor, in order, has its scores
   * refreshed and its keywords rotated, with one history row each.
   */
  method ProcessCompetitors(store: Store, comps: seq<Competitor>, rng: Rng, now: nat)
    requires UniqueCompetitorIds(comps) && UniqueIds(store.competitorKeywords)
    modifies store
    ensures CompetitorsDone(old(store.Snapshot()), store.Snapshot(), comps, rng, now)
    ensures store.websites == old(store.websites)
  {
    ghost var t := store.Snapshot();
    assert RotateChildren(t.competitorKeywords, {}, GeneratePhp, rng.competitorKeyword, now) == t.competitorKeywords;
    assert ScoreIds(t.competitors, {}, GeneratePhp, rng.competitor, now) == t.competitors;
    for i := 0 to |comps|
      invariant CompetitorsDone(t, store.Snapshot(), comps[..i], rng, now)
      invariant UniqueIds(store.competitorKeywords) && store.websites == old(store.websites)
    {
      ghost var s := store.Snapshot();
      CompetitorsDoneStep(t, s, comps, i, rng, now);
      ProcessCompetitor(store, comps[i], rng, now);
    }
    assert comps[..|comps|] == comps;
  }

  /**
   * `s` is `t` after the competitors `done` have been processed, in order:
   * their scores refreshed, their keywords rotated once, and one history
   * row appended per keyword, competitor by competitor.
   */
  predicate CompetitorsDone(t: Tables, s: Tables, done: seq<Competitor>, rng: Rng, now: nat) {
    && s.competitors == ScoreIds(t.competitors, CompetitorIds(done), GeneratePhp, rng.competitor, now)
    && s.competitorKeywords == RotateChildren(t.competitorKeywords, CompetitorIds(done), GeneratePhp, rng.competitorKeyword, now)
    && s.history == t.history + CompetitorKeywordPoints(t.competitorKeywords, done, rng, now)
    && s.keywords == t.keywords && s.reports == t.reports
  }

  /** The tables after one competitor has been processed. */
  function CompetitorStep(s: Tables, c: Competitor, rng: Rng, now: nat): Tables {
    s.(competitors := ScoreIds(s.competitors, {c.id}, GeneratePhp, rng.competitor, now),
       competitorKeywords := RotateChildren(s.competitorKeywords, {c.id}, GeneratePhp, rng.competitorKeyword, now),
       history := s.history + Points(CompetitorKeywordKind, Children(s.competitorKeywords, {c.id}), GeneratePhp, rng.competitorKeyword, now))
  }

  lemma CompetitorsDoneStep(t: Tables, s: Tables, comps: seq<Competitor>, i: int, rng: Rng, now: nat)
    requires UniqueCompetitorIds(comps) && UniqueIds(t.competitorKeywords) && 0 <= i < |comps|
    requires CompetitorsDone(t, s, comps[..i], rng, now)
    ensures CompetitorsDone(t, CompetitorStep(s, comps[i], rng, now), comps[..i + 1], rng, now)
    ensures UniqueIds(CompetitorStep(s, comps[i], rng, now).competitorKeywords)
  {
    var c := comps[i];
    var done := CompetitorIds(comps[..i]);
    NextCompetitorIsNew(comps, i);
    ChildrenAfterRotation(t.competitorKeywords, done, {c.id}, GeneratePhp, rng.competitorKeyword, now);
    ScoreIdsStep(t.competitors, done, c.id, GeneratePhp, rng.competitor, now);
    RotateChildrenCompose(t.competitorKeywords, done, {c.id}, GeneratePhp, rng.competitorKeyword, now);
    RotationKeepsUnique(t.competitorKeywords, done + {c.id}, GeneratePhp, rng.competitorKeyword, now);
    PointsStep(t.competitorKeywords, comps, i, rng, now);
    ConcatAssoc(t.history, CompetitorKeywordPoints(t.competitorKeywords, comps[..i], rng, now),
      Points(CompetitorKeywordKind, Children(t.competitorKeywords, {c.id}), GeneratePhp, rng.competitorKeyword, now));
  }

  /** The history rows of one more competitor follow those of the ones before it. */
  lemma PointsStep(ck: seq<Trackable>, comps: seq<Competitor>, i: int, rng: Rng, now: nat)
    requires 0 <= i < |comps|
    ensures CompetitorKeywordPoints(ck, comps[..i + 1], rng, now)
         == CompetitorKeywordPoints(ck, comps[..i], rng, now)
            + Points(CompetitorKeywordKind, Children(ck, {comps[i].id}), GeneratePhp, rng.competitorKeyword, now)
  {
    assert comps[..i + 1][..i] == comps[..i];
  }

  /**
   * One iteration: the competitor's score update, then the select of its
   * keywords, each rotated with a history row.
   */
  method ProcessCompetitor(store: Store, c: Competitor, rng: Rng, now: nat)
    requires UniqueIds(store.competitorKeywords)
    modifies store
    ensures store.Snapshot() == CompetitorStep(old(store.Snapshot()), c, rng, now)
    ensures store.websites == old(store.websites)
  {
    store.RefreshCompetitor(c.id, GeneratePhp, rng.competitor, now);
    var ck := store.competitorKeywords;
    var sel := Children(ck, {c.id});
    ChildrenUnique(ck, {c.id});
    store.RotateEach(CompetitorKeywordKind, sel, GeneratePhp, rng.competitorKeyword, now, true);
    SelectedIdsAreChildren(ck, {c.id}, GeneratePhp, rng.competitorKeyword, now);
  }

  /** Among distinct competitors, the next one has not been processed yet. */
  lemma NextCompetitorIsNew(comps: seq<Competitor>, i: int)
    requires UniqueCompetitorIds(comps) && 0 <= i < |comps|
    ensures comps[i].id !in CompetitorIds(comps[..i])
    ensures CompetitorIds(comps[..i + 1]) == CompetitorIds(comps[..i]) + {comps[i].id}
  {
    forall x | x in comps[..i] ensures x.id != comps[i].id {
      var k :| 0 <= k < i && comps[..i][k] == x;
    }
    assert comps[..i + 1] == comps[..i] + [comps[i]];
  }

  /**
   * The report's data is the state before the run: every keyword of the
   * website appears in it with the ranking that the update moved into
   * `previous_ranking`, and it has exactly one history row, carrying its
   * new ranking, in [1, 100].
   */
  lemma SnapshotHoldsOldRankings(t: Tables, w: Website, rng: Rng, reportId: Id, accepted: bool, now: nat, i: int)
    requires UniqueIds(t.keywords) && 0 <= i < |t.keywords| && t.keywords[i].parent == w.id
    ensures var n := PhpStep(t, w, rng, reportId, accepted, now).keywords[i];
      && t.keywords[i] in PhpReport(t, w, rng, reportId, now).payload.keywords
      && n.previous == t.keywords[i].current
      && n.current.Some? && 1 <= n.current.value <= 100
      && exists j ::
        && SolePointAt(Points(KeywordKind, Children(t.keywords, {w.id}), GeneratePhp, rng.keyword, now), j, TrackRef(KeywordKind, t.keywords[i].id))
        && Some(Points(KeywordKind, Children(t.keywords, {w.id}), GeneratePhp, rng.keyword, now)[j].ranking) == n.current
  {
    RotationEffect(t.keywords, {w.id}, GeneratePhp, rng.keyword, now, i);
    PointsMatchRotation(KeywordKind, t.keywords, {w.id}, GeneratePhp, rng.keyword, now, i);
  }

  /**
   * A competitor keyword of one of the website's competitors is rotated
   * once, and that competitor's block of history rows holds exactly one
   * row for it, with the new ranking.
   */
  lemma CompetitorKeywordEffect(t: Tables, w: Website, rng: Rng, reportId: Id, accepted: bool, now: nat, i: int, c: Competitor)
    requires UniqueIds(t.competitorKeywords) && 0 <= i < |t.competitorKeywords|
    requires c in CompetitorsOf(t.competitors, {w.id}) && t.competitorKeywords[i].parent == c.id
    ensures var n := PhpStep(t, w, rng, reportId, accepted, now).competitorKeywords[i];
      && n.previous == t.competitorKeywords[i].current
      && n.current.Some? && 1 <= n.current.value <= 100
      && exists j ::
        && SolePointAt(Points(CompetitorKeywordKind, Children(t.competitorKeywords, {c.id}), GeneratePhp, rng.competitorKeyword, now),
                       j, TrackRef(CompetitorKeywordKind, t.competitorKeywords[i].id))
        && Some(Points(CompetitorKeywordKind, Children(t.competitorKeywords, {c.id}), GeneratePhp, rng.competitorKeyword, now)[j].ranking) == n.current
  {
    var cids := CompetitorIds(CompetitorsOf(t.competitors, {w.id}));
    assert c.id in cids;
    RotationEffect(t.competitorKeywords, cids, GeneratePhp, rng.competitorKeyword, now, i);
    RotationEffect(t.competitorKeywords, {c.id}, GeneratePhp, rng.competitorKeyword, now, i);
    PointsMatchRotation(CompetitorKeywordKind, t.competitorKeywords, {c.id}, GeneratePhp, rng.competitorKeyword, now, i);
  }
}
