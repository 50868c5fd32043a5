/**
 * The PHP `send-seo-report.php`: a guard chain with its status codes, the
 * latest report by `report_date`, the keyword and competitor-keyword
 * queries with their 30-day ranking history, the trend column of the mail,
 * and the send. The store is only read.
 */
module SendReportPhp {
  import opened Common
  import opened Schema

  /** 30 days, `INTERVAL 30 DAY`, in seconds. */
  const WindowSeconds: nat := 30 * 86400

  // ---------------------------------------------------------------------
  // Trend
  // ---------------------------------------------------------------------

  /** The trend column: `↑` in green, `↓` in red, `→` in gray. */
  datatype Trend = Up | Down | Flat {
    function Symbol(): string {
      match this
      case Up => "↑"
      case Down => "↓"
      case Flat => "→"
    }

    function Colour(): string {
      match this
      case Up => "green"
      case Down => "red"
      case Flat => "gray"
    }
  }

  /** PHP's conversion of a nullable integer column to bool: NULL and 0 are false. */
  predicate PhpBool(x: Option<int>) {
    x.Some? && x.value != 0
  }

  /**
   * PHP 8's `<` between two nullable integers: two integers compare as
   * numbers; when either side is NULL both sides are converted to bool, and
   * false is less than true.
   */
  predicate PhpLess(x: Option<int>, y: Option<int>) {
    if x.Some? && y.Some? then x.value < y.value else !PhpBool(x) && PhpBool(y)
  }

  /** The nested ternary as written: `cur < prev ? ↑ : (cur > prev ? ↓ : →)`. */
  function TrendAsWritten(current: Option<int>, previous: Option<int>): Trend {
    if PhpLess(current, previous) then Up
    else if PhpLess(previous, current) then Down
    else Flat
  }

  /**
   * On a keyword that has a ranking but no previous one, the rule as
   * written shows a worsening; with the two swapped, an improvement.
   */
  lemma NullPreviousShowsDown()
    ensures TrendAsWritten(Some(8), None) == Down
    ensures TrendAsWritten(None, Some(8)) == Up
    ensures TrendOf(Some(8), None) == Flat && TrendOf(None, Some(8)) == Flat
  {
  }

  /** The trend with a missing ranking on either side shown as no change, as the client pages do. */
  function TrendOf(current: Option<int>, previous: Option<int>): (t: Trend)
    ensures t == Up <==> current.Some? && previous.Some? && current.value < previous.value
    ensures t == Down <==> current.Some? && previous.Some? && current.value > previous.value
    ensures t == Flat <==> current.None? || previous.None? || current.value == previous.value
  {
    if current.None? || previous.None? then Flat
    else if current.value < previous.value then Up
    else if current.value > previous.value then Down
    else Flat
  }

  /** On two rankings the corrected rule is the rule as written. */
  lemma TrendAgreesOnRankings(current: int, previous: int)
    ensures TrendOf(Some(current), Some(previous)) == TrendAsWritten(Some(current), Some(previous))
  {
  }

  // ---------------------------------------------------------------------
  // The 30-day history window
  // ---------------------------------------------------------------------

  /** `krh.checked_at >= DATE_SUB(NOW(), INTERVAL 30 DAY)`, for the row `ref`. */
  predicate InWindow(p: HistoryPoint, ref: TrackRef, now: nat) {
    p.ref == ref && p.checkedAt + WindowSeconds >= now
  }

  /** The history points of `ref` in the window, in table order. */
  function Recent(history: seq<HistoryPoint>, ref: TrackRef, now: nat): (r: seq<HistoryPoint>)
    ensures multiset(r) <= multiset(history)
    ensures forall p :: p in r <==> p in history && InWindow(p, ref, now)
  {
    if history == [] then []
    else
      assert history == [history[0]] + history[1..];
      (if InWindow(history[0], ref, now) then [history[0]] else []) + Recent(history[1..], ref, now)
  }

  /** Ordered by check time. */
  predicate ByTime(s: seq<HistoryPoint>) {
    forall i, j :: 0 <= i < j < |s| ==> s[i].checkedAt <= s[j].checkedAt
  }

  lemma HeadIsEarliest(s: seq<HistoryPoint>, x: HistoryPoint)
    requires ByTime(s) && x in s
    ensures s[0].checkedAt <= x.checkedAt
  {
    var j :| 0 <= j < |s| && s[j] == x;
  }

  function InsertByTime(p: HistoryPoint, s: seq<HistoryPoint>): (r: seq<HistoryPoint>)
    requires ByTime(s)
    ensures ByTime(r)
    ensures multiset(r) == multiset(s) + multiset{p}
    ensures forall x :: x in r ==> x in s || x == p
  {
    if s == [] || p.checkedAt <= s[0].checkedAt then
      InsertFront(p, s);
      [p] + s
    else
      var tail := InsertByTime(p, s[1..]);
      InsertBehind(p, s, tail);
      [s[0]] + tail
  }

  /** A point no later than the earliest one may go first. */
  lemma InsertFront(p: HistoryPoint, s: seq<HistoryPoint>)
    requires ByTime(s) && (s == [] || p.checkedAt <= s[0].checkedAt)
    ensures ByTime([p] + s)
  {
    forall x | x in s ensures p.checkedAt <= x.checkedAt {
      HeadIsEarliest(s, x);
    }
  }

  /** The earliest point stays first when a later one goes into the rest. */
  lemma InsertBehind(p: HistoryPoint, s: seq<HistoryPoint>, tail: seq<HistoryPoint>)
    requires ByTime(s) && s != [] && s[0].checkedAt < p.checkedAt
    requires ByTime(tail) && forall x :: x in tail ==> x in s[1..] || x == p
    ensures ByTime([s[0]] + tail)
    ensures multiset(s) == multiset{s[0]} + multiset(s[1..])
  {
    assert s == [s[0]] + s[1..];
    forall x | x in tail ensures s[0].checkedAt <= x.checkedAt {
      if x != p {
        HeadIsEarliest(s, x);
      }
    }
  }

  /** `ORDER BY krh.checked_at`: the same points, ordered by check time. */
  function SortByTime(s: seq<HistoryPoint>): (r: seq<HistoryPoint>)
    ensures ByTime(r)
    ensures multiset(r) == multiset(s)
  {
    if s == [] then []
    else
      assert s == [s[0]] + s[1..];
      InsertByTime(s[0], SortByTime(s[1..]))
  }

  /** The `history` column of a row: its points of the last 30 days, by check time. */
  function Window(history: seq<HistoryPoint>, ref: TrackRef, now: nat): seq<HistoryPoint> {
    SortByTime(Recent(history, ref, now))
  }

  /**
   * The window holds exactly the row's points checked at most 30 days ago,
   * each as often as in the table, ordered by check time.
   */
  lemma WindowExact(history: seq<HistoryPoint>, ref: TrackRef, now: nat)
    ensures ByTime(Window(history, ref, now))
    ensures forall p :: p in Window(history, ref, now) <==> p in history && InWindow(p, ref, now)
    ensures multiset(Window(history, ref, now)) <= multiset(history)
  {
    var r := Recent(history, ref, now);
    assert multiset(Window(history, ref, now)) == multiset(r);
    forall p ensures p in Window(history, ref, now) <==> p in r {
      assert p in Window(history, ref, now) <==> p in multiset(Window(history, ref, now));
      assert p in r <==> p in multiset(r);
    }
  }

  // ---------------------------------------------------------------------
  // Queries and mail rows
  // ---------------------------------------------------------------------

  /** One row of the keyword query or of the competitor-keyword query. */
  datatype QueryRow = QueryRow(
    competitorName: Option<string>,
    keyword: string,
    current: Option<int>,
    previous: Option<int>,
    history: seq<HistoryPoint>)

  /** The keyword query: one row per keyword of the website, with its window. */
  function KeywordQuery(t: Tables, websiteId: Id, now: nat): (r: seq<QueryRow>)
    ensures |r| == |Children(t.keywords, {websiteId})|
  {
    var ks := Children(t.keywords, {websiteId});
    seq(|ks|, i requires 0 <= i < |ks| =>
      QueryRow(None, ks[i].keyword, ks[i].current, ks[i].previous, Window(t.history, TrackRef(KeywordKind, ks[i].id), now)))
  }

  /**
   * The competitor-keyword query: for each competitor of the website in
   * order, one row per keyword of that competitor (a competitor without
   * keywords has no row).
   */
  function CompetitorKeywordQuery(t: Tables, comps: seq<Competitor>, now: nat): (r: seq<QueryRow>)
  {
    if comps == [] then []
    else
      var c := comps[|comps| - 1];
      var cks := Children(t.competitorKeywords, {c.id});
      CompetitorKeywordQuery(t, comps[..|comps| - 1], now) + CompetitorBlock(t, c, now)
  }

  /** The rows of one competitor: one per keyword of that competitor, in table order. */
  function CompetitorBlock(t: Tables, c: Competitor, now: nat): seq<QueryRow> {
    var cks := Children(t.competitorKeywords, {c.id});
    seq(|cks|, i requires 0 <= i < |cks| => CompetitorKeywordRow(t, c, cks[i], now))
  }

  /** The row of competitor keyword `ck` of competitor `c`. */
  function CompetitorKeywordRow(t: Tables, c: Competitor, ck: Trackable, now: nat): QueryRow {
    QueryRow(c.name, ck.keyword, ck.current, ck.previous,
      Window(t.history, TrackRef(CompetitorKeywordKind, ck.id), now))
  }

  /** `q` is the row of one of the keywords of competitor `c`. */
  predicate RowOfCompetitor(t: Tables, c: Competitor, q: QueryRow, now: nat) {
    exists ck :: ck in t.competitorKeywords && ck.parent == c.id && q == CompetitorKeywordRow(t, c, ck, now)
  }

  /** The `k`-th row of a competitor's rows belongs to one of its keywords. */
  lemma BlockRowSound(t: Tables, c: Competitor, now: nat, k: int)
    requires 0 <= k < |CompetitorBlock(t, c, now)|
    ensures RowOfCompetitor(t, c, CompetitorBlock(t, c, now)[k], now)
  {
    var cks := Children(t.competitorKeywords, {c.id});
    assert cks[k] in cks;
  }

  /** Each keyword of a competitor has its row among the competitor's rows. */
  lemma BlockRowComplete(t: Tables, c: Competitor, ck: Trackable, now: nat)
    requires ck in t.competitorKeywords && ck.parent == c.id
    ensures CompetitorKeywordRow(t, c, ck, now) in CompetitorBlock(t, c, now)
  {
    var cks := Children(t.competitorKeywords, {c.id});
    assert ck in cks;
    var k :| 0 <= k < |cks| && cks[k] == ck;
    assert CompetitorBlock(t, c, now)[k] == CompetitorKeywordRow(t, c, ck, now);
  }

  /** One competitor's rows are exactly the rows of its keywords. */
  lemma CompetitorBlockExact(t: Tables, c: Competitor, now: nat)
    ensures forall q :: q in CompetitorBlock(t, c, now) <==> RowOfCompetitor(t, c, q, now)
  {
    var block := CompetitorBlock(t, c, now);
    forall q ensures q in block <==> RowOfCompetitor(t, c, q, now) {
      if q in block {
        var k :| 0 <= k < |block| && block[k] == q;
        BlockRowSound(t, c, now, k);
      }
      if RowOfCompetitor(t, c, q, now) {
        var ck :| ck in t.competitorKeywords && ck.parent == c.id && q == CompetitorKeywordRow(t, c, ck, now);
        BlockRowComplete(t, c, ck, now);
      }
    }
  }

  /**
   * The query's rows are exactly the rows of the competitor keywords of the
   * given competitors: every row belongs to a keyword of one of them, and
   * every keyword of each of them has its row.
   */
  lemma {:induction false} CompetitorRowsExact(t: Tables, comps: seq<Competitor>, now: nat)
    ensures forall q :: q in CompetitorKeywordQuery(t, comps, now) <==>
      exists c :: c in comps && RowOfCompetitor(t, c, q, now)
  {
    if comps != [] {
      var init, c := comps[..|comps| - 1], comps[|comps| - 1];
      CompetitorRowsExact(t, init, now);
      CompetitorBlockExact(t, c, now);
      assert comps == init + [c];
      ExactStep(t, init, c, now, CompetitorKeywordQuery(t, init, now), CompetitorBlock(t, c, now));
    }
  }

  /** Appending one competitor's rows to the rows of the others. */
  lemma ExactStep(t: Tables, init: seq<Competitor>, c: Competitor, now: nat, a: seq<QueryRow>, b: seq<QueryRow>)
    requires forall q :: q in a <==> exists x :: x in init && RowOfCompetitor(t, x, q, now)
    requires forall q :: q in b <==> RowOfCompetitor(t, c, q, now)
    ensures forall q :: q in a + b <==> exists x :: x in init + [c] && RowOfCompetitor(t, x, q, now)
  {
    forall q ensures q in a + b <==> exists x :: x in init + [c] && RowOfCompetitor(t, x, q, now) {
      if RowOfCompetitor(t, c, q, now) {
        assert c in init + [c];
      }
      if q in a {
        var x :| x in init && RowOfCompetitor(t, x, q, now);
        assert x in init + [c];
      }
      if exists x :: x in init + [c] && RowOfCompetitor(t, x, q, now) {
        var x :| x in init + [c] && RowOfCompetitor(t, x, q, now);
        assert x in init || x == c;
      }
    }
  }

  /** The rows come competitor by competitor, in the order of the competitors. */
  lemma {:induction false} CompetitorRowsConcat(t: Tables, p: seq<Competitor>, q: seq<Competitor>, now: nat)
    ensures CompetitorKeywordQuery(t, p + q, now) == CompetitorKeywordQuery(t, p, now) + CompetitorKeywordQuery(t, q, now)
  {
    if q != [] {
      var init := q[..|q| - 1];
      assert (p + q)[..|p + q| - 1] == p + init;
      assert (p + q)[|p + q| - 1] == q[|q| - 1];
      CompetitorRowsConcat(t, p, init, now);
    } else {
      assert p + q == p;
    }
  }

  /** One competitor's rows: one per keyword of that competitor, in table order. */
  lemma CompetitorRowsOfOne(t: Tables, c: Competitor, now: nat)
    ensures var cks := Children(t.competitorKeywords, {c.id});
      && |CompetitorKeywordQuery(t, [c], now)| == |cks|
      && forall i :: 0 <= i < |cks| ==> CompetitorKeywordQuery(t, [c], now)[i] == CompetitorKeywordRow(t, c, cks[i], now)
  {
    assert [c][..0] == [];
  }

  /**
   * Each competitor keyword has one row: with distinct competitors the
   * query has as many rows as the competitors have keywords.
   */
  lemma {:induction false} CompetitorRowsCount(t: Tables, comps: seq<Competitor>, now: nat)
    requires UniqueCompetitorIds(comps)
    ensures |CompetitorKeywordQuery(t, comps, now)| == |Children(t.competitorKeywords, CompetitorIds(comps))|
  {
    if comps == [] {
      assert CompetitorIds(comps) == {};
      NoParentsNoChildren(t.competitorKeywords);
    } else {
      var init, c := comps[..|comps| - 1], comps[|comps| - 1];
      LastCompetitorIsNew(comps);
      CompetitorRowsCount(t, init, now);
      ChildrenDisjointUnion(t.competitorKeywords, CompetitorIds(init), {c.id});
    }
  }

  /** Without its last competitor a list of distinct competitors stays distinct and lacks the last id. */
  lemma LastCompetitorIsNew(comps: seq<Competitor>)
    requires UniqueCompetitorIds(comps) && comps != []
    ensures var init, c := comps[..|comps| - 1], comps[|comps| - 1];
      && UniqueCompetitorIds(init)
      && c.id !in CompetitorIds(init)
      && CompetitorIds(comps) == CompetitorIds(init) + {c.id}
  {
    var init, c := comps[..|comps| - 1], comps[|comps| - 1];
    forall i, j | 0 <= i < j < |init| ensures init[i].id != init[j].id {
      assert init[i] == comps[i] && init[j] == comps[j];
    }
    forall x | x in init ensures x.id != c.id {
      var k :| 0 <= k < |init| && init[k] == x;
      assert comps[k] == x;
    }
    assert comps == init + [c];
  }

  /** A table row of the mail: the competitor (for competitor keywords), the keyword, the ranking and the trend. */
  datatype MailRow = MailRow(competitorName: Option<string>, keyword: string, current: Option<int>, trend: Trend)

  function RowOf(q: QueryRow): MailRow {
    MailRow(q.competitorName, q.keyword, q.current, TrendOf(q.current, q.previous))
  }

  /** The rows of one table of `buildEmailHTML`, built by appending one row per query row. */
  method BuildRows(qs: seq<QueryRow>) returns (rows: seq<MailRow>)
    ensures |rows| == |qs|
    ensures forall i :: 0 <= i < |qs| ==> rows[i] == RowOf(qs[i])
  {
    rows := [];
    for i := 0 to |qs|
      invariant |rows| == i
      invariant forall j :: 0 <= j < i ==> rows[j] == RowOf(qs[j])
    {
      rows := rows + [RowOf(qs[i])];
    }
  }

  /** A row's trend compares the query row's current ranking with its previous one. */
  lemma RowTrend(q: QueryRow)
    ensures RowOf(q).keyword == q.keyword && RowOf(q).current == q.current
    ensures RowOf(q).trend == Up <==> q.current.Some? && q.previous.Some? && q.current.value < q.previous.value
    ensures RowOf(q).trend == Down <==> q.current.Some? && q.previous.Some? && q.current.value > q.previous.value
  {
  }

  // ---------------------------------------------------------------------
  // The endpoint
  // ---------------------------------------------------------------------

  /** The message: recipient, website name, report date, scores and the two tables. */
  datatype Email = Email(
    to: Option<string>,
    websiteName: string,
    reportDate: nat,
    scores: Scores,
    keywordRows: seq<MailRow>,
    competitorRows: seq<MailRow>)

  datatype Failure = MethodNotAllowed | MissingWebsiteId | WebsiteNotFound | NoReport | SendFailed {
    function Status(): int {
      match this
      case MethodNotAllowed => 405
      case MissingWebsiteId => 400
      case WebsiteNotFound => 404
      case NoReport => 404
      case SendFailed => 500
    }
  }

  /** The recipient once sent; the empty 204 answer to a CORS preflight; the error status otherwise. */
  datatype Response = Sent(recipient: Option<string>) | Preflight | Failed(failure: Failure) {
    function Status(): int {
      match this
      case Sent(_) => 200
      case Preflight => 204
      case Failed(failure) => failure.Status()
    }
  }

  function Rows(qs: seq<QueryRow>): (r: seq<MailRow>)
    ensures |r| == |qs|
  {
    seq(|qs|, i requires 0 <= i < |qs| => RowOf(qs[i]))
  }

  /** The mail for a website and its latest report. */
  function ReportEmail(t: Tables, w: Website, report: Report, now: nat): Email {
    Email(w.notificationEmail, w.name.GetOr(""), report.reportDate, report.scores,
      Rows(KeywordQuery(t, w.id, now)),
      Rows(CompetitorKeywordQuery(t, CompetitorsOf(t.competitors, {w.id}), now)))
  }

  /**
   * The endpoint, in its order: an OPTIONS preflight (204), any other
   * method but POST (405), no `website_id` (400),
   * an unknown website (404), a website without a report (404) each answer
   * before anything is sent; otherwise the latest report by `report_date`
   * is mailed, and a refused send is a 500. The store is not written.
   */
  method Send(store: Store, outbox: Outbox<Email>, requestMethod: string, websiteId: Option<Id>, now: nat, smtpOk: bool)
    returns (response: Response)
    modifies outbox
    ensures requestMethod == "OPTIONS" ==> response == Preflight && outbox.sent == old(outbox.sent)
    ensures requestMethod != "POST" && requestMethod != "OPTIONS" ==>
      response == Failed(MethodNotAllowed) && outbox.sent == old(outbox.sent)
    ensures requestMethod == "POST" && websiteId.None? ==> response == Failed(MissingWebsiteId) && outbox.sent == old(outbox.sent)
    ensures requestMethod == "POST" && websiteId.Some? && websiteId.value !in WebsiteIds(store.websites) ==>
      response == Failed(WebsiteNotFound) && outbox.sent == old(outbox.sent)
    ensures requestMethod == "POST" && websiteId.Some? && websiteId.value in WebsiteIds(store.websites)
            && Latest(store.reports, websiteId.value, ByReportDate).None? ==>
      response == Failed(NoReport) && outbox.sent == old(outbox.sent)
    ensures requestMethod == "POST" && websiteId.Some? && websiteId.value in WebsiteIds(store.websites)
            && Latest(store.reports, websiteId.value, ByReportDate).Some? ==>
      var w := FindWebsite(store.websites, websiteId.value).value;
      var email := ReportEmail(store.Snapshot(), w, Latest(store.reports, websiteId.value, ByReportDate).value, now);
      && outbox.sent == old(outbox.sent) + (if smtpOk then [email] else [])
      && response == if smtpOk then Sent(w.notificationEmail) else Failed(SendFailed)
  {
    if requestMethod == "OPTIONS" {
      return Preflight;
    }
    if requestMethod != "POST" {
      return Failed(MethodNotAllowed);
    }
    if websiteId.None? {
      return Failed(MissingWebsiteId);
    }
    var website := FindWebsite(store.websites, websiteId.value);
    if website.None? {
      return Failed(WebsiteNotFound);
    }
    var w := website.value;
    var report := Latest(store.reports, w.id, ByReportDate);
    if report.None? {
      return Failed(NoReport);
    }
    var t := store.Snapshot();
    var keywordRows := BuildRows(KeywordQuery(t, w.id, now));
    var competitorRows := BuildRows(CompetitorKeywordQuery(t, CompetitorsOf(t.competitors, {w.id}), now));
    var email := Email(w.notificationEmail, w.name.GetOr(""), report.value.reportDate, report.value.scores, keywordRows, competitorRows);
    assert email == ReportEmail(t, w, report.value, now);
    var ok := outbox.Send(email, smtpOk);
    if !ok {
      return Failed(SendFailed);
    }
    response := Sent(w.notificationEmail);
  }

  /**
   * The mailed report is the website's latest by `report_date`, and the
   * keyword table has one row per keyword of the website, in query order,
   * each with that keyword's ranking and trend.
   */
  lemma EmailMatchesQueries(t: Tables, w: Website, reports: seq<Report>, now: nat)
    requires Latest(reports, w.id, ByReportDate).Some?
    ensures var report := Latest(reports, w.id, ByReportDate).value;
      var email := ReportEmail(t, w, report, now);
      var ks := Children(t.keywords, {w.id});
      && report in reports && report.websiteId == w.id
      && (forall x :: x in reports && x.websiteId == w.id ==> x.reportDate <= report.reportDate)
      && email.to == w.notificationEmail
      && |email.keywordRows| == |ks|
      && forall i :: 0 <= i < |ks| ==>
           && email.keywordRows[i].keyword == ks[i].keyword
           && email.keywordRows[i].current == ks[i].current
           && email.keywordRows[i].trend == TrendOf(ks[i].current, ks[i].previous)
  {
    var report := Latest(reports, w.id, ByReportDate).value;
    forall x | x in reports && x.websiteId == w.id ensures x.reportDate <= report.reportDate {
      assert SortKey(x, ByReportDate) <= SortKey(report, ByReportDate);
    }
  }

  /** The mail row of keyword `ck` of competitor `c`: its name, the keyword, the ranking and the trend. */
  function CompetitorMailRow(c: Competitor, ck: Trackable): MailRow {
    MailRow(c.name, ck.keyword, ck.current, TrendOf(ck.current, ck.previous))
  }

  /** `m` is the mail row of a keyword of one of the website's competitors. */
  predicate CompetitorRowOfWebsite(t: Tables, w: Website, m: MailRow) {
    exists c, ck :: c in t.competitors && c.websiteId == w.id && ck in t.competitorKeywords && ck.parent == c.id
      && m == CompetitorMailRow(c, ck)
  }

  /**
   * The competitor table of the mail holds exactly the rows of the keywords
   * of the website's competitors, each with that keyword's ranking and the
   * trend from its previous ranking.
   */
  lemma CompetitorMailRowsExact(t: Tables, w: Website, report: Report, now: nat)
    ensures forall m :: m in ReportEmail(t, w, report, now).competitorRows <==> CompetitorRowOfWebsite(t, w, m)
  {
    var comps := CompetitorsOf(t.competitors, {w.id});
    var cq := CompetitorKeywordQuery(t, comps, now);
    CompetitorRowsExact(t, comps, now);
    forall m ensures m in Rows(cq) <==> CompetitorRowOfWebsite(t, w, m) {
      if m in Rows(cq) {
        var i :| 0 <= i < |cq| && Rows(cq)[i] == m;
        assert cq[i] in cq;
        MailRowSound(t, w, comps, now, cq[i]);
      }
      if CompetitorRowOfWebsite(t, w, m) {
        var c, ck :| c in t.competitors && c.websiteId == w.id && ck in t.competitorKeywords && ck.parent == c.id
          && m == CompetitorMailRow(c, ck);
        MailRowComplete(t, w, comps, now, c, ck);
      }
    }
  }

  /** The mail row of a query row of one of the website's competitors is that competitor keyword's row. */
  lemma MailRowSound(t: Tables, w: Website, comps: seq<Competitor>, now: nat, q: QueryRow)
    requires comps == CompetitorsOf(t.competitors, {w.id})
    requires exists c :: c in comps && RowOfCompetitor(t, c, q, now)
    ensures CompetitorRowOfWebsite(t, w, RowOf(q))
  {
    var c :| c in comps && RowOfCompetitor(t, c, q, now);
    var ck :| ck in t.competitorKeywords && ck.parent == c.id && q == CompetitorKeywordRow(t, c, ck, now);
    assert RowOf(q) == CompetitorMailRow(c, ck);
  }

  /** A keyword of one of the website's competitors has its row in the mail. */
  lemma MailRowComplete(t: Tables, w: Website, comps: seq<Competitor>, now: nat, c: Competitor, ck: Trackable)
    requires comps == CompetitorsOf(t.competitors, {w.id})
    requires forall q :: q in CompetitorKeywordQuery(t, comps, now) <==> exists x :: x in comps && RowOfCompetitor(t, x, q, now)
    requires c in t.competitors && c.websiteId == w.id && ck in t.competitorKeywords && ck.parent == c.id
    ensures CompetitorMailRow(c, ck) in Rows(CompetitorKeywordQuery(t, comps, now))
  {
    var cq := CompetitorKeywordQuery(t, comps, now);
    var q := CompetitorKeywordRow(t, c, ck, now);
    assert RowOfCompetitor(t, c, q, now);
    assert c in comps;
    assert q in cq;
    var i :| 0 <= i < |cq| && cq[i] == q;
    assert Rows(cq)[i] == CompetitorMailRow(c, ck);
  }
}
