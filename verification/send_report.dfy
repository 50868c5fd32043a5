/**
 * The TypeScript `send-seo-report`: after a guard chain (id given, website
 * found, a report exists), mail the website's latest report with one row
 * per keyword and per competitor to the website's notification address.
 * Every failure is a 400 response and sends nothing.
 */
module SendReport {
  import opened Common
  import opened Schema

  /** A table body: one line per row, or the single placeholder line spanning `colspan` columns. */
  datatype Lines<T> = Lines(items: seq<T>) | Placeholder(colspan: nat)

  /** Keyword, current ranking, previous ranking. */
  datatype KeywordLine = KeywordLine(keyword: string, current: Cell, previous: Cell)

  /** Name (or URL), overall score, speed score, backlinks. */
  datatype CompetitorLine = CompetitorLine(name: string, overall: Cell, speed: Cell, backlinks: Cell)

  /** The message: recipient, title (in the subject and the header), the report's scores and the two tables. */
  datatype Mail = Mail(
    to: Option<string>,
    title: string,
    scores: Scores,
    reportTime: nat,
    keywords: Lines<KeywordLine>,
    competitors: Lines<CompetitorLine>)

  datatype Failure = MissingWebsiteId | WebsiteNotFound | NoReport | SendFailed

  /** The answer; a preflight is an empty 200 with the CORS headers. */
  datatype Response = Sent(recipient: Option<string>) | Preflight | Failed(failure: Failure) {
    function Status(): int {
      if Failed? then 400 else 200
    }
  }

  /** The keyword table: `k.current_ranking || '--'` and `k.previous_ranking || '--'`. */
  function KeywordLines(ks: seq<Trackable>): (r: Lines<KeywordLine>)
    ensures r.Placeholder? <==> ks == []
    ensures r.Placeholder? ==> r.colspan == 3
    ensures r.Lines? ==> |r.items| == |ks|
    ensures r.Lines? ==> forall i :: 0 <= i < |ks| ==>
      && r.items[i].keyword == ks[i].keyword
      && (r.items[i].current.Dashes? <==> !Truthy(ks[i].current))
      && (r.items[i].previous.Dashes? <==> !Truthy(ks[i].previous))
      && (Truthy(ks[i].current) ==> r.items[i].current == Num(ks[i].current.value))
      && (Truthy(ks[i].previous) ==> r.items[i].previous == Num(ks[i].previous.value))
  {
    if ks == [] then Placeholder(3)
    else Lines(seq(|ks|, i requires 0 <= i < |ks| => KeywordLine(ks[i].keyword, OrDashes(ks[i].current), OrDashes(ks[i].previous))))
  }

  /** The competitor table: the name, or the URL when the name is falsy, and the three scores or `--`. */
  function CompetitorLines(cs: seq<Competitor>): (r: Lines<CompetitorLine>)
    ensures r.Placeholder? <==> cs == []
    ensures r.Placeholder? ==> r.colspan == 4
    ensures r.Lines? ==> |r.items| == |cs|
    ensures r.Lines? ==> forall i :: 0 <= i < |cs| ==>
      && (cs[i].name.Some? && cs[i].name.value != "" ==> r.items[i].name == cs[i].name.value)
      && (cs[i].name.None? || cs[i].name.value == "" ==> r.items[i].name == cs[i].url)
      && (r.items[i].overall.Dashes? <==> !Truthy(cs[i].overall))
      && (r.items[i].speed.Dashes? <==> !Truthy(cs[i].speed))
      && (r.items[i].backlinks.Dashes? <==> !Truthy(cs[i].backlinks))
      && (Truthy(cs[i].overall) ==> r.items[i].overall == Num(cs[i].overall.value))
      && (Truthy(cs[i].speed) ==> r.items[i].speed == Num(cs[i].speed.value))
      && (Truthy(cs[i].backlinks) ==> r.items[i].backlinks == Num(cs[i].backlinks.value))
  {
    if cs == [] then Placeholder(4)
    else Lines(seq(|cs|, i requires 0 <= i < |cs| =>
      CompetitorLine(NameOr(cs[i].name, cs[i].url), OrDashes(cs[i].overall), OrDashes(cs[i].speed), OrDashes(cs[i].backlinks))))
  }

  /** The message for a website and its latest report, built from the rows as they are now. */
  function ReportMail(t: Tables, w: Website, report: Report): Mail {
    Mail(w.notificationEmail, NameOr(w.name, w.url), report.scores, report.createdAt,
      KeywordLines(Children(t.keywords, {w.id})), CompetitorLines(CompetitorsOf(t.competitors, {w.id})))
  }

  /**
   * The handler, in its order: an OPTIONS request is answered at once with
   * nothing read or sent; then a falsy id, a website that is unknown or
   * hidden by row-level security, and a website without a report each fail
   * before anything is sent; otherwise the latest report by `created_at` is
   * mailed and the transport decides the outcome. The store is only read.
   */
  method Send(store: Store, outbox: Outbox<Mail>, requestMethod: string, websiteId: Option<Id>, visible: Id -> bool, smtpOk: bool)
    returns (response: Response)
    modifies outbox
    ensures requestMethod == "OPTIONS" ==> response == Preflight && outbox.sent == old(outbox.sent)
    ensures requestMethod != "OPTIONS" ==> !response.Preflight?
    ensures requestMethod != "OPTIONS" && (websiteId.None? || websiteId == Some("")) ==>
      response == Failed(MissingWebsiteId) && outbox.sent == old(outbox.sent)
    ensures requestMethod != "OPTIONS" && websiteId.Some? && websiteId.value != "" && (!visible(websiteId.value) || websiteId.value !in WebsiteIds(store.websites)) ==>
      response == Failed(WebsiteNotFound) && outbox.sent == old(outbox.sent)
    ensures websiteId.Some? && websiteId.value != "" && visible(websiteId.value) && websiteId.value in WebsiteIds(store.websites)
            && Latest(store.reports, websiteId.value, ByCreatedAt).None? && requestMethod != "OPTIONS" ==>
      response == Failed(NoReport) && outbox.sent == old(outbox.sent)
    ensures websiteId.Some? && websiteId.value != "" && visible(websiteId.value) && websiteId.value in WebsiteIds(store.websites)
            && Latest(store.reports, websiteId.value, ByCreatedAt).Some? && requestMethod != "OPTIONS" ==>
      var w := FindWebsite(store.websites, websiteId.value).value;
      var mail := ReportMail(store.Snapshot(), w, Latest(store.reports, websiteId.value, ByCreatedAt).value);
      && outbox.sent == old(outbox.sent) + (if smtpOk then [mail] else [])
      && response == if smtpOk then Sent(w.notificationEmail) else Failed(SendFailed)
  {
    if requestMethod == "OPTIONS" {
      return Preflight;
    }
    if websiteId.None? || websiteId.value == "" {
      return Failed(MissingWebsiteId);
    }
    var id := websiteId.value;
    var website := if visible(id) then FindWebsite(store.websites, id) else None;
    if website.None? {
      return Failed(WebsiteNotFound);
    }
    var w := website.value;
    var latest := Latest(store.reports, id, ByCreatedAt);
    if latest.None? {
      return Failed(NoReport);
    }
    var mail := ReportMail(store.Snapshot(), w, latest.value);
    var ok := outbox.Send(mail, smtpOk);
    if !ok {
      return Failed(SendFailed);
    }
    response := Sent(w.notificationEmail);
  }

  /**
   * The mailed report is the website's newest by `created_at`, and the
   * message goes to the website's notification address with one table line
   * per keyword and per competitor of that website (or a placeholder).
   */
  lemma MailedReportIsLatest(t: Tables, w: Website, reports: seq<Report>)
    requires Latest(reports, w.id, ByCreatedAt).Some?
    ensures var report := Latest(reports, w.id, ByCreatedAt).value;
      var mail := ReportMail(t, w, report);
      && report in reports && report.websiteId == w.id
      && (forall x :: x in reports && x.websiteId == w.id ==> x.createdAt <= report.createdAt)
      && mail.to == w.notificationEmail
      && mail.scores == report.scores
      && (mail.keywords.Lines? ==> |mail.keywords.items| == |Children(t.keywords, {w.id})|)
      && (mail.keywords.Placeholder? <==> forall k :: k in t.keywords ==> k.parent != w.id)
      && (mail.competitors.Placeholder? <==> forall c :: c in t.competitors ==> c.websiteId != w.id)
  {
    var report := Latest(reports, w.id, ByCreatedAt).value;
    forall x | x in reports && x.websiteId == w.id ensures x.createdAt <= report.createdAt {
      assert SortKey(x, ByCreatedAt) <= SortKey(report, ByCreatedAt);
    }
    var ks := Children(t.keywords, {w.id});
    if ks != [] {
      assert ks[0] in ks;
    }
    var cs := CompetitorsOf(t.competitors, {w.id});
    if cs != [] {
      assert cs[0] in cs;
    }
  }
}
