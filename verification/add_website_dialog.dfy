/**
 * The add-website dialog's submission: the signed-in user, then the website
 * insert, then one batch insert of the parsed keywords and one of the parsed
 * competitor URLs, each under the new website; the first failure stops the
 * submission, so later inserts never happen.
 */
module AddWebsiteDialog {
  import opened Common
  import opened Text
  import opened Schema

  datatype Step = SignIn | WebsiteInsert | KeywordInsert | CompetitorInsert

  datatype Outcome = Added(websiteId: Id) | Failed(step: Step)

  /** The website row as stored: the form's values, and `is_active` as the column default gives it. */
  function NewWebsite(id: Id, url: string, name: string, email: string, activeDefault: Option<bool>): Website {
    Website(id, url, Some(name), Some(email), activeDefault)
  }

  /** One competitor row per parsed URL, in order, under the website, with no name or scores yet. */
  function NewCompetitors(websiteId: Id, urls: seq<string>, newId: nat -> Id): (rows: seq<Competitor>)
    ensures |rows| == |urls|
    ensures forall i :: 0 <= i < |rows| ==> rows[i].websiteId == websiteId && rows[i].url == urls[i] && rows[i].name.None?
  {
    seq(|urls|, i requires 0 <= i < |urls| => Competitor(newId(i), websiteId, urls[i], None, None, None, None, None))
  }

  /**
   * Items typed separated by commas come back as rows in the same order,
   * and a blank input would give no row, so skipping its insert drops
   * nothing.
   */
  lemma TypedItemsBecomeRows(websiteId: Id, items: seq<string>, blank: string, keywordId: nat -> Id)
    requires forall i :: 0 <= i < |items| ==> items[i] != "" && Trimmed(items[i]) && ',' !in items[i]
    requires Blank(blank)
    ensures NewTrackables(websiteId, ParseList(Join(items, ',')), keywordId) == NewTrackables(websiteId, items, keywordId)
    ensures NewTrackables(websiteId, ParseList(blank), keywordId) == []
  {
    ParseJoin(items);
    BlankParsesEmpty(blank);
  }

  /**
   * `handleSubmit`. A missing user fails before any insert; a refused
   * website insert stores nothing; a refused keyword insert leaves the
   * website stored but inserts no competitor; a blank list input is skipped
   * without an insert.
   */
  method Submit(store: Store, signedIn: bool, url: string, name: string, email: string,
                keywordInput: string, competitorInput: string,
                websiteId: Id, activeDefault: Option<bool>, keywordId: nat -> Id, competitorId: nat -> Id,
                websiteOk: bool, keywordsOk: bool, competitorsOk: bool)
    returns (outcome: Outcome)
    modifies store
    ensures store.websites == old(store.websites)
      + if signedIn && websiteOk then [NewWebsite(websiteId, url, name, email, activeDefault)] else []
    ensures store.keywords == old(store.keywords)
      + if signedIn && websiteOk && !Blank(keywordInput) && keywordsOk
        then NewTrackables(websiteId, ParseList(keywordInput), keywordId) else []
    ensures store.competitors == old(store.competitors)
      + if signedIn && websiteOk && (Blank(keywordInput) || keywordsOk) && !Blank(competitorInput) && competitorsOk
        then NewCompetitors(websiteId, ParseList(competitorInput), competitorId) else []
    ensures store.competitorKeywords == old(store.competitorKeywords)
    ensures store.history == old(store.history) && store.reports == old(store.reports)
    ensures outcome ==
      if !signedIn then Failed(SignIn)
      else if !websiteOk then Failed(WebsiteInsert)
      else if !Blank(keywordInput) && !keywordsOk then Failed(KeywordInsert)
      else if !Blank(competitorInput) && !competitorsOk then Failed(CompetitorInsert)
      else Added(websiteId)
  {
    if !signedIn {
      return Failed(SignIn);
    }
    var ok := store.InsertWebsite(NewWebsite(websiteId, url, name, email, activeDefault), websiteOk);
    if !ok {
      return Failed(WebsiteInsert);
    }
    if !Blank(keywordInput) {
      ok := store.InsertTrackables(KeywordKind, NewTrackables(websiteId, ParseList(keywordInput), keywordId), keywordsOk);
      if !ok {
        return Failed(KeywordInsert);
      }
    }
    if !Blank(competitorInput) {
      ok := store.InsertCompetitors(NewCompetitors(websiteId, ParseList(competitorInput), competitorId), competitorsOk);
      if !ok {
        return Failed(CompetitorInsert);
      }
    }
    outcome := Added(websiteId);
  }
}
