/**
 * The add-competitor dialog's submission: the competitor insert, then one
 * batch insert of the parsed keywords under the new competitor; a refused
 * competitor insert stops the submission.
 */
module AddCompetitorDialog {
  import opened Common
  import opened Text
  import opened Schema

  datatype Step = CompetitorInsert | KeywordInsert

  datatype Outcome = Added(competitorId: Id) | Failed(step: Step)

  /** `competitor_name: competitorName || null`: an empty name is stored as null, any other as typed. */
  function NameOrNull(name: string): (r: Option<string>)
    ensures r.None? <==> name == ""
    ensures r.Some? ==> r.value == name
  {
    if name == "" then None else Some(name)
  }

  /** The competitor row as stored: no scores yet. */
  function NewCompetitor(id: Id, websiteId: Id, url: string, name: string): Competitor {
    Competitor(id, websiteId, url, NameOrNull(name), None, None, None, None)
  }

  /**
   * `handleSubmit`: the competitor insert; if refused, nothing is stored.
   * Otherwise a non-blank keyword input is inserted as one batch under the
   * new competitor; a blank one causes no insert.
   */
  method Submit(store: Store, websiteId: Id, url: string, name: string, keywordInput: string,
                competitorId: Id, keywordId: nat -> Id, competitorOk: bool, keywordsOk: bool)
    returns (outcome: Outcome)
    modifies store
    ensures store.competitors == old(store.competitors)
      + if competitorOk then [NewCompetitor(competitorId, websiteId, url, name)] else []
    ensures store.competitorKeywords == old(store.competitorKeywords)
      + if competitorOk && !Blank(keywordInput) && keywordsOk
        then NewTrackables(competitorId, ParseList(keywordInput), keywordId) else []
    ensures store.websites == old(store.websites) && store.keywords == old(store.keywords)
    ensures store.history == old(store.history) && store.reports == old(store.reports)
    ensures outcome ==
      if !competitorOk then Failed(CompetitorInsert)
      else if !Blank(keywordInput) && !keywordsOk then Failed(KeywordInsert)
      else Added(competitorId)
  {
    var ok := store.InsertCompetitors([NewCompetitor(competitorId, websiteId, url, name)], competitorOk);
    if !ok {
      return Failed(CompetitorInsert);
    }
    if !Blank(keywordInput) {
      ok := store.InsertTrackables(CompetitorKeywordKind, NewTrackables(competitorId, ParseList(keywordInput), keywordId), keywordsOk);
      if !ok {
        return Failed(KeywordInsert);
      }
    }
    outcome := Added(competitorId);
  }
}
