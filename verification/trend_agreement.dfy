/**
 * How the three ranking-change rules relate: the mailed report's trend,
 * the tracking page's change and the website page's badge all compare
 * `previous` with `current` the same way (a smaller number is better), but
 * the website page also treats a ranking of 0 as missing.
 */
module TrendAgreement {
  import opened Common
  import SendReportPhp
  import KeywordTracking
  import WebsiteDetail

  /**
   * Wherever the tracking page shows a change, the mailed trend for the
   * same two rankings points the same way: up, down, or unchanged.
   */
  lemma TrackingAgreesWithMail(hs: KeywordTracking.Histories, id: Id)
    requires KeywordTracking.RankingChange(hs, id).Some?
    ensures var latest := Some(hs[id][|hs[id]| - 1].ranking.value);
      var previous := Some(hs[id][|hs[id]| - 2].ranking.value);
      var d := KeywordTracking.RankingChange(hs, id).value.direction;
      var t := SendReportPhp.TrendOf(latest, previous);
      && (d == KeywordTracking.Up <==> t == SendReportPhp.Up)
      && (d == KeywordTracking.Down <==> t == SendReportPhp.Down)
      && (d == KeywordTracking.Same <==> t == SendReportPhp.Flat)
  {
  }

  /**
   * For two non-zero rankings the website page's badge and the mailed trend
   * point the same way.
   */
  lemma DetailAgreesWithMail(current: int, previous: int)
    requires current != 0 && previous != 0
    ensures var v := WebsiteDetail.RankingChange(Some(current), Some(previous));
      var t := SendReportPhp.TrendOf(Some(current), Some(previous));
      && (v.icon == WebsiteDetail.TrendingUp <==> t == SendReportPhp.Up)
      && (v.icon == WebsiteDetail.TrendingDown <==> t == SendReportPhp.Down)
      && (v.icon == WebsiteDetail.Minus <==> t == SendReportPhp.Flat)
  {
  }

  /**
   * A latest ranking of 0 after a 5: the tracking page and the mail show an
   * improvement by 5, the website page shows nothing known.
   */
  lemma ZeroRankingDiffers()
    ensures var hs := map["t" := [KeywordTracking.TrackingPoint(Some(5), 1), KeywordTracking.TrackingPoint(Some(0), 2)]];
      && KeywordTracking.RankingChange(hs, "t") == Some(KeywordTracking.Change(5, KeywordTracking.Up))
      && SendReportPhp.TrendOf(Some(0), Some(5)) == SendReportPhp.Up
      && WebsiteDetail.RankingChange(Some(0), Some(5)) == WebsiteDetail.ChangeView(WebsiteDetail.Minus, WebsiteDetail.Muted, "-")
  {
  }
}
