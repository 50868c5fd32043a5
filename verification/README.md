# SEO ranking collection and report pipeline — a Dafny model

This project models the core of a small SEO monitoring service. Users register
websites, along with their keywords and competitors. Several server-side jobs
maintain ranking data:

- **Keyword ranking resolution** (`fetch-keyword-ranking`): asks a search
  provider for one keyword and finds the website's position among the organic
  results. It runs for one tracking on demand, or for every active tracking on
  a schedule, and appends a history row for each result.
- **Report generation**: the scheduled TypeScript job, the on-demand
  TypeScript function and the PHP endpoint. Each rotates the keyword rankings
  (`previous := current`, `current := new`), refreshes the competitor scores
  and inserts an SEO report. The scores and rankings are simulated random
  draws, and each generator has its own ranges.
- **Report mailing** (TypeScript and PHP): picks a website's latest report and
  mails it with a keyword table and a competitor table. The PHP version adds a
  trend column, and it queries a 30-day ranking history that the mail does not
  show.
- **Client helpers**: the keyword-tracking page (latest ranking, last change,
  the limit of two tracked websites, the chart pivot), the website page's
  ranking-change badge, the two add dialogs, and the two chart components'
  grouping and row building.

How the model is organised:

- Entities that are values are datatypes.
- The database is a `Schema.Store` class. Its tables are sequences in table
  order, and the handlers update them in place; the mail jobs have an `Outbox`.
- Randomness is injected as one `Unit` draw (`Math.random()`, a real number in
  [0, 1)) or one `Draw4` per row id.
- Time is a parameter `now`.
- A store call whose failure the code inspects takes an injected flag: the
  report, website, keyword and competitor inserts, the tracking history
  insert, and the website and tracking reads. The generators' row updates and
  history inserts always succeed in the model (see "Left out").
- Proved properties:
  - generator ranges, in `Schema.DrawScores` and `Schema.NewRanking`;
  - row-exact effects of each generator: which rows change, how, and that
    exactly one history point is written per rotated row;
  - guard order and status codes of every handler, the OPTIONS preflight first;
  - first-match semantics of the rank scan, and how the URL hostname and the
    `www.` removal decide a website's domain and a result's domain;
  - round trips of the text helpers, such as comma lists and badge numerals;
  - exactness of the chart groupings;
  - the ordering and exactness of the PHP 30-day window;
  - agreement between the three ranking-change rules.

Modules: `Common`, `Text`, `Schema` (tables, selections, rotations and the
store), `RankResolver`, `ScheduledReport`, `GenerateReport`,
`GenerateReportPhp`, `SendReport`, `SendReportPhp`, `KeywordTracking`,
`WebsiteDetail`, `AddWebsiteDialog`, `AddCompetitorDialog`, `Grouping`,
`RankingChart`, `ComparisonChart`, `TrendAgreement`.

## Model

| member | source | states |
|---|---|---|
| Common.Scaled | supabase/functions/scheduled-seo-report/index.ts:70-73 | `Math.floor(Math.random() * span) + offset` lies in [offset, offset + span) |
| Common.PhpRand | api/generate-seo-report.php:46-49 | `rand(lo, hi)` lies in [lo, hi], both ends included |
| Common.OrDashes | supabase/functions/send-seo-report/index.ts:77-78 | `x \|\| '--'` shows `--` exactly when the ranking is null or 0, otherwise that non-zero number; the website page's current ranking (src/pages/WebsiteDetail.tsx:191) uses the same rule |
| Common.NameOr | supabase/functions/send-seo-report/index.ts:86 | `name \|\| fallback`: the name when it is present and non-empty, the fallback otherwise |
| Common.Outbox.Send | supabase/functions/send-seo-report/index.ts:185-191 | a send the transport accepts appends exactly that message; a refused one leaves the outbox unchanged and reports failure |
| Common.SortAscending | src/components/CompetitorComparisonChart.tsx:32 | the distinct dates come back strictly ascending, with the same elements and the same length |
| Text.IndexOf | supabase/functions/fetch-keyword-ranking/index.ts:162 | the first position where the pattern occurs, or none exactly when it occurs nowhere |
| Text.ContainsIff | supabase/functions/fetch-keyword-ranking/index.ts:162 | `includes` holds exactly when the pattern occurs at some position |
| Text.ReplaceFirst | supabase/functions/fetch-keyword-ranking/index.ts:150 | `replace` with a string pattern leaves a string without the pattern unchanged; otherwise the first occurrence is replaced: the text before it, then the replacement, then the text after it |
| Text.ReplaceFirstAtStart | supabase/functions/fetch-keyword-ranking/index.ts:161 | a pattern at the start is the occurrence that is replaced |
| Text.Trim | src/pages/KeywordTracking.tsx:108-110 | `trim()` yields a string with no white space at either end, which is the input minus white space before and after it |
| Text.TrimTrimmed | src/pages/KeywordTracking.tsx:108-110 | a string already free of surrounding white space is its own trim |
| Text.TrimIdempotent | src/pages/KeywordTracking.tsx:108-110 | trimming twice is trimming once |
| Text.BlankIsAllSpace | src/pages/KeywordTracking.tsx:84 | `!s.trim()` holds exactly when every character is white space |
| Text.Split | src/components/AddWebsiteDialog.tsx:53 | `split(',')` gives at least one piece, and no piece holds the separator |
| Text.JoinSplit | src/components/AddWebsiteDialog.tsx:53 | joining the pieces of a split gives back the input |
| Text.SplitJoin | src/components/AddWebsiteDialog.tsx:53 | splitting a join of separator-free pieces gives back the pieces |
| Text.TrimNonEmpty | src/components/AddWebsiteDialog.tsx:53 | `.map(k => k.trim()).filter(k => k)` keeps only non-empty trimmed items and never adds one |
| Text.ParseList | src/components/AddWebsiteDialog.tsx:53 | every parsed item is non-empty, trimmed and comma-free |
| Text.ParseJoin | src/components/AddWebsiteDialog.tsx:53 | items that are non-empty, trimmed and comma-free, typed comma-separated, parse back to exactly those items in order |
| Text.BlankParsesEmpty | src/components/AddWebsiteDialog.tsx:52-53 | a blank input parses to no items, so skipping its insert loses nothing |
| Text.Decimal | src/pages/WebsiteDetail.tsx:84-85 | a number's text is a non-empty string of digits without a leading zero |
| Text.DecimalRoundTrip | src/pages/WebsiteDetail.tsx:84-85 | reading the decimal text of a number gives the number back |
| Schema.NewRanking | supabase/functions/scheduled-seo-report/index.ts:78 | a new simulated ranking lies in [1, 50] for the scheduled job and in [1, 100] for the two generators |
| Schema.DrawScores | supabase/functions/generate-seo-report/index.ts:59-62 | each generator's report scores lie in its documented ranges (scheduled 70-99/70-99/50-549/0-9, TS 70-99/80-99/100-399/5-24, PHP 60-95/50-100/100-5000/0-20) |
| Schema.Children | supabase/functions/scheduled-seo-report/index.ts:51-54 | `select ... eq('website_id', id)`: a row is selected exactly when it is in the table and its parent is one of the given ones |
| Schema.ChildrenUnique | supabase/functions/scheduled-seo-report/index.ts:51-54 | a selection keeps primary keys unique |
| Schema.CompetitorsOf | supabase/functions/scheduled-seo-report/index.ts:57-60 | a competitor is selected exactly when it is in the table and belongs to one of the given websites |
| Schema.CompetitorsOfUnique | supabase/functions/scheduled-seo-report/index.ts:57-60 | a competitor selection keeps primary keys unique |
| Schema.Rotated | supabase/functions/scheduled-seo-report/index.ts:80-87 | a rotated row keeps its id, parent and keyword, takes its old current ranking as previous, gets a current ranking in [1, ceiling] and `updated_at = now` |
| Schema.RotateIds | supabase/functions/scheduled-seo-report/index.ts:77-96 | rotating rows by id keeps the table's length, ids and parents |
| Schema.RotateIdsStep | supabase/functions/scheduled-seo-report/index.ts:77-96 | one more `update ... eq('id', x)` extends the set of rotated ids |
| Schema.RotateChildren | supabase/functions/scheduled-seo-report/index.ts:76-97 | rotating a website's rows keeps every row's id and parent |
| Schema.RotationEffect | supabase/functions/scheduled-seo-report/index.ts:80-87 | a row of a selected parent is rotated once; every other row is unchanged |
| Schema.SelectedIdsAreChildren | supabase/functions/scheduled-seo-report/index.ts:77-87 | updating by the ids of the selected rows is rotating exactly the parent's rows |
| Schema.RotateChildrenCompose | supabase/functions/scheduled-seo-report/index.ts:46-97 | rotations for disjoint parent sets compose |
| Schema.ChildrenAfterRotation | supabase/functions/scheduled-seo-report/index.ts:46-97 | rotating one website's rows leaves another website's selection as it was |
| Schema.RotationKeepsUnique | supabase/functions/scheduled-seo-report/index.ts:80-87 | rotation keeps primary keys unique |
| Schema.Points | supabase/functions/scheduled-seo-report/index.ts:89-95 | one history row per selected row, each referring to its row, stamped `now` and carrying the row's new ranking |
| Schema.PointsMatchRotation | supabase/functions/scheduled-seo-report/index.ts:89-95 | each rotated row has exactly one history point in its pass, carrying the ranking it was given |
| Schema.Scored | supabase/functions/scheduled-seo-report/index.ts:126-134 | a refreshed competitor keeps its id, website, URL and name, gets the three scores in the generator's ranges and `last_checked_at = now` |
| Schema.ScoreIds | supabase/functions/scheduled-seo-report/index.ts:125-135 | refreshing by id keeps the table's length, ids and websites |
| Schema.ScoreIdsStep | supabase/functions/scheduled-seo-report/index.ts:125-135 | one more refresh by id extends the refreshed set |
| Schema.ScoreCompetitors | supabase/functions/scheduled-seo-report/index.ts:124-136 | refreshing a website's competitors keeps every row's id and website |
| Schema.RefreshEffect | supabase/functions/scheduled-seo-report/index.ts:126-134 | a competitor of a selected website is refreshed once; every other competitor is unchanged |
| Schema.SelectedCompetitorIds | supabase/functions/scheduled-seo-report/index.ts:124-136 | refreshing by the ids of the selected competitors refreshes exactly the website's competitors |
| Schema.ScoreCompetitorsCompose | supabase/functions/scheduled-seo-report/index.ts:46-136 | refreshes for disjoint website sets compose |
| Schema.CompetitorsAfterRefresh | supabase/functions/scheduled-seo-report/index.ts:46-136 | refreshing one website's competitors leaves another website's selection as it was |
| Schema.RefreshKeepsUnique | supabase/functions/scheduled-seo-report/index.ts:126-134 | a refresh keeps primary keys unique |
| Schema.CompetitorIdsUnion | supabase/functions/scheduled-seo-report/index.ts:63 | the competitor ids of two website sets are the union of each set's |
| Schema.CompetitorIdsDisjoint | supabase/functions/scheduled-seo-report/index.ts:63 | competitors of disjoint website sets have disjoint ids |
| Schema.ChildrenDisjointUnion | api/send-seo-report.php:88-93 | selecting by two disjoint sets of parents selects as many rows as the two selections together |
| Schema.FindWebsite | api/generate-seo-report.php:27-33 | `SELECT * FROM websites WHERE id = ?`: the website with that id, or none exactly when no row has it |
| Schema.Latest | api/send-seo-report.php:49-56 | `ORDER BY ... DESC LIMIT 1`: a report of the website whose key is the largest, or none exactly when the website has no report |
| Schema.NewTrackables | src/components/AddWebsiteDialog.tsx:54-57 | one new keyword row per parsed keyword, in order, under the parent, with no rankings |
| Schema.Store.constructor | supabase/functions/scheduled-seo-report/index.ts:24-27 | the store holds the given tables and an empty history |
| Schema.Store.RotateRow | supabase/functions/scheduled-seo-report/index.ts:80-87 | one `update ... eq('id', id)` rotates exactly the rows with that id in one ranking table |
| Schema.Store.AppendHistory | supabase/functions/scheduled-seo-report/index.ts:89-95 | one history insert appends exactly that point |
| Schema.Store.RefreshCompetitor | supabase/functions/scheduled-seo-report/index.ts:126-134 | one competitor update refreshes exactly the rows with that id |
| Schema.Store.InsertReport | supabase/functions/scheduled-seo-report/index.ts:139-154 | an accepted report insert appends the report; a rejected one changes nothing |
| Schema.Store.InsertWebsite | src/components/AddWebsiteDialog.tsx:37-49 | an accepted website insert appends the row; a refused one changes nothing |
| Schema.Store.InsertTrackables | src/components/AddWebsiteDialog.tsx:59-63 | a batch insert appends every row or none |
| Schema.Store.InsertCompetitors | src/components/AddWebsiteDialog.tsx:74-78 | a competitor batch insert appends every row or none |
| Schema.Store.RotateEach | supabase/functions/scheduled-seo-report/index.ts:76-97 | the keyword loop rotates exactly the selected ids and, where the generator writes history, appends one point per selected row in order; other tables are unchanged |
| Schema.Store.RefreshEach | supabase/functions/scheduled-seo-report/index.ts:124-136 | the competitor loop refreshes exactly the selected ids and changes no other table |
| RankResolver.SearchFor | supabase/functions/fetch-keyword-ranking/index.ts:126-134 | the provider query asks for the keyword and the top 100 results, with location Taiwan, language zh-TW and country tw |
| RankResolver.Lower | supabase/functions/fetch-keyword-ranking/index.ts:149-150 | the host of a special-scheme URL is lower-cased: same length, each ASCII capital replaced by its small letter, every other character kept |
| RankResolver.LowerIdem | supabase/functions/fetch-keyword-ranking/index.ts:149-150 | a host without ASCII capitals is kept as it is |
| RankResolver.TakeUntil | supabase/functions/fetch-keyword-ranking/index.ts:152 | the longest prefix free of the stop characters |
| RankResolver.HostnameAllowed | supabase/functions/fetch-keyword-ranking/index.ts:149-150 | a hostname the URL constructor yields holds none of the forbidden host code points (none stands for the constructor throwing) |
| RankResolver.HostnameOfPlain | supabase/functions/fetch-keyword-ranking/index.ts:149-150 | a special-scheme URL whose authority is a plain lower-case host, followed by a path, query or fragment, has that host as its hostname (for the modelled parser, which has no IPv4 rewriting of a numeric last label) |
| RankResolver.UserInfoDropped | supabase/functions/fetch-keyword-ranking/index.ts:159-160 | user information before `@` is not part of the hostname |
| RankResolver.OpaqueUrlHasEmptyHost | supabase/functions/fetch-keyword-ranking/index.ts:159-160 | a URL of a non-special scheme without `//` (such as `mailto:`) parses, with an empty hostname |
| RankResolver.FileUrlHasEmptyHost | supabase/functions/fetch-keyword-ranking/index.ts:159-160 | `file:///path` parses, with an empty hostname |
| RankResolver.DropWwwAbsent | supabase/functions/fetch-keyword-ranking/index.ts:150 | `replace('www.', '')` keeps a host without `www.` |
| RankResolver.DropWwwFront | supabase/functions/fetch-keyword-ranking/index.ts:150 | `replace('www.', '')` drops a leading `www.` |
| RankResolver.DropWwwMid | supabase/functions/fetch-keyword-ranking/index.ts:150 | the first `www.` is dropped wherever it stands, the rest of the host kept |
| RankResolver.PlainHostIsOwnTarget | supabase/functions/fetch-keyword-ranking/index.ts:147-150 | a plain host name (letters, digits, `-`, `.`) without `www.` that does not start with `http` is its own target domain (for the modelled parser, which has no IPv4 rewriting of a numeric last label) |
| RankResolver.PlainUrlIsOwnTarget | supabase/functions/fetch-keyword-ranking/index.ts:147-150 | written with `https://` in front, such a host is its own target domain too (for the modelled parser, which has no IPv4 rewriting of a numeric last label) |
| RankResolver.PlainHostDoesNotParse | supabase/functions/fetch-keyword-ranking/index.ts:149-152 | a plain host name has no `:`, so the URL constructor throws on it as it stands |
| RankResolver.FallbackOfPlain | supabase/functions/fetch-keyword-ranking/index.ts:152 | the fallback keeps a plain host without `www.` whole |
| RankResolver.HttpNamedHostIsOwnTarget | supabase/functions/fetch-keyword-ranking/index.ts:147-152 | a plain host name that starts with `http` (such as `httpbin.org`) is not prefixed, takes the fallback, and is still its own target domain (for the modelled parser, which has no IPv4 rewriting of a numeric last label) |
| RankResolver.WwwPrefixIgnored | supabase/functions/fetch-keyword-ranking/index.ts:147-150 | the website `www.` + host targets host (for the modelled parser, which has no IPv4 rewriting of a numeric last label) |
| RankResolver.WwwUrlIgnored | supabase/functions/fetch-keyword-ranking/index.ts:147-150 | the website `https://www.` + host targets host (for the modelled parser, which has no IPv4 rewriting of a numeric last label) |
| RankResolver.MidWwwDropped | supabase/functions/fetch-keyword-ranking/index.ts:147-150 | the removal is not anchored: `shop.www.a.com` targets `shop.a.com` |
| RankResolver.WwwLinkDomain | supabase/functions/fetch-keyword-ranking/index.ts:159-161 | a result link on `www.` + host, with any path, query or fragment, has domain host (for the modelled parser, which has no IPv4 rewriting of a numeric last label) |
| RankResolver.WwwResultMatchesWebsite | supabase/functions/fetch-keyword-ranking/index.ts:147-162 | the rule's own example: `https://www.example.com/path` has the website `example.com` as its domain and matches it (for the modelled parser, which has no IPv4 rewriting of a numeric last label) |
| RankResolver.OpaqueLinkMatchesAnyTarget | supabase/functions/fetch-keyword-ranking/index.ts:159-162 | a `mailto:` link has the empty domain, and the empty domain matches every target |
| RankResolver.OpaqueLinkRanksFirst | supabase/functions/fetch-keyword-ranking/index.ts:156-170 | a `mailto:` result ahead of the others is taken as the website's ranking, whatever the website |
| RankResolver.FallbackDomain | supabase/functions/fetch-keyword-ranking/index.ts:152 | the fallback domain holds no `/` |
| RankResolver.DomainMatchSymmetric | supabase/functions/fetch-keyword-ranking/index.ts:162 | the two-way `includes` match does not depend on argument order |
| RankResolver.SubdomainMatches | supabase/functions/fetch-keyword-ranking/index.ts:162 | a subdomain of the target, and the target itself, match it |
| RankResolver.EmptyTargetMatchesAll | supabase/functions/fetch-keyword-ranking/index.ts:162 | an empty domain matches every domain, on either side of the test |
| RankResolver.FirstMatchIsFirst | supabase/functions/fetch-keyword-ranking/index.ts:156-170 | the ranking is the position of the first matching result in array order; it is null exactly when no result matches |
| RankResolver.ScanResults | supabase/functions/fetch-keyword-ranking/index.ts:156-170 | the scan loop with `break` and `continue` returns exactly the first match's position |
| RankResolver.FirstMatchFrom | supabase/functions/fetch-keyword-ranking/index.ts:159-168 | a match at the current result ends the scan; otherwise it goes on from the next result |
| RankResolver.SearchVolume | supabase/functions/fetch-keyword-ranking/index.ts:174 | `total_results \|\| null`: null exactly when the total is absent or 0, otherwise that total |
| RankResolver.FetchRankingForKeyword | supabase/functions/fetch-keyword-ranking/index.ts:120-176 | a non-ok provider response is an error carrying its status, and only then; otherwise the first matching position and the search volume |
| RankResolver.ActiveTrackings | supabase/functions/fetch-keyword-ranking/index.ts:69-72 | exactly the trackings with `is_active = true` |
| RankResolver.EntryFor | supabase/functions/fetch-keyword-ranking/index.ts:96-99 | each result entry carries the tracking id, and holds the result or the error as the fetch gave it |
| RankResolver.ScheduledRowsStep | supabase/functions/fetch-keyword-ranking/index.ts:79-101 | one more tracking appends its own history rows |
| RankResolver.ScheduledRowsBounded | supabase/functions/fetch-keyword-ranking/index.ts:79-101 | no more history rows than trackings, each stamped `now` and belonging to a processed tracking whose fetch resolved and whose insert was accepted |
| RankResolver.ScheduledRowsComplete | supabase/functions/fetch-keyword-ranking/index.ts:79-101 | when every fetch resolves and every insert succeeds, there is one row per tracking, in order |
| RankResolver.TrackingStore.constructor | supabase/functions/fetch-keyword-ranking/index.ts:69-72 | the store holds the trackings and no history yet |
| RankResolver.TrackingStore.InsertHistory | supabase/functions/fetch-keyword-ranking/index.ts:48-55 | an accepted insert appends the row; a refused one changes nothing |
| RankResolver.HandleManual | supabase/functions/fetch-keyword-ranking/index.ts:44-66 | manual branch: a provider error or a refused insert fails; otherwise exactly one history row with the result and `now` is appended and the result is returned |
| RankResolver.ProcessTracking | supabase/functions/fetch-keyword-ranking/index.ts:80-100 | one iteration: the entry for the fetch outcome, and a history row only for a resolved fetch with an accepted insert |
| RankResolver.ProcessAll | supabase/functions/fetch-keyword-ranking/index.ts:78-101 | one entry per tracking, in order; an error does not stop the loop; the history grows by exactly the scheduled rows |
| RankResolver.RunScheduled | supabase/functions/fetch-keyword-ranking/index.ts:69-106 | a failed tracking read fails without writing; otherwise the loop runs over the active trackings |
| RankResolver.Handle | supabase/functions/fetch-keyword-ranking/index.ts:22-117 | an OPTIONS request is answered first with an empty 200 and no write; then the missing API key is checked, then the store configuration (neither writes); once both are present, a manual request gets exactly the manual branch's outcome (provider error, refused insert, or one history row and the result) and any other request exactly the scheduled branch's (a failed read, or one entry per active tracking with their history rows); a response is a failure exactly when its status is 400 |
| ScheduledReport.ActiveWebsites | supabase/functions/scheduled-seo-report/index.ts:24-27 | exactly the websites with `is_active = true` (null counts as inactive) |
| ScheduledReport.ActiveWebsitesUnique | supabase/functions/scheduled-seo-report/index.ts:24-27 | the active selection keeps website ids unique |
| ScheduledReport.ResultOf | supabase/functions/scheduled-seo-report/index.ts:156-162 | the result names the website and is a success exactly when the report insert was accepted |
| ScheduledReport.ProcessWebsite | supabase/functions/scheduled-seo-report/index.ts:47-162 | one website: keywords rotated with history, competitor keywords rotated with history, competitors refreshed, then the report insert; the new tables are `SiteStep` of the old |
| ScheduledReport.CountSucceeded | supabase/functions/scheduled-seo-report/index.ts:171 | the success count is at most the number of results, and equals it exactly when every result succeeded |
| ScheduledReport.Run | supabase/functions/scheduled-seo-report/index.ts:10-193 | an OPTIONS request is answered first with an empty 200 and nothing read or written; then a failed website read answers 500 and writes nothing; no active website answers `processed: 0` and writes nothing; otherwise one result per active website in order, `processed` counts the successes, and each website's rows are updated exactly once |
| ScheduledReport.ProcessAll | supabase/functions/scheduled-seo-report/index.ts:46-169 | the loop keeps going past a rejected report; the results and the tables are those of processing every active website once |
| ScheduledReport.ProcessNext | supabase/functions/scheduled-seo-report/index.ts:46-169 | one loop iteration extends the processed prefix by the next website and appends that website's result |
| ScheduledReport.ProgressStep | supabase/functions/scheduled-seo-report/index.ts:46-169 | the run invariant is kept by processing the next website |
| ScheduledReport.RunStep | supabase/functions/scheduled-seo-report/index.ts:89-162 | one more website appends its own history rows and its report, if accepted |
| ScheduledReport.NothingProcessed | supabase/functions/scheduled-seo-report/index.ts:44 | before the loop, nothing is processed |
| ScheduledReport.NextIsNew | supabase/functions/scheduled-seo-report/index.ts:46 | among distinct websites, the next one has not been processed yet |
| ScheduledReport.SiteReadsOriginal | supabase/functions/scheduled-seo-report/index.ts:51-67 | a website still reads its keywords, competitors and competitor keywords as they were before the run |
| ScheduledReport.StepProcessed | supabase/functions/scheduled-seo-report/index.ts:47-162 | processing one more website updates its rows once and leaves the others; it appends the history and report it would get alone |
| ScheduledReport.RunKeywordEffect | supabase/functions/scheduled-seo-report/index.ts:76-97 | a keyword of a processed website ends with its old current ranking as previous, a new one in [1, 50], and exactly one history point in its website's rows; other keywords are untouched |
| ScheduledReport.RunReportsInRange | supabase/functions/scheduled-seo-report/index.ts:139-152 | every report a run inserts has the scheduled score ranges and belongs to an accepted, processed website; there are no more reports than websites |
| ScheduledReport.AllAcceptedAllProcessed | supabase/functions/scheduled-seo-report/index.ts:171-178 | with every report accepted, `processed` equals `total` |
| GenerateReport.VisibleWebsite | supabase/functions/generate-seo-report/index.ts:36-44 | the website is found exactly when it exists and row-level security lets the caller see it |
| GenerateReport.Generate | supabase/functions/generate-seo-report/index.ts:14-131 | an OPTIONS request is answered first with an empty 200 and the tables unchanged; then a falsy id, then an unknown or hidden website, fail with 400 before any write; otherwise keywords are rotated (no history), competitors refreshed and the report inserted; a rejected insert is a 400 that keeps the updates |
| GenerateReport.GenerateFootprint | supabase/functions/generate-seo-report/index.ts:64-117 | no history written, competitor keywords untouched, one more report exactly when the insert is accepted, and no keyword or competitor of another website changed |
| GenerateReport.GenerateKeywordEffect | supabase/functions/generate-seo-report/index.ts:66-77 | each keyword of the website keeps its id, takes its old current ranking as previous, and gets a current one in [1, 100] |
| GenerateReport.GeneratedReportShape | supabase/functions/generate-seo-report/index.ts:97-110 | the report is for the website, has scores in [70, 99], [80, 99], [100, 399], [5, 24], and counts the keywords and competitors read |
| GenerateReportPhp.CompetitorKeywordPoints | api/generate-seo-report.php:95-114 | every competitor-keyword history row is stamped `now` with a ranking in [1, 100] |
| GenerateReportPhp.Generate | api/generate-seo-report.php:9-164 | an OPTIONS preflight is answered 204 without a write; any other method but POST gives 405, no `website_id` gives 400, an unknown website gives 404, none of them writing; otherwise the website is processed and a rejected report insert is a 500 that keeps the updates |
| GenerateReportPhp.ProcessCompetitors | api/generate-seo-report.php:74-115 | each competitor in order is refreshed and its keywords rotated, one history row each |
| GenerateReportPhp.CompetitorsDoneStep | api/generate-seo-report.php:74-115 | processing the next competitor keeps the loop invariant |
| GenerateReportPhp.PointsStep | api/generate-seo-report.php:95-114 | one more competitor appends its keywords' history rows |
| GenerateReportPhp.ProcessCompetitor | api/generate-seo-report.php:76-114 | one competitor: the score update, then its keywords rotated with history |
| GenerateReportPhp.NextCompetitorIsNew | api/generate-seo-report.php:74 | among distinct competitors, the next one is not processed yet |
| GenerateReportPhp.SnapshotHoldsOldRankings | api/generate-seo-report.php:118-123 | the report data holds each keyword as read before the update; that keyword now has the old ranking as previous, a new one in [1, 100], and exactly one history row with it |
| GenerateReportPhp.CompetitorKeywordEffect | api/generate-seo-report.php:95-114 | a competitor keyword is rotated once and its competitor's history block has exactly one row for it, with the new ranking |
| SendReport.KeywordLines | supabase/functions/send-seo-report/index.ts:73-81 | the placeholder spans 3 columns exactly when there are no keywords; otherwise one line per keyword, in order, showing each ranking where it is truthy and `--` exactly where it is falsy |
| SendReport.CompetitorLines | supabase/functions/send-seo-report/index.ts:83-92 | the placeholder spans 4 columns exactly when there are no competitors; otherwise one line per competitor, in order: the name or the URL, and each score where it is truthy and `--` exactly where it is falsy |
| SendReport.Send | supabase/functions/send-seo-report/index.ts:15-218 | an OPTIONS request is answered first with an empty 200 and nothing sent; then a falsy id, an unknown or hidden website, or no report fails with 400 and sends nothing; otherwise the latest report by `created_at` is mailed to the notification address, and a transport failure is a 400 |
| SendReport.MailedReportIsLatest | supabase/functions/send-seo-report/index.ts:48-58 | the mailed report is the website's newest by `created_at`, the mail goes to the notification address, and each table is a placeholder exactly when the website has no such rows |
| SendReportPhp.NullPreviousShowsDown | api/send-seo-report.php:152-155 | the trend as written shows `↓` for current 8 and previous NULL (and `↑` when swapped); the corrected rule shows `→` |
| SendReportPhp.TrendOf | api/send-seo-report.php:152-155 | `↑` exactly when both rankings are known and current < previous, `↓` exactly when current > previous, `→` otherwise |
| SendReportPhp.TrendAgreesOnRankings | api/send-seo-report.php:152-155 | on two known rankings the corrected rule equals the rule as written |
| SendReportPhp.Recent | api/send-seo-report.php:71-72 | the window rows are exactly the row's history points with `checked_at >= now - 30 days`, never more often than in the table |
| SendReportPhp.InsertByTime | api/send-seo-report.php:67 | inserting into a time-ordered list keeps it ordered and adds exactly one copy of the point |
| SendReportPhp.SortByTime | api/send-seo-report.php:67 | `ORDER BY krh.checked_at` gives an ordered permutation of the rows |
| SendReportPhp.WindowExact | api/send-seo-report.php:63-75 | the `history` column is ordered by time and holds exactly the row's points of the last 30 days |
| SendReportPhp.KeywordQuery | api/send-seo-report.php:63-77 | one query row per keyword of the website |
| SendReportPhp.BuildRows | api/send-seo-report.php:151-162 | the loop builds one mail row per query row, in order, each with its trend |
| SendReportPhp.RowTrend | api/send-seo-report.php:152-159 | a mail row carries its keyword and current ranking; its trend follows the corrected rule `TrendOf` (see Findings): `↑` exactly on an improvement and `↓` exactly on a worsening, both rankings known |
| SendReportPhp.Rows | api/send-seo-report.php:166-178 | one mail row per query row |
| SendReportPhp.Send | api/send-seo-report.php:22-136 | an OPTIONS preflight is answered 204 without a send; any other method but POST gives 405, no `website_id` gives 400, an unknown website or no report gives 404, none of them sending; otherwise the latest report by `report_date` is mailed, and a refused send is a 500 |
| SendReportPhp.EmailMatchesQueries | api/send-seo-report.php:48-100 | the mailed report is the newest by `report_date`; the keyword table has one row per keyword in query order, with its ranking and trend |
| SendReportPhp.CompetitorRowsExact | api/send-seo-report.php:80-97 | every row of the competitor-keyword query belongs to a keyword of one of the given competitors, and every keyword of each of them has its row |
| SendReportPhp.CompetitorRowsConcat | api/send-seo-report.php:80-97 | the rows come competitor by competitor, in the order of the competitors |
| SendReportPhp.CompetitorRowsOfOne | api/send-seo-report.php:88-92 | one competitor's rows are its keywords' rows, one each, in table order |
| SendReportPhp.CompetitorRowsCount | api/send-seo-report.php:88-93 | with distinct competitors there are exactly as many rows as the competitors have keywords, so each keyword appears once |
| SendReportPhp.CompetitorMailRowsExact | api/send-seo-report.php:80-178 | the mail's competitor table holds exactly the rows of the keywords of the website's competitors, each with its competitor's name, the keyword, its ranking and the trend from its previous ranking |
| KeywordTracking.LatestRanking | src/pages/KeywordTracking.tsx:172-176 | null for a missing or empty history, else the last point's ranking |
| KeywordTracking.RankingChange | src/pages/KeywordTracking.tsx:178-195 | null exactly with fewer than two points or a null ranking among the last two; otherwise up exactly when previous > latest, down exactly when previous < latest, same exactly with value 0 |
| KeywordTracking.ChangeRecoversLatest | src/pages/KeywordTracking.tsx:172-195 | wherever a change is shown, the latest ranking is shown and equals the previous one moved by the change |
| KeywordTracking.Validate | src/pages/KeywordTracking.tsx:84-94 | blank input is refused first; then a URL that would be a third distinct website is refused (checked on the trimmed URL, see Findings); anything else passes |
| KeywordTracking.NewTracking | src/pages/KeywordTracking.tsx:106-111 | the stored row has trimmed keyword and URL, and the name trimmed, or null when blank |
| KeywordTracking.AddKeepsLimit | src/pages/KeywordTracking.tsx:89-111 | an accepted tracking adds only its trimmed URL and keeps at most two distinct stored websites |
| KeywordTracking.AsWrittenKeepsLimit | src/pages/KeywordTracking.tsx:89-94 | the check as written never admits a third website either |
| KeywordTracking.UntrimmedUrlRefused | src/pages/KeywordTracking.tsx:89-94 | the check as written refuses " a.com" while a.com and b.com are tracked, although the stored row would be for a.com |
| KeywordTracking.TrackingTable.constructor | src/pages/KeywordTracking.tsx:104-111 | the table holds the given rows |
| KeywordTracking.TrackingTable.AddTracking | src/pages/KeywordTracking.tsx:83-127 | validation first, then the signed-in user, then one insert; the row is stored exactly when every step succeeds |
| KeywordTracking.LastOn | src/pages/KeywordTracking.tsx:204-210 | the last point of a history on a day, since later writes overwrite earlier ones; none exactly when no point falls on the day |
| KeywordTracking.PivotStep | src/pages/KeywordTracking.tsx:204-210 | recording one point sets its tracking's value on its day and changes nothing else |
| KeywordTracking.RecordPoint | src/pages/KeywordTracking.tsx:205-210 | adding one point keeps `allDates` distinct and equal to the days seen, and keeps `trackingsByDate` equal to the pivot of the points seen |
| KeywordTracking.RecordHistory | src/pages/KeywordTracking.tsx:204-211 | recording one history keeps the pivot invariant |
| KeywordTracking.Pivot | src/pages/KeywordTracking.tsx:203-212 | after all histories, in any dictionary order, `allDates` holds each day once and `trackingsByDate[day][id]` is the tracking's last ranking that day |
| KeywordTracking.ChartKeyNotDate | src/pages/KeywordTracking.tsx:219-222 | no series key is `date`, so a row's `date` property is never overwritten |
| KeywordTracking.RowValuesKeys | src/pages/KeywordTracking.tsx:221-224 | every tracking's series key is in each row, and no other key is |
| KeywordTracking.RowValuesLastWins | src/pages/KeywordTracking.tsx:221-224 | a key holds its tracking's value, unless a later tracking has the same key |
| KeywordTracking.LookupIsCell | src/pages/KeywordTracking.tsx:223 | `trackingsByDate[date]?.[id] ?? null` on the full pivot is the tracking's last ranking that day, or null |
| KeywordTracking.DataPoint | src/pages/KeywordTracking.tsx:219-225 | one row's values are the per-tracking cell values, written in tracking order |
| KeywordTracking.PrepareChartData | src/pages/KeywordTracking.tsx:198-227 | one row per day with a point, strictly ascending, each with the per-tracking values |
| WebsiteDetail.RankingChange | src/pages/WebsiteDetail.tsx:81-87 | a neutral `-` when either ranking is falsy; otherwise up exactly when previous - current > 0 and down exactly when it is < 0; green goes with up and red with down |
| WebsiteDetail.ChangeTextRoundTrip | src/pages/WebsiteDetail.tsx:81-87 | the badge text reads back as previous - current when both rankings are truthy, and as nothing otherwise |
| WebsiteDetail.SignedRoundTrip | src/pages/WebsiteDetail.tsx:84-85 | `+n` and `-n` read back as the signed number |
| AddWebsiteDialog.NewCompetitors | src/components/AddWebsiteDialog.tsx:68-72 | one competitor row per parsed URL, in order, under the new website, with no name |
| AddWebsiteDialog.TypedItemsBecomeRows | src/components/AddWebsiteDialog.tsx:52-57 | comma-separated items come back as rows in the same order; a blank input gives no row |
| AddWebsiteDialog.Submit | src/components/AddWebsiteDialog.tsx:21-93 | no user fails before any insert; a refused website insert stores nothing; a refused keyword insert keeps the website but inserts no competitor; blank lists are skipped |
| AddCompetitorDialog.NameOrNull | src/components/AddCompetitorDialog.tsx:40 | `competitorName \|\| null`: null exactly for the empty name, otherwise the name as typed |
| AddCompetitorDialog.Submit | src/components/AddCompetitorDialog.tsx:25-71 | a refused competitor insert stores nothing; otherwise a non-blank keyword list is inserted as one batch under the new competitor |
| Grouping.FindKey | src/components/RankingChart.tsx:23 | `acc[key]` exists exactly when some group has the key, and names that group |
| Grouping.Select | src/components/RankingChart.tsx:21-28 | never more points than the input |
| Grouping.SelectHasKey | src/components/RankingChart.tsx:23-26 | every selected point has the key |
| Grouping.SelectOne | src/components/RankingChart.tsx:23-26 | one point is kept exactly when it has the key |
| Grouping.SelectConcat | src/components/RankingChart.tsx:21-28 | selecting from `a + b` is selecting from `a` then from `b`, so a group keeps its points in input order |
| Grouping.GroupsOfExact | src/components/RankingChart.tsx:21-28 | the `reduce` gives distinct keys; every point's key has a group; each group holds exactly the points with its key, in input order, and is non-empty |
| Grouping.GroupBy | src/components/RankingChart.tsx:21-28 | the grouping loop computes exactly that grouping |
| Grouping.SeriesColour | src/components/RankingChart.tsx:65 | `colors[index % colors.length]` is a palette colour, and is the index's own colour below the palette length |
| Grouping.SeriesColourCycles | src/components/RankingChart.tsx:65 | the colour repeats with the palette's length as period, so with the identity below that length it is `colors[i mod n]` at every index |
| RankingChart.SeriesKey | src/components/RankingChart.tsx:22 | `keyword \|\| competitorName \|\| 'unknown'`: never empty, each empty or missing name falling through |
| RankingChart.ChartData | src/components/RankingChart.tsx:21-43 | no rows without data; otherwise the first group is the first point's key, with one row per point of that group, aligned by position across groups; a row's `date` is the first group's day there unless a group keyed `date` has a point there, whose ranking then takes its place |
| RankingChart.PositionRows | src/components/RankingChart.tsx:31-43 | row `i` starts from the first group's `i`-th date and holds every group's `i`-th ranking, with the groups' writes applied to its `date` |
| RankingChart.PositionValues | src/components/RankingChart.tsx:32-40 | each group contributes its ranking at the index, or nothing, and the `date` property ends as the last write to it |
| RankingChart.DateAfter | src/components/RankingChart.tsx:32-40 | the `date` property keeps the day when no group is keyed `date` |
| RankingChart.DateOverwritten | src/components/RankingChart.tsx:36-40 | with distinct keys, the group keyed `date` replaces the row's date by its ranking exactly when it has a point at that position |
| RankingChart.DateKeywordHidesDate | src/components/RankingChart.tsx:32-38 | for points `seo` (ranking 3) and `date` (ranking 7) on one day, row 0's date is the ranking 7 |
| RankingChart.FirstGroupIsFirstKey | src/components/RankingChart.tsx:31 | `Object.values(groupedData)[0]` is the group of the first point's key |
| RankingChart.GroupColour | src/components/RankingChart.tsx:45-51 | five colours, cycled by group index |
| RankingChart.GroupColourCycles | src/components/RankingChart.tsx:61-67 | group `i + 5` has group `i`'s colour |
| ComparisonChart.SeriesKeyNotDate | src/components/CompetitorComparisonChart.tsx:23 | every key holds ` - `, so no group key is `date` and no group overwrites a row's date |
| ComparisonChart.FirstIndex | src/components/CompetitorComparisonChart.tsx:41 | the first input point with the key on the date, or none exactly when there is none |
| ComparisonChart.FirstOnGroup | src/components/CompetitorComparisonChart.tsx:41 | `find` within a group finds the first input point with that key on that date |
| ComparisonChart.DistinctDates | src/components/CompetitorComparisonChart.tsx:32 | `new Set(dates)` holds each date of the data exactly once |
| ComparisonChart.ChartData | src/components/CompetitorComparisonChart.tsx:20-48 | exact grouping; one row per distinct date, strictly ascending; each row holds, per group, the ranking of the group's first point on that date or nothing |
| ComparisonChart.RowValues | src/components/CompetitorComparisonChart.tsx:40-45 | one value per group, each being the first point on the date |
| ComparisonChart.GroupColour | src/components/CompetitorComparisonChart.tsx:50-59 | eight colours, cycled by group index |
| ComparisonChart.GroupColourCycles | src/components/CompetitorComparisonChart.tsx:69-75 | group `i + 8` has group `i`'s colour |
| TrendAgreement.TrackingAgreesWithMail | src/pages/KeywordTracking.tsx:187-194 | where the tracking page shows a change, the mailed trend for the same two rankings points the same way |
| TrendAgreement.DetailAgreesWithMail | src/pages/WebsiteDetail.tsx:81-86 | for two non-zero rankings the website badge and the mailed trend point the same way |
| TrendAgreement.ZeroRankingDiffers | src/pages/WebsiteDetail.tsx:82 | a ranking of 0 is a change on the tracking page and in the mail, but nothing known on the website page |

## Left out

**Runtime and I/O:**

- Thrown client errors and network exceptions, beyond the ones that decide a response:
  - the model has no exception flow;
  - each store call's failure is an injected flag.
- Per-table read errors are not modelled. Only the reads whose errors the code inspects are: the website read, the scheduled tracking read and the report read. Unchecked reads are modelled as succeeding.
- The SMTP transport (PHPMailer, denomailer) is an injected `smtpOk`, and HTML markup is not modelled. The mail is a structured value with the same fields and tables.
- Row-level security is the injected `visible` predicate.
- The PHP `lastInsertId`, the store-assigned ids, the column default of `is_active` and `report_frequency` are injected parameters or not stored.
- The search provider is a function from request to response; the API key and network are left out.
- CORS headers: every endpoint answers an OPTIONS request before any other test, without reading or writing anything, and this is modelled as the `Preflight` response. The four Deno functions answer with 200 and an empty body. `ALLOW_CORS` is on in the PHP configuration, so both PHP endpoints answer with 204. The headers themselves are not modelled.

**Strings and dates:**

- `new URL(...)` is modelled by `RankResolver.Hostname` following the WHATWG URL parser's hostname path: the scheme, special and non-special schemes, `file:`, user information, the port range and lower-casing of special hosts. It leaves out:
  - the removal of tabs and newlines and of leading and trailing control characters and spaces;
  - percent-decoding of the host;
  - IPv4 numbers (`http://0x7f.1`) and IPv6 literals in brackets. The lemmas on plain hosts (`RankResolver.Plain`: letters, digits, `-`, `.`) therefore hold of the real parser only when the host's last label is neither all digits nor `0x…`; a host such as `1.2.3` is rewritten to IPv4 form there;
  - IDNA, Punycode and Unicode case mapping; only ASCII capitals are lower-cased.
- White space for `trim()` is ASCII white space, NO-BREAK SPACE, the BOM and the line terminators U+2028 and U+2029. The other Unicode space separators (category Zs, such as U+2003) are not modelled.
- Dates are day numbers and time is seconds. The `MM/dd` and `toLocaleDateString` formatting, the PHP `Y年m月d日` formatting and the string `sort()` of dates are modelled as ascending numeric order; for ISO dates that is the same order.

**Store failures:**

- Schema.Store.RotateRow: always succeeds. The TypeScript jobs do not look at the error of an update, so a failed update is skipped silently; in PHP, PDO's exception mode makes a failed statement end the request with a 500, keeping the statements before it.
- Schema.Store.AppendHistory: always succeeds, for the same reasons.
- Schema.Store.RefreshCompetitor: always succeeds, for the same reasons.
- GenerateReportPhp.Generate: a statement that throws part-way through the loops (a 500 that keeps the writes made so far) is not modelled; only the report insert can fail.
- ScheduledReport.ProcessWebsite: the errors of the row updates and history inserts are not inspected by the job, and are modelled as successes.

**Corrected rules used by the endpoints:**

- SendReportPhp.Send: the mail's trend column uses the corrected `TrendOf`; the code as written (`TrendAsWritten`) shows `↓` for a new ranking with no previous one (see Findings).
- SendReportPhp.RowOf: uses `TrendOf`, not the rule as written, for the same reason; so does `SendReportPhp.RowTrend`, which states it.
- KeywordTracking.TrackingTable.AddTracking: validates with the corrected limit test on the trimmed URL; the untrimmed test as written is `LimitReachedAsWritten` (see Findings).

**Client pages and charts:**

- The PHP report's `history` column is computed, in `SendReportPhp.Window`, but it is not rendered in the mail.
- KeywordTracking: `loadTrackings`, `handleDeleteTracking` and `handleFetchRanking` are not modelled. They are one-line store calls; the fetch they trigger is `RankResolver.HandleManual`.
- KeywordTracking.TrackingTable.AddTracking: the new row is appended at the end. The page's reload orders rows by `created_at` descending, and that order is not modelled; the two-website limit depends only on which URLs occur.
- Grouping.GroupBy: keys are strings compared by value. In the code `acc` is a plain object, so a keyword such as `constructor` or `toString` finds an inherited `Object.prototype` member, and `acc[key].push` throws; that crash is not modelled.
- Object key order: JavaScript lists integer-like keys first. The model takes insertion order, as the grouping code intends.
- `Object.entries(histories)` order is an arbitrary choice in `KeywordTracking.Pivot`, whose result is proved not to depend on it.

**Report selection and status values:**

- Schema.Latest: among reports with an equal ordering key, the model picks the first in table order. The database's tie order is unspecified.
- ScheduledReport.ResultOf: the error message of a failed website is not kept. Only success or failure is.
- RankResolver.EntryFor: an error entry keeps the provider status, not the message text.

## Findings

| source | as written | input that shows it | evidently intended | confidence | as-written member | corrected member |
|---|---|---|---|---|---|---|
| api/send-seo-report.php:152-155 | the trend compares nullable rankings with `<` and `>`. PHP 8 converts a NULL operand and the number to bool, so a first ranking with no previous one compares as larger | current_ranking 8, previous_ranking NULL shows `↓` in red | no change (`→` in gray) when a ranking is missing, as the client pages do | medium; not executed (PDO may return the numbers as strings, which gives the same result here) | SendReportPhp.NullPreviousShowsDown | SendReportPhp.TrendOf |
| src/pages/KeywordTracking.tsx:89-94 | the two-website limit looks up the URL as typed, but the row stores the trimmed URL | a.com and b.com tracked, new URL " a.com" is refused with the limit message | compare the trimmed URL, which would be stored under an already tracked website | high; not executed | KeywordTracking.UntrimmedUrlRefused | KeywordTracking.Validate |
