# geo_job_sentinel in Dafny

A model of the logic at the core of geo_job_sentinel, a job-lead scanner for
GIS roles. The scanner does five things:

- It builds a Google-style Boolean query from a list of ATS domains and a list
  of title keywords.
- It normalises the provider's raw search results into `JobPosting` records.
  Each field comes from a fallback chain of keys and ends in a sentinel
  default. Each posting gets a remote / hybrid / onsite / unknown
  classification from marker words.
- Within one scan, it keeps the first posting of each id.
- It formats Discord messages: a card per posting, with category, freshness,
  competition and location-type labels, and a summary of the scan's
  statistics.
- Its bot commands edit the ATS domain list and the GIS title keywords.

One Dafny module stands for each source file:

| file | module | source |
|---|---|---|
| `text.dfy` | `Text` | The pieces of Python's `str` that the code relies on: ASCII `lower()`, substring `in`, `sep.join`, `strip()`, `str(int)`. |
| `models.dfy` | `Models` | `geo_job_sentinel/models.py` |
| `query_builder.dfy` | `QueryBuilder` | `geo_job_sentinel/query_builder.py` |
| `pipeline.dfy` | `Pipeline` | `geo_job_sentinel/search/pipeline.py` |
| `webhook.dfy` | `Webhook` | `geo_job_sentinel/discord_integration/webhook.py` |
| `bot.dfy` | `Bot` | `geo_job_sentinel/discord_integration/bot.py` |

Pure code is modelled as functions with lemmas about them. The three stateful
pieces are modelled as methods proved against specification functions:

- The scan loop is `Pipeline.RunGisScan`. It keeps a `seenIds` set beside the
  `jobs` list, as the source does. It is proved equal to `Dedup` applied to the
  normalised input, and `Dedup`'s properties are lemmas.
- The summary loop is `Webhook.SummaryLines`, proved equal to `SummaryLineList`.
- The bot commands are methods of two classes, `AtsList` and `QueryConfig`.
  Each class holds the loaded configuration as a field, which the methods
  update in place.

Inputs that the source reads from the outside world become parameters:

- The provider's answer to the query is `rawResults`.
- `datetime.utcnow()` is a sequence of ISO strings, one reading per raw item.

Raw result items are maps from string keys to string values. Python's
`item.get(k) or default` is modelled by `Present`/`Field`/`Or`, so a missing key
and an empty string both fall through to the next choice.

Two facts about the code shape the model:

- `company` comes only from the `source` key (pipeline.py:17). A missing or
  empty `source` gives "Unknown Company"; no `company` key is read.
- pipeline.py defines only the single-source `run_gis_scan`, which
  deduplicates within one run. scripts/run_scan_once.py:3 imports a
  `run_full_scan` that pipeline.py does not define, so no merging across
  sources or runs exists to model.

Some behaviours of the code are worth knowing, and each is proved:

- The `"remote" not in location.lower()` test of the comma rule can never fail
  once reached (`Models.LocationRemoteCheckRedundant`).
- Markers can straddle the space that joins two fields:
  - in the classifier, a title ending in "work" and a description starting
    with "from home" match a remote marker (`Models.MarkerAcrossFields`);
  - in the category label, a company whose name starts with "City" matches
    " city" (`Webhook.CompanyCityIsGovernment`).
- The freshness marker "yesterday" adds nothing to "day"
  (`Webhook.DayMarkerIsDay`).
- `add_keyword` takes a lone `"` as already quoted (`Bot.LoneQuote`). It wraps
  `"abc` once more, giving `""abc"` (`Bot.HalfQuoted`).

The job card text is modelled as its lines joined by newlines
(`Webhook.JobCardLines`), which is the text the f-string of `send_job_card`
produces. The blank entries in the list give the card's empty lines.

## Model

| member | source | states |
|---|---|---|
| Text.Lower | geo_job_sentinel/models.py:33 | `str.lower()` on ASCII: same length, each character lower-cased. |
| Text.Join | geo_job_sentinel/query_builder.py:13-14 | `sep.join(parts)`: the parts in order with the separator between neighbours; JoinContainsPart proves every part occurs in the result. |
| Text.StripChars | geo_job_sentinel/discord_integration/bot.py:76 | `s.strip(chars)`: a slice of s with only dropped characters outside it, neither starting nor ending with one. |
| Text.Strip | geo_job_sentinel/discord_integration/bot.py:45 | `s.strip()`: StripChars over the characters `str.isspace()` accepts. StripIgnoresPadding proves whitespace around a string does not change the result. |
| Text.StripIgnoresPadding | geo_job_sentinel/discord_integration/bot.py:45 | Whitespace added on either side of a string does not change its `strip()`. |
| Text.StripIdempotent | geo_job_sentinel/discord_integration/bot.py:45 | Stripping an already stripped domain changes nothing: `strip()` is idempotent. |
| Text.IntToString | geo_job_sentinel/discord_integration/webhook.py:91-93 | `str(i)` of an integer in decimal, with a minus sign when negative. |
| Text.IntToStringValue | geo_job_sentinel/discord_integration/webhook.py:91-93 | `str(i)` reads back as `i`: a non-negative integer's digits denote it, and a negative one is "-" followed by the digits of its magnitude. |
| Text.NatToStringValue | geo_job_sentinel/discord_integration/webhook.py:100 | `str(n)` of a count consists of decimal digits only, and they denote n. |
| Models.NewJobPosting | geo_job_sentinel/models.py:16-29 | A record built from its required fields has category "General GIS", is_new_company false, location type UNKNOWN, no raw source, and the given clock reading as discovered_at. All other fields are the arguments. |
| Models.JoinedTextIsJoin | geo_job_sentinel/models.py:33 | The text the markers are searched in is the space-join of title, description and location, lower-cased. |
| Models.ClassifyLocationType | geo_job_sentinel/models.py:32-54 | The decision list in source order. Its contract: HYBRID exactly when a hybrid marker occurs, and REMOTE only when a remote marker occurs. ClassifyOutcomes gives every outcome in closed form. |
| Models.ClassifyOutcomes | geo_job_sentinel/models.py:32-54 | Each outcome holds exactly under its own condition, in both directions. HYBRID iff a hybrid marker occurs. REMOTE iff a remote marker occurs and no hybrid marker does. ONSITE iff neither occurs and either an onsite marker occurs or the location holds a comma. UNKNOWN iff none of these holds. |
| Models.LocationInJoinedText | geo_job_sentinel/models.py:33 | Whatever occurs in the lower-cased location also occurs in the searched text. |
| Models.LocationRemoteCheckRedundant | geo_job_sentinel/models.py:51-52 | When no remote marker occurs, "remote" does not occur in the lower-cased location, so the second conjunct of the comma rule always holds. |
| Models.MarkerAcrossFields | geo_job_sentinel/models.py:33-42 | A title ending in "work" followed by a description starting with "from home" gives REMOTE or HYBRID: the marker straddles the joining space. |
| Models.ExampleRemoteAndHybrid | geo_job_sentinel/models.py:39-41 | "Remote GIS Analyst" with "hybrid flexible schedule" classifies as HYBRID. |
| Models.ExampleRemote | geo_job_sentinel/models.py:39-42 | "Remote Analyst" alone classifies as REMOTE. |
| Models.ExampleCityState | geo_job_sentinel/models.py:50-52 | A location "Chicago, IL" with no markers classifies as ONSITE. |
| Models.ExampleNoClue | geo_job_sentinel/models.py:51-54 | A location "Somewhere" with no markers and no comma classifies as UNKNOWN. |
| QueryBuilder.BuildBooleanQuery | geo_job_sentinel/query_builder.py:6-16 | "(" + the site terms joined by " OR " + ") AND (" + the keywords joined by " OR " + ")". Its contract: the query is at least 9 characters, opening with "(" and closing with ")". The lemmas below give its contents. |
| QueryBuilder.SiteTerms | geo_job_sentinel/query_builder.py:13 | One term per domain, in input order, each being "site:" followed by the domain. |
| QueryBuilder.QueryMentionsEveryTerm | geo_job_sentinel/query_builder.py:13-16 | Every domain occurs in the query as "site:" plus the domain. Every keyword occurs verbatim, with no quoting added. |
| QueryBuilder.EmptyClauses | geo_job_sentinel/query_builder.py:13-16 | No domains gives a query starting "() AND (". No keywords gives a query ending in "()". |
| QueryBuilder.SingleTerms | geo_job_sentinel/query_builder.py:13-16 | One domain and one keyword give "(site:d) AND (k)", with no " OR ". |
| QueryBuilder.AppendDomain | geo_job_sentinel/query_builder.py:13-16 | One more domain extends the domain clause by " OR site:" plus the domain and leaves the rest of the query unchanged. |
| QueryBuilder.AppendKeyword | geo_job_sentinel/query_builder.py:14-16 | One more keyword extends the keyword clause by " OR " plus the keyword and leaves the rest of the query unchanged. |
| QueryBuilder.TwoTerms | geo_job_sentinel/query_builder.py:9-16 | Two domains and two keywords give the shape of the documented example: "(site:d1 OR site:d2) AND (k1 OR k2)". |
| Pipeline.NormalizeResult | geo_job_sentinel/search/pipeline.py:12-32 | One raw item as a JobPosting. Its contract: id, title, company and location are never empty; the source, raw source and discovered_at are the arguments. NormalizedFields gives every field. |
| Pipeline.NormalizedFields | geo_job_sentinel/search/pipeline.py:12-32 | Where each field comes from. title is "title", else "Unknown title". url is "link", then "url", else "". company is only "source", else "Unknown Company". location is "location", then "city", else "Unknown". The id is the url when non-empty, else title + "-" + clock reading, so id, title, company and location are never empty. The location type is the classifier applied to the defaulted title, snippet and location. The source is the argument and the raw source is the item. |
| Pipeline.NormalizeEmptyItem | geo_job_sentinel/search/pipeline.py:12-32 | An empty item gets every sentinel, and the id "Unknown title-" followed by the clock reading. |
| Pipeline.NormalizeAll | geo_job_sentinel/search/pipeline.py:53-54 | One posting per raw item, the k-th being the k-th item normalised with the k-th clock reading. |
| Pipeline.Dedup | geo_job_sentinel/search/pipeline.py:50-58 | The kept jobs are no more than the input, have exactly the input's set of ids, and no two of them share an id. |
| Pipeline.DedupStep | geo_job_sentinel/search/pipeline.py:55-58 | One more job is appended exactly when its id has not been seen in the input so far. Otherwise nothing changes. |
| Pipeline.KeepIfNew | geo_job_sentinel/search/pipeline.py:53-58 | One loop step: the kept jobs for a prefix one longer grow by the next job exactly when its id is not among the kept ids, and the seen-id set grows by that id. |
| Pipeline.DedupKeepsFirstOccurrences | geo_job_sentinel/search/pipeline.py:53-58 | Every kept job is the first job in the input that carries its id. |
| Pipeline.DedupKeepsInputOrder | geo_job_sentinel/search/pipeline.py:53-58 | Kept jobs stand in the order of their first occurrences in the input. |
| Pipeline.DedupOfDistinct | geo_job_sentinel/search/pipeline.py:53-58 | An input whose ids are already distinct passes through unchanged. |
| Pipeline.DedupIdempotent | geo_job_sentinel/search/pipeline.py:53-58 | Running the dedup on its own output returns that output. |
| Pipeline.RunGisScan | geo_job_sentinel/search/pipeline.py:35-67 | The query is built from the ATS domains and the GIS title keywords, with empty defaults for missing configuration. The jobs are the first posting of each id among the normalised results, in input order, with distinct ids and no id lost. new_jobs is the number of jobs. total_scanned is the number of raw results. The two plus duplicates_filtered balance, and duplicates_filtered is non-negative. by_source holds only "Serper/Google", mapped to the number of jobs. |
| Webhook.LocationTypeEmoji | geo_job_sentinel/discord_integration/webhook.py:12-19 | The "Type" label of each of the four location types; LocationTypeEmojiInjective proves them distinct. |
| Webhook.LocationTypeEmojiInjective | geo_job_sentinel/discord_integration/webhook.py:12-19 | The four location types get four different labels. |
| Webhook.CategoryLabel | geo_job_sentinel/discord_integration/webhook.py:22-32 | Government when a government marker occurs in the lower-cased space-join of title, company and snippet, or a URL marker in the lower-cased URL; otherwise General GIS. Its contract: the label is one of the two. |
| Webhook.CompanyCityIsGovernment | geo_job_sentinel/discord_integration/webhook.py:22-30 | A company whose lower-cased name starts with "city" gives the Government label, because the joining space completes " city". |
| Webhook.CountyInUrlIsGovernment | geo_job_sentinel/discord_integration/webhook.py:26-30 | "county" anywhere in the lower-cased URL gives the Government label. No leading space is needed. |
| Webhook.GovUrlIsGovernment | geo_job_sentinel/discord_integration/webhook.py:26-30 | ".gov" anywhere in the lower-cased URL gives the Government label. |
| Webhook.CategoryOutcomes | geo_job_sentinel/discord_integration/webhook.py:22-32 | Both outcomes in closed form, in both directions: General GIS iff no text marker occurs in the joined text and no URL marker in the lower-cased URL; Government iff one does. |
| Webhook.FreshnessLabel | geo_job_sentinel/discord_integration/webhook.py:35-46 | The freshness label from the lower-cased "date" of the raw result. Its contract: one of Fresh, Standard and Older; FreshnessOutcomes gives each in closed form. |
| Webhook.FreshnessOutcomes | geo_job_sentinel/discord_integration/webhook.py:35-46 | Each label holds exactly under its own condition. Fresh iff the date text contains "hour", "minute" or "today". Older iff no fresh marker, no "day", and a non-empty date text. Standard otherwise. |
| Webhook.DayMarkerIsDay | geo_job_sentinel/discord_integration/webhook.py:42-43 | The day-marker test holds exactly when "day" occurs: "yesterday" adds nothing. |
| Webhook.TodayIsFresh | geo_job_sentinel/discord_integration/webhook.py:40-43 | A date text containing "today" is Fresh, although it also contains "day". |
| Webhook.NoDateIsStandard | geo_job_sentinel/discord_integration/webhook.py:36-46 | No raw source, or no "date" key in it, gives Standard. |
| Webhook.CompetitionLabel | geo_job_sentinel/discord_integration/webhook.py:49-53 | Medium for REMOTE and HYBRID postings, Low otherwise. Its contract: the label is one of the two. |
| Webhook.CompetitionOfNormalized | geo_job_sentinel/discord_integration/webhook.py:49-53 | For a normalised posting, the competition label is Medium exactly when its searched text holds a remote or a hybrid marker, that is, when the location type is REMOTE or HYBRID. |
| Webhook.SnippetPreview | geo_job_sentinel/discord_integration/webhook.py:63 | The card snippet is a prefix of the snippet, at most 280 characters long, followed by "...". A snippet of at most 280 characters is shown whole. |
| Webhook.JobCardLines | geo_job_sentinel/discord_integration/webhook.py:61-72 | The 19 lines of the card in order: bold title, snippet preview, a blank line, then the seven heading and value pairs, a blank line and the link. Its contract: 19 lines, with the blank lines at positions 2 and 17. |
| Webhook.JobCardContent | geo_job_sentinel/discord_integration/webhook.py:61-72 | The card text: the card lines joined by newlines. CardShowsEachLine, JobCardShowsFields and JobCardShowsLabels state what it shows. |
| Webhook.CardShowsEachLine | geo_job_sentinel/discord_integration/webhook.py:61-72 | Every line of the card occurs in the card text. |
| Webhook.JobCardShowsFields | geo_job_sentinel/discord_integration/webhook.py:61-72 | The card text shows the snippet preview, the company, the location, the source and the URL. |
| Webhook.JobCardShowsLabels | geo_job_sentinel/discord_integration/webhook.py:61-72 | The card text shows the category, freshness, competition and location-type labels. |
| Webhook.SourceLines | geo_job_sentinel/discord_integration/webhook.py:99-100 | One "- source: count" line per by_source entry, in order. |
| Webhook.SummaryLineList | geo_job_sentinel/discord_integration/webhook.py:89-100 | The summary lines: the four header lines, then, when by_source is non-empty, "Jobs by Source:" and one line per entry. SummaryShape states its shape. |
| Webhook.SummaryShape | geo_job_sentinel/discord_integration/webhook.py:89-100 | The summary has 4 lines when by_source is missing or empty. Otherwise it has 5 + the number of entries: the header, then "Jobs by Source:", then one line per entry, in order. |
| Webhook.SummaryDefaults | geo_job_sentinel/discord_integration/webhook.py:89-94 | Without statistics, new_jobs and total_scanned default to the number of jobs and duplicates_filtered defaults to 0. |
| Webhook.ScanSummary | geo_job_sentinel/discord_integration/webhook.py:89-100 | The summary of a scan's statistics has six lines. It reports the number of jobs as new jobs, and ends with "- Serper/Google: " followed by that number. |
| Webhook.SummaryTextShowsEachLine | geo_job_sentinel/discord_integration/webhook.py:104 | Every summary line occurs in the message text, which is the lines joined by newlines. |
| Webhook.SummaryLines | geo_job_sentinel/discord_integration/webhook.py:88-100 | The loop that appends to the summary lines produces exactly the lines whose shape SummaryShape states: the header, then, when by_source is non-empty, the heading and one line per entry, in order. |
| Bot.AddedAts | geo_job_sentinel/discord_integration/bot.py:45-51 | The ATS list after `add_ats`. Its contract: the stripped domain is in it, the old list is a prefix of it, and it is at most one entry longer. AddAtsEffect gives it exactly. |
| Bot.AtsList.AddAts | geo_job_sentinel/discord_integration/bot.py:42-53 | The list is saved exactly when the stripped domain was absent. The new list is the stripped domain appended to the old list, or the old list when the domain was present. |
| Bot.AddAtsEffect | geo_job_sentinel/discord_integration/bot.py:45-53 | A present domain leaves the list unchanged. A new one is appended at the end, stripped: the length grows by one and earlier entries are unchanged. Either way the stripped domain is then in the list. |
| Bot.AddAtsIdempotent | geo_job_sentinel/discord_integration/bot.py:45-51 | Adding the same domain twice is adding it once. |
| Bot.AddAtsIgnoresWhitespace | geo_job_sentinel/discord_integration/bot.py:45-47 | Whitespace padding on either side of the argument (any characters `str.isspace()` accepts) leaves the result unchanged, because the argument is stripped before the membership test. |
| Bot.AddAtsKeepsNoDuplicates | geo_job_sentinel/discord_integration/bot.py:47-51 | A list with no repeated domain keeps that property. |
| Bot.AddedAtsInQuery | geo_job_sentinel/discord_integration/bot.py:45-53 | After the command, the scan's query names "site:" plus the stripped domain. |
| Bot.AtsList.ListAts | geo_job_sentinel/discord_integration/bot.py:55-60 | The `list_ats` reply: "Configured ATS domains (n): " followed by the preview. |
| Bot.MoreSuffix | geo_job_sentinel/discord_integration/bot.py:59 | The " … (+k more)" tail; MoreSuffixShape states when it appears and what it counts. |
| Bot.AtsPreview | geo_job_sentinel/discord_integration/bot.py:58-59 | The first twenty domains joined by ", ", then the tail; PreviewNamesFirstTwenty and ShortListShownWhole state what it shows. |
| Bot.MoreSuffixShape | geo_job_sentinel/discord_integration/bot.py:59 | The " … (+k more)" tail appears exactly when there are more than 20 domains, with k the number left out. |
| Bot.PreviewNamesFirstTwenty | geo_job_sentinel/discord_integration/bot.py:58-59 | Each of the first 20 domains occurs in the preview. |
| Bot.ShortListShownWhole | geo_job_sentinel/discord_integration/bot.py:58-59 | Up to 20 domains are shown whole, joined by ", ", with no tail. |
| Bot.QuoteKeyword | geo_job_sentinel/discord_integration/bot.py:71-76 | The keyword as stored and as displayed. Its contract: the stored form is always quoted. QuoteKeywordShape gives both parts. |
| Bot.QuoteKeywordShape | geo_job_sentinel/discord_integration/bot.py:71-76 | The stored keyword always starts and ends with a double quote. An unquoted keyword gets one quote on each side and is displayed as given. A quoted one is stored as given, and displayed as the slice of it left once every leading and trailing `"` is removed: only quotes lie outside the slice, and the slice neither starts nor ends with one. |
| Bot.QuoteKeywordIdempotent | geo_job_sentinel/discord_integration/bot.py:72-76 | Quoting a stored keyword again leaves it unchanged. |
| Bot.LoneQuote | geo_job_sentinel/discord_integration/bot.py:72-76 | A lone `"` counts as quoted: it is stored as it is and displayed as "". |
| Bot.HalfQuoted | geo_job_sentinel/discord_integration/bot.py:72-74 | A keyword with only an opening quote is wrapped once more: `"abc` becomes `""abc"`. |
| Bot.AddedKeyword | geo_job_sentinel/discord_integration/bot.py:67-82 | The configuration after `add_keyword`. Its contract: the quoted keyword is among the GIS title keywords. AddKeywordTitles and AddKeywordTouchesOnlyTitles give it exactly. |
| Bot.QueryConfig.AddKeyword | geo_job_sentinel/discord_integration/bot.py:62-84 | The configuration is saved exactly when the quoted keyword was not among the GIS title keywords. The display text is the keyword's display form. The new configuration is the old one with the quoted keyword appended to the GIS title keywords, with the family and the list created when missing. |
| Bot.AddKeywordTouchesOnlyTitles | geo_job_sentinel/discord_integration/bot.py:67-69 | Every other query family, and every other setting of "gis_default", keeps its presence and its value. |
| Bot.AddKeywordTitles | geo_job_sentinel/discord_integration/bot.py:78-82 | The title keywords are unchanged when the quoted keyword was present. Otherwise the quoted keyword is appended at the end. It is present afterwards either way. |
| Bot.AddKeywordIdempotent | geo_job_sentinel/discord_integration/bot.py:78-82 | Adding the same keyword twice is adding it once. |
| Bot.AddedKeywordInQuery | geo_job_sentinel/discord_integration/bot.py:78-84 | After the command, the scan's query holds the quoted keyword verbatim. |

## Left out

- The search providers. The Serper and Twitter HTTP clients are not part of
  this model. The scan receives the provider's answer as `rawResults`, so the
  `num=50` request size and the provider's clamps are not modelled.
- `config_loader.py` is not part of this model. It holds the environment
  variables, `.env` and JSON file reads. The scan takes the ATS domains and
  the query configuration as parameters.
- The scheduler and `scripts/run_scan_once.py` are not part of this model. The
  script imports a `run_full_scan` that the pipeline does not define, and no
  cross-source merger exists in the code.
- Everything Discord-side is left out because it is I/O:
  - the webhook POSTs and the webhook-URL checks;
  - the `username` field of the payloads;
  - bot construction, command registration, permission checks and
    `run_in_executor`;
  - the reply texts of `add_ats` and `add_keyword`;
  - the `list_keywords`, `scan_now` and `config` commands, which only read
    and forward.
- JSON load and save are left out. Each command's loaded value is the field
  of an `AtsList` or `QueryConfig` object, and saving is the update of that
  field. When `add_keyword` finds the keyword already present, the two
  `setdefault` calls (bot.py:68-69) found existing entries and changed
  nothing, so the configuration is unchanged, as in the model.
- The clock is a parameter. The source reads `datetime.utcnow()` once per
  result for the `discovered_at` default (models.py:28). When the result has
  no URL, it reads it once more for the id (pipeline.py:23). The model uses
  one reading, as ISO text, for both.
- `lower()` is modelled on ASCII letters only. Python also lower-cases
  non-ASCII letters.
- Raw items hold string values only. Values of other JSON types, and the
  `str(...)` conversion of the "date" value, are not modelled.
- The query configuration is modelled as lists of strings only. Families or
  settings of other JSON shapes are not modelled.
- `None` arguments to the classifier are not modelled, because strings are
  never absent in the model. This also covers the `or ""` guards at
  models.py:33.
- The statistics passed to the summary are integers. `by_source` is a
  sequence of pairs in the dictionary's insertion order, and unique keys are
  not enforced.
- Emoji and the other label glyphs are opaque string constants, compared
  only by their code points.
