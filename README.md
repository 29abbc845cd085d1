# Company-information scraper, modelled in Dafny

This project models the core of a company-information scraper and proves properties of the model. The scraper is a small state machine.

- **`scrape_website`** reads pages of a company's web site and follows keyword links.
- **`search_google`** fetches the pages a web search returns.
- **`extract_info`** asks a language model to fill in a five-field record (name, location, products or services, overview, target clients) and a confidence per field.

Three routers join the steps into a graph that starts at `scrape_website`. `scrape` runs the graph and raises if `error` is set at the end.

Around the state machine sit supporting components:
- the pydantic extraction record and its completeness queries;
- field validators;
- per-API and per-session metrics;
- a fixed-window rate limiter;
- a retry decorator with capped exponential back-off.

Network fetches, the search provider, the language model, `json.loads` and `urljoin` are not executed. They are inputs.

- **Graph run.** The environment (`LangGraphScraper.Env`) gives the outcome of every fetch, search and model call, indexed by step number. `urljoin` is an uninterpreted function argument that may raise.
- **Clocks and jitter.** The clock readings of the rate limiter and session metrics are arguments, and so are the jitter draws of the retry loop.
- **Sleeps.** Sleeps are returned as a list of durations.
- **Numbers.** Confidences, durations and delays are `real`.

Modules:

| file | module | models |
|---|---|---|
| wrappers.dfy | Wrappers | Option, Result, Outcome |
| seqs.dfy | Seqs | distinctness, the "not in" filter |
| text.dfy | Text | substring, whitespace, ASCII lower-casing, `str.join` |
| langgraph_scraper.dfy | LangGraphScraper | session record, the three steps, routers and graph run as functions |
| scraper_session.dfy | ScraperSession | the same steps as methods that update a record in place, proved equal to the functions |
| scraper_properties.dfy | ScraperProperties | invariants and per-step properties |
| scraper_runs.dfy | ScraperRuns | routers, termination, divergence, whole-run scenarios |
| averages.dfy | Averages | mean of a confidence mapping |
| company_info.dfy | CompanyInfoModel | `src/models/company_info.py` |
| scraper_models.dfy | ScraperModels | `src/models/scraper_models.py` |
| metrics.dfy | Metrics | `src/utils/metrics.py` |
| rate_limiter.dfy | RateLimiting | `src/utils/rate_limiter.py` |
| retry.dfy | Retry | `src/utils/retry.py` |

## Behaviour of the code worth knowing

- **Weaker confidence still wins.** `extract_info` overwrites every field for which the reply has a truthy value, whatever the field's old value and confidence (src/scraper/langgraph_scraper.py:235-241; `ScraperProperties.ExtractInfoOverwrites`). The comment there mentions only non-empty fields. "Good confidence" is tested only by the routers, with a threshold of 0.7 (src/scraper/langgraph_scraper.py:254-259).
- **`error` does not stop the graph.** `extract_router` never reads `error`. Only `scrape` acts on it, after the graph has ended (`ScraperRuns.ExtractRouterIgnoresError`).
- **Bad replies do not stop the run.** A failing model call or a reply that `json.loads` rejects only sets `error` (src/scraper/langgraph_scraper.py:248-249). The routers then carry on as before (`ScraperProperties.ExtractInfoRefusals`).
- **`KeyError` leaves a partial update.** A reply can have `confidence_scores` but no entry for a field it fills. Then `KeyError` is raised after that field's value was written. The earlier fields stay merged, the error is set and `sources` is not extended (`ScraperProperties.MergeFieldsFailure`, `ScraperProperties.ExtractInfoMerges`).
- **A search outage never ends the graph.** A search call that raises is caught at src/scraper/langgraph_scraper.py:164-165, which skips the increment of `search_tries` at line 162. When searches keep failing and extraction keeps failing, the graph alternates between `search_google` and `extract_info` until the library's recursion limit stops it (`ScraperRuns.ScrapeLoopsDuringSearchOutage`). When every search answers, the run ends within 22 node executions (`ScraperRuns.ScrapeTerminates`).
- **A raising `urljoin` keeps the page.** In `scrape_website` the page is stored and its URL appended (lines 107-108) before the links are extracted (line 111). When `urljoin` raises on a link, the handler at line 120 switches to google mode, with the page kept and `navigation_tries` not incremented (`ScraperProperties.ScrapeWebsiteStores`).
- **`get_missing_fields` includes `company_name`.** It checks all five fields, the name among them, for being unset or below 0.75 (src/models/company_info.py:66-81; `CompanyInfoModel.CompanyInfo.MissingShape`).
- **A test that contradicts the code.** `tests/test_company_info.py:38-46` expects `is_complete()` to be true for a record without confidence scores. The code takes a missing confidence as 0.0, below 0.75, and returns false (`CompanyInfoModel.CompanyInfo.NoScoresIncomplete`).
- **Visited URLs can repeat.** When a page offers no unvisited link, `current_url` stays the same, and the next visit appends it to `visited_urls` again (`ScraperProperties.RevisitAppendsAgain`).
- **The rate limiter's window is fixed.** A window is not rolling: the count is cleared, and a fresh window starts, once 60 seconds have passed since the last window started (src/utils/rate_limiter.py:31-36).
- **The unwired router.** `router` (src/scraper/langgraph_scraper.py:252-278) is never added to the graph. It is modelled as `LangGraphScraper.Router` and only compared with `extract_router`.

## Model

| member | source | states |
|---|---|---|
| LangGraphScraper.InitialState | src/scraper/langgraph_scraper.py:48-69 | `create_initial_state`: the record a run starts from; its properties are `ScraperProperties.InitialStateInv` and `ScraperProperties.InitialFalsyFields` |
| ScraperSession.Session.constructor | src/scraper/langgraph_scraper.py:48-69 | the new session record is the initial state: counters 0, website mode, current URL the seed, empty visited list, content and sources, name filled in, no error |
| ScraperProperties.InitialStateInv | src/scraper/langgraph_scraper.py:48-69 | the initial record satisfies the session invariant |
| ScraperProperties.AddKeyInv | src/scraper/langgraph_scraper.py:107 | storing a page keeps the content-key order duplicate-free, matching the content keys, and only appends to it |
| ScraperSession.Session.StorePage | src/scraper/langgraph_scraper.py:107 | `content[url] = text` stores the text and appends the key to the key order only when it is new |
| Text.Lower | src/scraper/langgraph_scraper.py:79-80 | `str.lower()` on hrefs and anchor texts, for the ASCII letters |
| Text.IsWhitespace | src/scraper/langgraph_scraper.py:104 | the characters `str.strip()` removes, code point by code point as `str.isspace` defines them; `Text.IsBlank` is `not content.strip()` |
| LangGraphScraper.ExtractLinks | src/scraper/langgraph_scraper.py:71-85 | `extract_links`: the kept, joined links in document order, or a raise from `urljoin`; characterised by `ScraperProperties.ExtractLinksMembers`, `ExtractLinksAppend` and `ExtractLinksSnoc` |
| ScraperProperties.ExtractLinksMembers | src/scraper/langgraph_scraper.py:71-85 | `extract_links` raises exactly when `urljoin` raises on some relevant anchor; otherwise a URL is among the links exactly when some relevant anchor's joined, lower-cased href equals it and contains the base URL, and every link contains the base URL |
| ScraperProperties.ExtractLinksAppend | src/scraper/langgraph_scraper.py:78-84 | the links of a concatenation of anchor lists are the links of the first list followed by those of the second (document order), and a raise in either part is a raise |
| ScraperProperties.ExtractLinksSnoc | src/scraper/langgraph_scraper.py:78-84 | one more anchor appends its resolved URL exactly when it is kept, repeats included, and makes the call raise when `urljoin` raises on it |
| Seqs.NotIn | src/scraper/langgraph_scraper.py:112 | the unvisited-links filter keeps exactly the elements not excluded and never lengthens the list |
| Seqs.NotInDistinct | src/scraper/langgraph_scraper.py:244-246 | filtering a duplicate-free key list keeps it duplicate-free |
| ScraperProperties.NotInHead | src/scraper/langgraph_scraper.py:112-115 | the head of the filtered list is the first link not yet visited |
| LangGraphScraper.ScrapeWebsiteStep | src/scraper/langgraph_scraper.py:87-122 | `scrape_website` on values; characterised by `ScraperProperties.ScrapeWebsiteDegrades` and `ScrapeWebsiteStores`, and performed in place by `ScraperSession.Session.ScrapeWebsite` |
| ScraperProperties.ScrapeWebsiteDegrades | src/scraper/langgraph_scraper.py:89-120 | at the cap of 5, on a failed fetch or on blank text, the step only sets google mode |
| ScraperProperties.ScrapeWebsiteStores | src/scraper/langgraph_scraper.py:107-120 | a good page is stored under the current URL and the URL is appended to the visited list; when no link makes `urljoin` raise, the counter rises by exactly 1 and the next URL is the first unvisited extracted link or unchanged if none; when one does, the mode becomes google and counter and current URL stay; nothing else changes |
| ScraperProperties.RevisitAppendsAgain | src/scraper/langgraph_scraper.py:107-120 | two good visits, the first offering no new link or raising in `urljoin`, append the same URL twice, so the visited list is not duplicate-free |
| ScraperSession.Session.ScrapeWebsite | src/scraper/langgraph_scraper.py:87-122 | the in-place step leaves the record equal to the `scrape_website` step function applied to the old record |
| ScraperProperties.ScrapeWebsiteInv | src/scraper/langgraph_scraper.py:87-122 | the step keeps the invariant, and counters, lists and mode only move forward |
| LangGraphScraper.SearchQuery | src/scraper/langgraph_scraper.py:131-139 | the query `search_google` sends; stated exactly by `ScraperProperties.SearchQueryShape` |
| LangGraphScraper.FetchHits | src/scraper/langgraph_scraper.py:143-160 | the loop over the search results; its effect is stated by `ScraperProperties.FetchHitsGrows`, `FetchHitsNew`, `FetchHitsStored` and `FetchHitsCovers` |
| LangGraphScraper.SearchGoogleStep | src/scraper/langgraph_scraper.py:124-167 | `search_google` on values; characterised by `ScraperProperties.SearchGoogleEffect`, and performed in place by `ScraperSession.Session.SearchGoogle` |
| ScraperProperties.FalsyFieldsMembers | src/scraper/langgraph_scraper.py:131-134 | the missing-field list names exactly the fields with a falsy value, each from the record's field list |
| ScraperProperties.SearchQueryShape | src/scraper/langgraph_scraper.py:131-139 | the query is "<name> company information overview" when every field is truthy, otherwise "<name> " followed by the falsy field names joined by spaces, in record order |
| ScraperProperties.InitialFalsyFields | src/scraper/langgraph_scraper.py:131-134 | with a non-empty company name, the initial record's falsy fields are the four non-name fields in order |
| ScraperProperties.FirstQuery | src/scraper/langgraph_scraper.py:131-139 | the first search for a session asks for the four non-name field names after the company name |
| ScraperProperties.FetchHitsGrows | src/scraper/langgraph_scraper.py:143-160 | the result loop only appends to the visited list, keeps stored pages and leaves the current URL alone |
| ScraperProperties.FetchHitsNew | src/scraper/langgraph_scraper.py:143-158 | every URL the loop appends was not visited before it |
| ScraperProperties.FetchHitsStored | src/scraper/langgraph_scraper.py:143-158 | every appended URL comes from a result that fetched with non-blank text, and that text is its stored content |
| ScraperProperties.FetchHitsCovers | src/scraper/langgraph_scraper.py:143-160 | every result that fetches with non-blank text ends up visited; a failing result skips only itself |
| ScraperProperties.FetchHitsInv | src/scraper/langgraph_scraper.py:143-160 | the result loop keeps the invariant and leaves counters, mode, record and error unchanged |
| ScraperProperties.SearchGoogleEffect | src/scraper/langgraph_scraper.py:126-165 | at the cap of 5 or when the search raises nothing changes; on an answer the search counter rises by exactly 1 and the rest is the result loop's effect |
| ScraperProperties.SearchOneOfTwo | src/scraper/langgraph_scraper.py:143-162 | a good new result followed by a failing one stores only the first and counts one try |
| ScraperProperties.SearchGoogleInv | src/scraper/langgraph_scraper.py:124-167 | the step keeps the invariant and only moves forward |
| ScraperSession.Session.SearchGoogle | src/scraper/langgraph_scraper.py:124-167 | the in-place loop over the results leaves the record equal to the `search_google` step function applied to the old record |
| LangGraphScraper.MergeFields | src/scraper/langgraph_scraper.py:236-241 | the field loop of `extract_info`, giving the merged record and the field that raised `KeyError`, if any; characterised by `ScraperProperties.MergeFieldsFailure`, `MergeFieldsValues` and `MergeFieldsScores` |
| LangGraphScraper.ExtractInfoStep | src/scraper/langgraph_scraper.py:169-250 | `extract_info` on values; characterised by `ScraperProperties.ExtractInfoRefusals` and `ExtractInfoMerges`, and performed in place by `ScraperSession.Session.ExtractInfo` |
| ScraperProperties.FirstUnscored | src/scraper/langgraph_scraper.py:236-241 | the index of the first field that is written without a score entry is such a field, and no earlier field is |
| ScraperProperties.MergeFieldsFailure | src/scraper/langgraph_scraper.py:236-241 | the field loop stops with `KeyError` at exactly the first field written without a score entry, and without error when there is none |
| ScraperProperties.MergeFieldsValues | src/scraper/langgraph_scraper.py:236-239 | every field the loop reaches with a truthy reply value takes that value, whatever its old value and confidence; every other field keeps its value |
| ScraperProperties.MergeFieldsScores | src/scraper/langgraph_scraper.py:240-241 | the confidences become the old ones updated with the reply's scores of the written fields before the first unscored one |
| ScraperProperties.MergeFieldsKeepsSources | src/scraper/langgraph_scraper.py:236-241 | the field loop does not touch `sources` |
| ScraperProperties.ExtractInfoRefusals | src/scraper/langgraph_scraper.py:171-249 | without content the step is a no-op; a missing API key or a failing model call or parse only sets `error` |
| ScraperProperties.ExtractInfoMerges | src/scraper/langgraph_scraper.py:233-249 | with a reply, values and confidences merge as above; on `KeyError` the error names the field and sources stay; otherwise the error is kept and the content keys not yet among the sources are appended, so sources stay duplicate-free and become the old sources plus every page read |
| ScraperProperties.ExtractInfoOverwrites | src/scraper/langgraph_scraper.py:238-241 | a fully scored reply replaces a field's value and confidence even when the new confidence is lower |
| ScraperProperties.ExtractInfoInv | src/scraper/langgraph_scraper.py:169-250 | the step keeps the invariant, and in particular sources stay duplicate-free |
| ScraperSession.Session.ExtractInfo | src/scraper/langgraph_scraper.py:169-250 | the in-place field loop leaves the record equal to the `extract_info` step function applied to the old record |
| ScraperProperties.StepInv | src/scraper/langgraph_scraper.py:318-352 | whichever node runs, the invariant is kept and the record only moves forward |
| ScraperProperties.RunInv | src/scraper/langgraph_scraper.py:318-358 | every record the graph reaches keeps the invariant and has evolved from the start: visited URLs, content keys and sources only grow at the end, counters never decrease and stay at most 5, mode only moves to google, a set error stays set |
| ScraperProperties.ScrapeInv | src/scraper/langgraph_scraper.py:360-371 | a run from the initial record keeps the invariant and the company name and seed URL |
| LangGraphScraper.ScrapeRouter | src/scraper/langgraph_scraper.py:280-284 | `scrape_router`: extraction when some content was read, otherwise the end; compared in `ScraperRuns.FetchRoutersAgree` |
| LangGraphScraper.SearchRouter | src/scraper/langgraph_scraper.py:286-290 | `search_router`, the same decision as `scrape_router`; compared in `ScraperRuns.FetchRoutersAgree` |
| LangGraphScraper.ExtractRouter | src/scraper/langgraph_scraper.py:292-313 | `extract_router`: the end when all four required fields are truthy with confidence at least 0.7, else the fetching node of the current mode under its cap, else the end; see `ScraperRuns.ExtractRouterIgnoresError` and `ExtractStepKeepsRounds` |
| LangGraphScraper.Router | src/scraper/langgraph_scraper.py:252-278 | the unwired `router`; compared with `extract_router` in `ScraperRuns.RouterFallback` |
| LangGraphScraper.Run | src/scraper/langgraph_scraper.py:318-358 | the compiled graph from its entry point `scrape_website`, with a bound on node executions; its invariant is `ScraperProperties.RunInv` and its termination `ScraperRuns.RunTerminates` |
| LangGraphScraper.ScrapeSpec | src/scraper/langgraph_scraper.py:360-371 | `scrape`: the company record, the raised error, or the recursion limit; see `ScraperRuns.ScrapeTerminates` and `ScraperRuns.ScrapeLoopsDuringSearchOutage`, and `ScraperSession.Scrape` for the imperative loop |
| ScraperRuns.FetchRoutersAgree | src/scraper/langgraph_scraper.py:280-290 | both fetch routers go to extraction exactly when content is non-empty, and end otherwise |
| ScraperRuns.ExtractRouterIgnoresError | src/scraper/langgraph_scraper.py:292-313 | the extraction router's decision does not depend on `error` |
| ScraperRuns.RouterFallback | src/scraper/langgraph_scraper.py:252-278 | the unwired router agrees with the extraction router, except that after both sources are exhausted it would go back to extraction when content is non-empty |
| ScraperRuns.FetchStepShrinks | src/scraper/langgraph_scraper.py:87-167 | when searches always answer, every fetching node uses up one round of the measure (website tries left, plus one, in website mode; search tries left) |
| ScraperRuns.ExtractStepKeepsRounds | src/scraper/langgraph_scraper.py:169-313 | extraction uses no round, and the extraction router enters a fetching node only in its mode and under its cap |
| ScraperRuns.RunTerminates | src/scraper/langgraph_scraper.py:318-358 | when searches always answer, a run with enough fuel for the measure finishes |
| ScraperRuns.ScrapeTerminates | src/scraper/langgraph_scraper.py:360-371 | when searches always answer, 22 node executions suffice for `scrape` to return or raise |
| ScraperRuns.SearchOutageLoops | src/scraper/langgraph_scraper.py:129-165 | in google mode with content but incomplete information, failing searches and no API key make the graph alternate between search and extraction and never finish |
| ScraperRuns.ScrapeLoopsDuringSearchOutage | src/scraper/langgraph_scraper.py:360-371 | a session whose second page fails (or whose seed page's links make `urljoin` raise), with no API key and no answering search, reaches the recursion limit for every fuel |
| ScraperRuns.SeedFailureEndsRun | src/scraper/langgraph_scraper.py:280-284 | when the seed page fails, the run ends after one step in google mode without searching, and `scrape` returns the initial record |
| ScraperRuns.MergeAllScored | src/scraper/langgraph_scraper.py:236-241 | a reply that gives and scores all five fields sets every value and confidence from the reply, without error |
| ScraperRuns.CompleteReply | src/scraper/langgraph_scraper.py:236-246 | a reply with all fields truthy and scored at least 0.7 completes the record for the routers, keeps the error and appends the unread sources |
| ScraperRuns.OnePageSuffices | src/scraper/langgraph_scraper.py:360-371 | a good seed page plus one complete reply ends the run after two nodes, with one website try (none when the page's links make `urljoin` raise), no search, the seed URL as only source, and `scrape` returns that record |
| ScraperSession.Scrape | src/scraper/langgraph_scraper.py:360-371 | the imperative graph loop returns what the graph-run specification gives for the same environment and fuel |
| Averages.SumRemove | src/models/company_info.py:30 | the sum of a mapping's values does not depend on the order in which keys are taken |
| Averages.Average | src/models/company_info.py:28-30 | the mean is 0.0 for an empty mapping, otherwise the value whose product with the count is the sum |
| Averages.AverageUnit | src/utils/metrics.py:137-140 | the mean of confidences in [0, 1] lies in [0, 1] |
| Averages.AverageOfThree | tests/test_company_info.py:22-34 | scores 0.8, 0.6 and 0.9 average to 23/30 |
| CompanyInfoModel.CompanyInfo.constructor | src/models/company_info.py:9-24 | the record holds the given fields, sources, confidences and evidence; `get_field_evidence` gives nothing for a field not among the given evidence, so with the default empty evidence it gives nothing for every field |
| CompanyInfoModel.CompanyInfo.CalculateAverageConfidence | src/models/company_info.py:26-30 | 0.0 without scores (tests/test_company_info.py:55-58), otherwise sum divided by count, within [0, 1] for scores in range |
| CompanyInfoModel.CompanyInfo.AddEvidence | src/models/company_info.py:58-64 | reading a field's evidence back with `get_field_evidence` after adding it gives the added text and source; every other field reads back as before; the evidence keys gain exactly that field |
| CompanyInfoModel.CompanyInfo.IsComplete | src/models/company_info.py:32-56 | `is_complete`: all main fields set, then every main field scored at least 0.75; related to the missing list by `CompanyInfoModel.CompanyInfo.MissingIffIncomplete` |
| CompanyInfoModel.CompanyInfo.Missing | src/models/company_info.py:66-81 | the lacking fields among a list of names, in order: what `get_missing_fields` returns for the five main fields; characterised by `CompanyInfoModel.CompanyInfo.MissingMembers` |
| CompanyInfoModel.CompanyInfo.GetMissingFields | src/models/company_info.py:66-81 | the loop returns the lacking main fields in the record's order |
| CompanyInfoModel.CompanyInfo.MissingMembers | src/models/company_info.py:66-81 | a name is missing exactly when it is a checked field that is unset or below 0.75; the list is no longer than the fields and duplicate-free |
| CompanyInfoModel.CompanyInfo.MissingShape | src/models/company_info.py:66-81 | the missing list is duplicate-free, at most 5 long, and lists every field without a score, `company_name` included |
| CompanyInfoModel.CompanyInfo.MissingIffIncomplete | src/models/company_info.py:32-81 | the missing list is empty exactly when `is_complete` holds |
| CompanyInfoModel.CompanyInfo.NoScoresIncomplete | src/models/company_info.py:47-56 | a record without confidence scores is never complete |
| CompanyInfoModel.CompanyInfo.UnsetFieldIncomplete | tests/test_company_info.py:48-53 | a record with an unset main field is incomplete and lists that field as missing |
| ScraperModels.ValidateConfidenceScores | src/models/scraper_models.py:18-24 | accepts exactly the mappings whose scores lie in [0, 1], both ends included, and returns them unchanged; a rejection names an offending field |
| ScraperModels.EmptyScoresAccepted | src/models/scraper_models.py:13-24 | the default empty mapping is accepted |
| ScraperModels.ValidateRelevanceScore | src/models/scraper_models.py:32-37 | accepts exactly the scores in [0, 1] and returns them unchanged |
| ScraperModels.ValidateTargetFields | src/models/scraper_models.py:39-51 | accepts exactly the lists whose entries are all among the four non-name fields, unchanged; a rejection names the first bad entry |
| ScraperModels.ValidateTargetField | src/models/scraper_models.py:74-85 | accepts exactly the four non-name fields, unchanged |
| ScraperModels.TargetFieldsAgree | src/models/scraper_models.py:39-85 | a list is accepted exactly when each entry would be accepted alone |
| ScraperModels.TargetFieldExamples | src/models/scraper_models.py:39-85 | `company_name` is rejected, the empty list accepted, and a list with two bad entries is rejected at the first |
| Metrics.APIMetrics.constructor | src/utils/metrics.py:38-44 | all counters and the total time start at zero |
| Metrics.APIMetrics.AddCall | src/utils/metrics.py:47-58 | a negative duration is rejected with nothing changed; otherwise the total rises by 1, exactly one of successes and failures rises by 1, the duration is added, and total = successes + failures is kept |
| Metrics.Ratio | src/utils/metrics.py:68-75 | the ratio is 0.0 without calls, otherwise the value whose product with the call count is the numerator, and in [0, 1] for a numerator in range |
| Metrics.APIMetrics.ToDict | src/utils/metrics.py:60-76 | the counters are copied; success rate and mean duration are the ratios, or 0.0 without calls; the success rate lies in [0, 1] |
| Metrics.ScrapeMetrics.constructor | src/utils/metrics.py:78-91 | a session starts at the given time with no end time, no URLs, no confidences and three fresh, empty API counters |
| Metrics.Visit | src/utils/metrics.py:93-100 | the URL list after `add_url` of a non-empty URL; characterised by `Metrics.VisitKeepsFirstSeen` |
| Metrics.VisitKeepsFirstSeen | src/utils/metrics.py:93-100 | recording a URL keeps the list duplicate-free and in first-seen order, adds exactly that URL, and is idempotent |
| Metrics.ScrapeMetrics.AddUrl | src/utils/metrics.py:93-100 | the empty URL is rejected; otherwise the URL is appended if absent |
| Metrics.RaiseConfidence | src/utils/metrics.py:102-111 | the confidence table after `update_confidence` of an in-range value; characterised by `Metrics.RaiseConfidenceMonotone` and `Metrics.RaiseConfidenceCommutes` |
| Metrics.RaiseConfidenceMonotone | src/utils/metrics.py:102-111 | an update never lowers a stored confidence and keeps all confidences in [0, 1] |
| Metrics.RaiseConfidenceCommutes | src/utils/metrics.py:108-111 | the order of two updates does not matter |
| Metrics.ScrapeMetrics.UpdateConfidence | src/utils/metrics.py:102-111 | a value outside [0, 1] is rejected; otherwise the field's confidence becomes the larger of the new value and the old one or 0.0 |
| Metrics.CompleteAt | src/utils/metrics.py:113-117 | the end time after `complete`; characterised by `Metrics.CompleteIdempotent` |
| Metrics.CompleteIdempotent | src/utils/metrics.py:113-117 | completing sets an end time, and completing again keeps the first one |
| Metrics.ScrapeMetrics.Complete | src/utils/metrics.py:113-117 | the end time is set to the clock reading only when unset |
| Metrics.ScrapeMetrics.ToDict | src/utils/metrics.py:119-141 | URLs copied and counted; duration and end time 0.0/absent when the end time is unset (or exactly 0.0), otherwise end minus start; API dictionaries per name; average confidence the mean or 0.0, within [0, 1] |
| Metrics.CreateSession | src/utils/metrics.py:154-158 | an empty company name is rejected; otherwise a fresh valid session for that name |
| RateLimiting.NewRateLimit | src/utils/rate_limiter.py:24-29 | a non-positive rate is rejected first, then a negative retry count; otherwise a fresh limit with an empty window starting now |
| RateLimiting.RateLimit.constructor | src/utils/rate_limiter.py:16-22 | an accepted configuration with count 0 and the window starting now |
| RateLimiting.ResetAt | src/utils/rate_limiter.py:31-36 | `_reset_if_needed` on the window at one clock reading; characterised by `RateLimiting.ResetFacts` |
| RateLimiting.Proceeds | src/utils/rate_limiter.py:38-42 | `can_proceed` at one clock reading; used by `RateLimiting.RateLimit.CanProceed` |
| RateLimiting.ResetFacts | src/utils/rate_limiter.py:31-36 | a reset either changes nothing or, once 60 s have passed, empties the window and starts it now; resetting twice at once is resetting once |
| RateLimiting.RateLimit.ResetIfNeeded | src/utils/rate_limiter.py:31-36 | the window becomes the reset of the old one at the clock reading |
| RateLimiting.RateLimit.CanProceed | src/utils/rate_limiter.py:38-42 | after the reset, true exactly when the count is below the rate |
| RateLimiting.WaitFor | src/utils/rate_limiter.py:44-48 | `wait_time` at one clock reading; bounded by `RateLimiting.WaitForBounds` |
| RateLimiting.WaitForBounds | src/utils/rate_limiter.py:44-48 | the wait time is positive, and at most 60 s when the clock has not gone back |
| RateLimiting.RateLimit.WaitTime | src/utils/rate_limiter.py:44-48 | after the reset, the time left in the window, never negative |
| RateLimiting.RateLimit.RecordCall | src/utils/rate_limiter.py:50-53 | the count rises by exactly 1 |
| RateLimiting.RateLimiter.constructor | src/utils/rate_limiter.py:58-63 | limits for anthropic 50, google_search 60 and web_scrape 30 calls per minute, 3 retries each, as separate objects |
| RateLimiting.RateLimiter.WaitIfNeeded | src/utils/rate_limiter.py:65-88 | an unknown API name is rejected; otherwise the limit ends as the wait loop specifies, with its outcome and sleeps, and limits stay within their rates |
| RateLimiting.WaitLoop | src/utils/rate_limiter.py:65-88 | the `wait_if_needed` loop on one limit, with its window, outcome and sleeps; characterised by `RateLimiting.WaitLoopBounds` and performed in place by `RateLimiting.RateLimiter.WaitIfNeeded` |
| RateLimiting.WaitLoopBounds | src/utils/rate_limiter.py:65-88 | at most `max_retries` sleeps, each positive; failure after exactly `max_retries` sleeps; the count stays within the rate; a normal return has recorded one call (old count + 1, or 1 in a new window) |
| RateLimiting.FreeSlotNoWait | src/utils/rate_limiter.py:73-88 | with a free slot the wait returns at once without sleeping |
| RateLimiting.NoRetriesFailsAtOnce | src/utils/rate_limiter.py:73-77 | with no retries allowed a full window raises at once |
| RateLimiting.WaitKeepsWithinLimit | src/utils/rate_limiter.py:50-88 | a sequential wait keeps the count within the rate, and a normal return leaves at least one call recorded |
| Retry.ValidateConfig | src/utils/retry.py:59-67 | accepted exactly when retries ≥ 0, initial delay > 0, cap ≥ initial delay and base > 1; otherwise the first failing check is reported |
| Retry.DefaultDelays | src/utils/retry.py:25-35 | the defaults are accepted and wait 1, 2 and 4 s before jitter |
| Retry.Retryable | src/utils/retry.py:78-79 | an exception is retried when no exception types were given or its type is among them; used by `Retry.RetryFrom` |
| Retry.BaseDelay | src/utils/retry.py:88-91 | the delay before jitter; bounded by `Retry.BaseDelayBounds` and `Retry.BaseDelayMonotone` |
| Retry.Delay | src/utils/retry.py:88-94 | the delay slept, with jitter when enabled; bounded by `Retry.DelayBounds` |
| Retry.BaseDelayBounds | src/utils/retry.py:88-91 | the pre-jitter delay lies between the initial delay and the cap |
| Retry.BaseDelayMonotone | src/utils/retry.py:88-91 | the pre-jitter delay never decreases with the attempt number |
| Retry.JitterBounds | src/utils/retry.py:93-94 | jitter with a draw in [0, 1) scales a delay into [d/2, 3d/2) |
| Retry.DelayBounds | src/utils/retry.py:88-94 | the slept delay is the capped one without jitter, and within half to one and a half of it with jitter |
| Retry.RetryFrom | src/utils/retry.py:71-102 | the wrapper's attempt loop on values; characterised by `Retry.RetryFromShape` and performed by `Retry.CallWithRetry` |
| Retry.RetryFromShape | src/utils/retry.py:71-102 | at most `max_retries + 1` calls; stops at the first return or non-retried exception; every earlier call raised a retried exception and was followed by one sleep of the computed delay; gives up with the last exception exactly when the last allowed call raises a retried exception |
| Retry.RetryExtremes | src/utils/retry.py:74-86 | a function that works at once is called once with no sleep; one that always fails retriably is called `max_retries + 1` times with `max_retries` sleeps |
| Retry.CallWithRetry | src/utils/retry.py:69-106 | the imperative attempt loop returns the result, the call count and the sleeps the retry specification gives |

## Left out

- **Network and parsing.** HTTP fetches, `raise_for_status`, BeautifulSoup text extraction, the search provider, the language-model call and `json.loads` are outcome values in `LangGraphScraper.Env`, not code. A failed status, a timeout and a network error are all one failed fetch.
- **`urljoin`.** It is an uninterpreted function argument that gives the joined URL or raises `ValueError`. URL resolution itself, and which hrefs make it raise, are not modelled.
- **Case and whitespace.** Lower-casing covers only the ASCII letters; Python's Unicode case mapping is not modelled. Whitespace for `strip()` follows `str.isspace` code point by code point.
- **Graph library.** LangGraph's `StateGraph`, `compile` and its recursion limit are replaced by an explicit step function and fuel. A run out of fuel is reported as `RecursionLimit`; the library's default limit value is not modelled.
- **Odd reply shapes.** Reply values are JSON values with Python truthiness. The reply's `confidence_scores` is either absent or a mapping from names to numbers; a `confidence_scores` of any other shape, and the `TypeError` it would cause, is not represented.
- **Locks.** The locks in metrics and the rate limiter, and all concurrency, are left out; every operation is sequential.
- **Clock, sleep and randomness.** `time.time`, `time.sleep` and `random.random` are arguments or returned values.
- **Clock readings.** `RateLimiting.RateLimit.WaitTime` and `RateLimiting.RateLimit.CanProceed` merge the several `time.time()` readings inside one call into one reading. This is why the wait time is always positive, and why a window reset opens at the reading that triggered it.
- **Rate-limit state.** `RateLimit`'s optional initial `_call_count` and `_window_start` arguments are not modelled; a limit always starts empty at the given time.
- **Timestamps.** ISO-8601 rendering of timestamps in `ScrapeMetrics.to_dict` is not modelled; the dictionary holds the clock readings.
- **Metrics files.** `MetricsManager`'s directory creation, `save_metrics`, `load_metrics` and `get_all_metrics` are file I/O and are left out.
- **The rate-limited decorator.** `rate_limited` only wraps a call in `wait_if_needed`, which is modelled.
- **Other files.** The logger, the Streamlit UI, `main.py` and `src/models/scraper_state.py` (a type declaration without behaviour) are not part of this model.
- **Exceptions.** They are identified by the name of their type. `isinstance` against subclasses is not modelled: only listed type names are retried.
- **Floating point.** Reals replace IEEE-754 doubles: no rounding, no NaN and no infinities.
- ScraperModels.ValidateConfidenceScores: when several scores are out of range, it names some offending field rather than the first in dictionary order, because a Dafny map has no order.
- Averages.AverageUnit: the mean is bounded only for values in [0, 1], the range every caller keeps; general lower and upper bounds by the minimum and maximum are not stated.
- Retry.CallWithRetry: assumes a configuration `retry` accepted, because the wrapper only exists after validation. Validation itself is `Retry.ValidateConfig`.
