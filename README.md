# Ozon advertising bot: a verified model of its decision logic

This project models the decision logic of an Ozon advertising-campaign bot. It proves properties of that logic in Dafny. The bot:

- reads campaign and keyword statistics from the Ozon Performance API;
- classifies every keyword with a fixed rule cascade (pause, monitor, raise or lower the bid, keep);
- summarises each campaign;
- derives bid changes and keyword suggestions;
- runs scheduled jobs (daily analysis, hourly monitoring, automatic optimization);
- optimizes a campaign, live or as a dry run;
- builds spreadsheet and PDF reports.

One module per source file:

| module | file | what it holds |
|---|---|---|
| `Config` | `config.dfy` | the tunable thresholds and their defaults, passed explicitly to every component |
| `Records` | `records.dfy` | keyword and campaign records; the zero-guarded percentage and ratio |
| `Analysis` | `analysis.dfy` | the keyword rule cascade, the priority sort, the campaign summary, the campaign recommendations, trend labelling |
| `Keywords` | `keywords.dfy` | bid-adjustment suggestions (clamp and round), the suggestion filter and de-duplication |
| `KeywordText` | `keyword_text.dfy` | keyword generators: n-grams, brand and category combinations, long-tail phrases, negative keywords, match types |
| `OzonApi` | `ozon_api.dfy` | the API client as a class whose `baseUrl` field the base-URL fallback reassigns; endpoint fallbacks; totals; keyword records; pause payloads |
| `Scheduler` | `scheduler.dfy` | the scheduler as a class: listener registry, running flag, job table, the log of listener calls, the commands sent to the platform, and the three job bodies |
| `Bot` | `bot.dfy` | one-campaign optimization with its dry-run and live paths, report selection, the guard of the `optimize` command |
| `Reports` | `reports.dfy` | the PDF word wrap, the PDF recommendation lines, the actions block of the summary sheet, the recommendations sheet, the column-width rule |

Shared helpers sit in `wrappers.dfy` (`Option`, `Result`), `seqs.dfy` and `text.dfy`:

- `seqs.dfy`: Python slices, list comprehensions with a condition, sums, and a stable descending sort standing for `list.sort(reverse=True)`;
- `text.dfy`: `str.split`, `' '.join`, `strip`, `lower`, and the character classes the regular expressions use.

Operations that loop or change state are methods with loop invariants. Each is proved equal to a specification function, and the lemmas beside that function state what the source promises. The external API, the analyzer and the keyword manager, as seen by the scheduler and the bot, are values of function type (`Platform`, `Analyzer`, `KeywordManager`). A job is therefore proved for every possible answer of the services it calls.

## Model

| member | source | states |
|---|---|---|
| `Analysis.Classify` | data_analysis.py:39-109 | When a rule fires, the result is that of the highest-priority rule whose condition holds. Kept keywords carry priority 0, no issues, no bid change and the monitoring advice. The first rule (clicks at least `min_clicks`, no orders) wins whatever ctr and drr are. Only the two bid rules move the bid, each by its configured percentage and under its conditions. The `warning_drr` branch is unreachable. Rule 7 monitors many impressions with CTR under 1%. Priority reaches 90 exactly for the three pause rules. |
| `Analysis.AnalyzeKeywords` | data_analysis.py:23-37 | Same length as the input; sorted by priority, highest first; a permutation of the classified keywords; stable, so equal priorities keep their input order. |
| `Analysis.CountActions` | data_analysis.py:115-119 | One entry per distinct action, in order of first occurrence. Each count is the number of keywords with that action and is positive. The counts sum to the number of keywords. |
| `Analysis.Put` | data_analysis.py:118-119 | Incrementing an action's count: that count goes up by one, or a new entry with count 1 is appended to the end. Every other count and the key order are unchanged, and the total goes up by one. |
| `Analysis.GetCampaignSummary` | data_analysis.py:111-152 | Keyword count and action counts (summing to the keyword count). Totals are the sums of the per-keyword fields, and ratios are 0 when their denominator is 0. Top performers: high-performance keywords, at most 5, by revenue, highest first. Critical issues: priority at least 90, at most 10, by priority, highest first. The recommendations carry the pause, raise and lower counts and the savings. |
| `Analysis.GenerateCampaignRecommendations` | data_analysis.py:154-178 | Each recommendation line appears exactly when its number is positive, carries that number, and the lines come in the order pause, raise, lower, savings. Savings are the spend of the pause keywords. |
| `Analysis.BuildRecommendations` | data_analysis.py:160-176 | The list built by appends meets the same presence, number and order conditions. |
| `Analysis.LinesPresent` | data_analysis.py:162-176 | A line for pauses, raises, lowers or savings is present if and only if its number is positive. |
| `Analysis.LinesOrdered` | data_analysis.py:160-176 | Every line carries its own number, and the lines come in the fixed order. |
| `Analysis.TrendOf` | data_analysis.py:201-206 | Stable exactly when the slope's magnitude is under 0.01; increasing exactly when it is at least 0.01; decreasing exactly when it is at most -0.01. |
| `Analysis.DetectTrends` | data_analysis.py:180-214 | Fewer than two points gives `insufficient_data`, and only then. Otherwise there is one entry for exactly each metric that has a slope, labelled by `TrendOf`, in the fixed metric order. |
| `Analysis.TrendEntriesLabelled` | data_analysis.py:193-206 | Every trend entry has its metric's slope and the label of that slope. |
| `Analysis.TrendEntriesOrdered` | data_analysis.py:193-213 | Trend entries follow the metric order ctr, cr, drr, spend, revenue. |
| `Analysis.TrendEntriesComplete` | data_analysis.py:193-196 | A metric has an entry exactly when it has a slope. |
| `Records.Percent` | data_analysis.py:142-144 | 0 when the denominator is not positive. Otherwise the result times the denominator is 100 times the numerator. Non-negative for a non-negative numerator. |
| `Records.Ratio` | data_analysis.py:145 | 0 when the denominator is not positive. Otherwise the result times the denominator is the numerator. |
| `Seqs.SortDescSpec` | data_analysis.py:34 | The stable descending sort is sorted by its key, is a permutation of its input, and keeps the input order among equal keys. |
| `Keywords.Round2` | keyword_manager.py:265 | Rounding to two places: a whole number of cents, within half a cent of the input, with halves going to an even cent. |
| `Keywords.Clamp` | keyword_manager.py:260 | `max(5.0, min(500.0, x))`: the result lies in [5, 500]; equals x inside the range, 5 below it and 500 above it. |
| `Keywords.SuggestedBid` | keyword_manager.py:257-265 | The suggested bid lies in [5, 500], is a whole number of cents, and is within half a cent of the clamped target `current * (1 + pct / 100)`. |
| `Keywords.Proposal` | keyword_manager.py:255-269 | The adjustment copies keyword, priority, reason and percentage. The current bid defaults to 25.0, and the suggested bid is `SuggestedBid` of the two. |
| `Keywords.ProposalsOfChanging` | keyword_manager.py:253-269 | One proposal per entry whose bid adjustment is non-zero, in input order. |
| `Keywords.SuggestBidAdjustments` | keyword_manager.py:247-275 | Sorted by priority, highest first, and stable. A permutation of the proposals for the entries with a non-zero bid change. No more results than inputs, and every suggested bid in [5, 500]. |
| `Keywords.NormalizeNormal` | keyword_manager.py:187 | A stripped, lower-cased keyword is a fixed point of stripping and lower-casing. |
| `Keywords.DedupDistinct` | keyword_manager.py:186-203 | The kept keywords are pairwise distinct, acceptable, and not among those already seen. |
| `Keywords.DedupFromInput` | keyword_manager.py:186-203 | Each kept suggestion is an input suggestion with its keyword normalised. |
| `Keywords.DedupTiers` | keyword_manager.py:182-203 | Filtering keeps suggestions ordered by tier. |
| `Keywords.DedupComplete` | keyword_manager.py:186-203 | Every acceptable normalised keyword of the input is either already seen or kept. |
| `Keywords.SortedTiers` | keyword_manager.py:183-184 | Sorting by tier puts no lower tier before a higher one. |
| `Keywords.FilterAndDeduplicate` | keyword_manager.py:177-205 | At most 50 results. Each is 3-100 characters, has a Cyrillic letter, and is stripped and lower-cased. They are pairwise distinct, no lower tier precedes a higher one, and each comes from an input suggestion. When fewer than 50 are kept, every acceptable input keyword is among them; when 50 are kept, no acceptable keyword left out has a higher tier than the 50th kept one. Each kept keyword carries the highest tier it had among the inputs, so a keyword suggested in both tiers is kept from its high-tier suggestion. |
| `Keywords.FilteredProperties` | keyword_manager.py:177-205 | The same properties, stated about the specification function of the filter. |
| `Keywords.DedupBest` | keyword_manager.py:182-203 | Over suggestions sorted by tier, the pass keeps each keyword with the highest tier any suggestion of it has. |
| `Keywords.DedupCut` | keyword_manager.py:182-205 | Over suggestions sorted by tier, an acceptable keyword that is not among the first n kept ranks no higher than the n-th kept one. |
| `Keywords.FilteredBestTier` | keyword_manager.py:182-205 | A kept keyword carries the highest tier any input suggestion of it has. |
| `Keywords.FilteredTopTiers` | keyword_manager.py:182-205 | When 50 are kept, every acceptable input keyword left out ranks no higher than the last one kept. |
| `KeywordText.Words` | keyword_manager.py:86-90 | The cleaned words are non-empty, contain no whitespace, have more than 2 characters, and are not stop words. |
| `KeywordText.WordsKept` | keyword_manager.py:86-90 | Every cleaned word that is not a stop word and has more than 2 characters is kept, as often as it occurs, and the kept words keep their order. |
| `KeywordText.WindowsMembers` | keyword_manager.py:97-104 | A phrase is among the windows exactly when it joins `width` consecutive words starting before the bound and passing the window's condition. |
| `KeywordText.CandidatesFromWords` | keyword_manager.py:94-104 | A keyword is a candidate exactly when it is a word, two consecutive words, or three consecutive words whose first two have more than 3 characters. |
| `KeywordText.CandidatesWords` | keyword_manager.py:94-104 | Every candidate has one to three words, and a one-word candidate is a meaningful word. |
| `KeywordText.ExtractKeywordsFromText` | keyword_manager.py:83-106 | The set of keywords is exactly the candidates of the cleaned words. Each has 1-3 words, and single words have more than 2 characters and are not stop words. |
| `KeywordText.NGrams` | keyword_manager.py:92-104 | The loops build exactly the candidate list. |
| `KeywordText.OptimizeKeywordMatchTypes` | keyword_manager.py:298-318 | Same length and order as the input. One word gives BROAD, two words PHRASE, any other count EXACT, in both directions. |
| `KeywordText.BrandWordsFrom` | keyword_manager.py:119-121 | Each brand+word combination is the brand, a space and a title word that does not contain the brand. |
| `KeywordText.BrandCombinationsShape` | keyword_manager.py:108-128 | At most 8 combinations (at most 5 with one word plus at most 3 with two). Each starts with the lower-cased brand and a space, followed by one or two words. |
| `KeywordText.GenerateBrandCombinations` | keyword_manager.py:108-128 | The loops build the brand combinations, with the same bound and shape. |
| `KeywordText.BrandWithWords` | keyword_manager.py:119-121 | The first loop builds the brand+word list. |
| `KeywordText.BrandWithPairs` | keyword_manager.py:124-126 | The second loop builds brand + pair for the first `min(3, n-1)` pairs. |
| `KeywordText.CategoryKeywordsBounded` | keyword_manager.py:138-145 | At most four keywords per category word when at most three title words are used. |
| `KeywordText.CompanionsFrom` | keyword_manager.py:143-145 | Each category+title keyword pairs the category word with a different title word of more than 3 characters. |
| `KeywordText.CategoryKeywordsSources` | keyword_manager.py:138-145 | Every category keyword is a category word longer than 3, or such a word with a companion title word. |
| `KeywordText.GenerateCategoryKeywords` | keyword_manager.py:130-147 | The loops build the category keywords from the category words and the first three title words; at most four per category word. |
| `KeywordText.CombineCategories` | keyword_manager.py:138-145 | The outer loop builds the category keywords. |
| `KeywordText.CategoryCombinations` | keyword_manager.py:143-145 | The inner loop builds one category word's combinations. |
| `KeywordText.SentencePhrasesShape` | keyword_manager.py:157-173 | Each long-tail phrase of a sentence has 3 words and over 10 characters, or 4 words and over 15 characters. |
| `KeywordText.LongTailShape` | keyword_manager.py:157-173 | The same holds over all sentences. |
| `KeywordText.ExtractLongTailKeywords` | keyword_manager.py:149-175 | The loops build the long-tail list of the description's sentences, and every phrase has that shape. |
| `KeywordText.CollectLongTail` | keyword_manager.py:157-173 | The sentence loop appends each sentence's phrases in order. |
| `KeywordText.PhrasesOf` | keyword_manager.py:161-173 | The two window loops give the 3-word phrases over 10 characters, then the 4-word phrases over 15. |
| `KeywordText.FlaggedWordsMembers` | keyword_manager.py:220-228 | A word of a poor keyword is flagged exactly when it has over 3 characters and contains a blacklisted stem, or the keyword has CTR under 0.1 and over 20 clicks. |
| `KeywordText.NegativesSources` | keyword_manager.py:213-233 | A negative comes from the loop exactly when one of the first three sources produces it: a flagged word, or the whole keyword with over 50 clicks and no orders. |
| `KeywordText.NegativeCandidatesSources` | keyword_manager.py:213-241 | A candidate negative is a common negative or comes from a source. |
| `KeywordText.GenerateNegativeKeywords` | keyword_manager.py:207-245 | At most 100 negatives (exactly min(100, candidates)), all candidates, each from one of the four sources. |
| `KeywordText.CollectNegatives` | keyword_manager.py:213-233 | The loop over poor keywords builds the set of negatives from sources. |
| `KeywordText.FlaggedOf` | keyword_manager.py:220-228 | The word loop builds the set of flagged words. |
| `OzonApi.ParseInt` | ozon_api.py:103 | `int()` on an optionally signed literal of ASCII digits succeeds with a value of the literal's sign; on anything else the model fails (see "Left out" for the literals Python also accepts). |
| `OzonApi.ServingFirst` | ozon_api.py:38-55 | The chosen base URL is the first, from a given position, whose request succeeds. |
| `OzonApi.FetchFirst` | ozon_api.py:36-58 | A request fails exactly when every base URL fails. Otherwise it returns the reply of the first base URL that succeeds, and all earlier ones failed. |
| `OzonApi.Client.MakeRequest` | ozon_api.py:36-58 | Returns the fallback's result. On success `base_url` becomes the URL that answered; on failure it is unchanged. Both hold with a reply's JSON decoding counted as part of the request (see "Left out"). |
| `OzonApi.ListingFirst` | ozon_api.py:73-84 | The chosen campaign-list endpoint is the first whose request succeeds with a non-empty list. |
| `OzonApi.ListedCampaignsFirst` | ozon_api.py:60-96 | The campaigns come from the first endpoint listing some, all earlier ones failing or listing none. When none lists any, they come from the base endpoint, or are empty when it fails. |
| `OzonApi.Client.GetAllCampaigns` | ozon_api.py:60-96 | The loop returns exactly those campaigns, and `base_url` stays one of the base URLs. |
| `OzonApi.AnsweringFirst` | ozon_api.py:119-126 | The chosen statistics endpoint is the first that answers. |
| `OzonApi.FirstEndpointFirst` | ozon_api.py:118-129 | No reply exactly when no statistics endpoint answers; otherwise the reply of the first that answers. |
| `OzonApi.TotalSnoc` | ozon_api.py:146-152 | Adding one entry adds its fields to the totals, a missing field counting as 0. |
| `OzonApi.WithRatios` | ozon_api.py:137-158 | The totals carry the sums. ctr, cr, drr and roi are 0 when impressions, clicks, revenue and spend respectively are 0; otherwise each solves its defining equation (ctr · impressions = clicks · 100, cr · clicks = orders · 100, drr · revenue = spend · 100, roi · spend = revenue). |
| `OzonApi.EmptyTotals` | ozon_api.py:137-158 | No statistics give all-zero totals and ratios. |
| `OzonApi.Aggregate` | ozon_api.py:146-152 | The nested loops give the field sums over all entries of all campaigns. |
| `OzonApi.MissingIdRaises` | ozon_api.py:102-107 | For a campaign with no id (looked up as ""), the code as written raises, while the corrected lookup gives no totals. |
| `OzonApi.CampaignStatsAgree` | ozon_api.py:98-164 | For an integer id, the code as written and the corrected lookup agree. |
| `OzonApi.Client.GetCampaignStats` | ozon_api.py:98-164 | Totals with ratios of the first statistics endpoint that answers. No totals for an empty result, for no answer, or for a non-integer id. `base_url` stays one of the base URLs. |
| `OzonApi.KeywordOf` | ozon_api.py:221-233 | The keyword defaults to "" and missing counters are 0. ctr, cr and drr are 0 when their denominator is 0, and otherwise solve ctr · impressions = clicks · 100, cr · clicks = orders · 100 and drr · revenue = spend · 100. No current bid is reported. |
| `OzonApi.BuildRecords` | ozon_api.py:219-235 | One record per statistics entry, in order. |
| `OzonApi.Client.GetKeywordStats` | ozon_api.py:203-241 | One record per entry of the keyword statistics reply, in order; none when the request fails. |
| `OzonApi.Client.UpdateKeywordBid` | ozon_api.py:243-269 | True exactly when the id is an integer and the bid update's reply has a truthy `result`. |
| `OzonApi.PauseEntries` | ozon_api.py:301 | Exactly one `PAUSED` entry per keyword, in order. |
| `OzonApi.Client.PauseKeywords` | ozon_api.py:294-315 | True exactly when the id is an integer and the status update carrying those entries gets a truthy `result`. |
| `OzonApi.Client.constructor` | ozon_api.py:23-28 | `base_url` starts as the first base URL. |
| `Scheduler.EventNamed` | scheduler.py:40-45 | A name denotes an event exactly when it is one of the four callback keys. |
| `Scheduler.CampaignScheduler.constructor` | scheduler.py:23-45 | Not running, no jobs, an empty log, and four empty listener lists. |
| `Scheduler.CampaignScheduler.AddCallback` | scheduler.py:47-50 | A known event's list gets the listener appended. An unknown name leaves the registry unchanged. Nothing else changes. |
| `Scheduler.CampaignScheduler.Dispatch` | scheduler.py:210-217 | The log gains the delivery to the event's listeners, in registration order. |
| `Scheduler.DeliveryCallsAll` | scheduler.py:210-217 | Every listener is called in order with the payload, whether or not earlier ones raised. One error line is logged per raising listener. |
| `Scheduler.CampaignScheduler.AddJob` | scheduler.py:108-114 | Adding a job with `replace_existing` leaves exactly that job under its id; nothing else changes. |
| `Scheduler.CampaignScheduler.ScheduleDailyAnalysis` | scheduler.py:99-116 | With a scheduler, the `daily_analysis` job is set; without one, nothing changes. |
| `Scheduler.CampaignScheduler.ScheduleWeeklyReport` | scheduler.py:118-128 | The `weekly_report` job is set; it raises without a scheduler. |
| `Scheduler.CampaignScheduler.ScheduleMonitoring` | scheduler.py:130-140 | The `monitoring` job is set; it raises without a scheduler. |
| `Scheduler.CampaignScheduler.ScheduleOptimization` | scheduler.py:142-156 | The `optimization` job is set only when auto-optimization is enabled; it raises without a scheduler. |
| `Scheduler.CampaignScheduler.ScheduleDefaultTasks` | scheduler.py:81-97 | With a scheduler: the daily job at 9:00, the weekly job on Monday at 10:00, and hourly monitoring. |
| `Scheduler.CampaignScheduler.Start` | scheduler.py:52-68 | Only a stopped scheduler that exists starts: it becomes running with the three default jobs. A failing start logs and stays stopped; a running scheduler is unchanged. |
| `Scheduler.CampaignScheduler.Stop` | scheduler.py:70-79 | Afterwards the scheduler is not running, even when shutdown raised (which is logged). |
| `Scheduler.CampaignScheduler.RemoveJob` | scheduler.py:416-422 | A present job is removed. A missing one, or no scheduler, is logged and nothing else changes. |
| `Scheduler.CampaignScheduler.HandleCriticalIssues` | scheduler.py:390-402 | The critical issues, with their campaign, go to every `on_critical_issue` listener in order. |
| `Scheduler.CampaignScheduler.RunDailyAnalysis` | scheduler.py:169-222 | Without client or analyzer it logs and does nothing. Otherwise it gives one result per campaign for the first 5 campaigns and dispatches the critical issues. Then every `on_analysis_complete` listener gets the results. |
| `Scheduler.CampaignScheduler.AnalyzeCampaigns` | scheduler.py:185-207 | One result per campaign, in order. The log is the critical-issue deliveries of the results in order. |
| `Scheduler.CampaignScheduler.AnalyzeCampaign` | scheduler.py:186-201 | The result carries the campaign id and name, the analysis of its keyword statistics over the last week, and the summary. |
| `Scheduler.DispatchesPerCampaign` | scheduler.py:203-207 | One dispatch per campaign that has an entry of priority at least 90, in order, carrying exactly those entries. |
| `Scheduler.AlertsFor` | scheduler.py:294-308 | A critical `high_drr` alert exactly when drr > 50 and a warning `high_spend` alert exactly when spend > 10000, each carrying its value and campaign. At most 2. |
| `Scheduler.MonitoringAlertsBound` | scheduler.py:289-308 | At most two alerts per campaign, each about a listed campaign. |
| `Scheduler.CampaignScheduler.RunMonitoring` | scheduler.py:275-315 | No alerts without a client; otherwise the alerts of every campaign from its last day's statistics. |
| `Scheduler.CampaignScheduler.MonitorCampaign` | scheduler.py:290-308 | One campaign's alerts from its statistics. |
| `Scheduler.PauseList` | scheduler.py:347 | The pause list has one keyword per analysis entry with action `pause`. |
| `Scheduler.BidCommands` | scheduler.py:358-363 | One bid-update command per adjustment, in order, with its keyword and suggested bid. |
| `Scheduler.AppliedBounds` | scheduler.py:358-365 | The updates counted are at most the adjustments tried: all of them when every update succeeds, none when every one fails. |
| `Scheduler.OptimizedCounts` | scheduler.py:336-372 | A campaign's record: `paused_keywords` is the number of pause keywords and `bid_adjustments` the number of high-confidence adjustments (not the number applied). `actions_taken` is at most pauses plus min(5, adjustments). |
| `Scheduler.OptimizationSentShape` | scheduler.py:347-365 | Per campaign at most one pause command, sent first, then at most 5 bid updates, all for that campaign. |
| `Scheduler.OptimizationsPerCampaign` | scheduler.py:336-372 | One record per optimized campaign, in order. |
| `Scheduler.OptimizationCommandsBound` | scheduler.py:336-372 | At most six commands per campaign, each for one of the campaigns. |
| `Scheduler.CampaignScheduler.RunOptimization` | scheduler.py:317-388 | Disabled: nothing happens. Missing components: logged and nothing else. Otherwise the first two campaigns are optimized, their commands are sent in order, and every `on_optimization_complete` listener gets the records. |
| `Scheduler.CampaignScheduler.OptimizeCampaigns` | scheduler.py:336-372 | The campaign loop gives the records and sends each campaign's commands in turn. |
| `Scheduler.CampaignScheduler.OptimizeCampaign` | scheduler.py:337-372 | One campaign gives its record, and its pause and bid commands are sent. |
| `Scheduler.CampaignScheduler.PauseKeywords` | scheduler.py:347-352 | A pause request goes out only when there is something to pause; the pause list counts only when accepted. |
| `Scheduler.CampaignScheduler.ApplyBids` | scheduler.py:354-365 | One update per adjustment, in order, counting the successful ones. |
| `Bot.FailureTexts` | main.py:144 | One failure message per adjustment, naming its keyword. |
| `Bot.AcceptedBidsFiltered` | main.py:133-144 | `bid_adjustments` in a live run is exactly the accepted updates, in order. |
| `Bot.BidErrorsFiltered` | main.py:133-144 | Each refused update adds exactly one error naming its keyword, in order. |
| `Bot.BidOutcomesPartition` | main.py:133-144 | Every adjustment is either applied or reported as an error. |
| `Bot.BidFailureDistinct` | main.py:123-144 | A bid failure message is never the pause failure message. |
| `Bot.OptimizationPlanned` | main.py:113-131 | `actions_planned` is the number of pause keywords plus the number of adjustments with priority at least 70. Those adjustments are exactly the suggested ones with priority at least 70. |
| `Bot.DryRunPlan` | main.py:113-146 | A dry run executes nothing, reports the full pause list and all high-confidence adjustments, and has no errors. |
| `Bot.LiveRun` | main.py:113-146 | A live run: executed = paused + applied, at most planned. A refused pause leaves `paused_keywords` empty and adds exactly "Failed to pause keywords". `bid_adjustments` is the accepted updates in order, with one error per refused update. |
| `Bot.PauseErrorExactly` | main.py:116-123 | The pause error appears exactly when the pause call is refused, and then nothing is reported paused. |
| `Bot.OptimizeCampaign` | main.py:94-148 | The step-by-step updates of the result record give the optimization report. |
| `Bot.PauseKeywords` | main.py:116-125 | The pause branch: no call for an empty list or a dry run; counts and list on acceptance; the error on refusal. |
| `Bot.SendBids` | main.py:133-146 | The bid loop: nothing sent in a dry run; otherwise the accepted updates and one error per refused one. |
| `Bot.GenerateReport` | main.py:150-174 | "No campaigns found" when no id is given and there are no campaigns. "Unsupported format" for any format other than excel, pdf and html. Otherwise a report of the requested kind for the given or first campaign, with its summary and, except for the PDF, its analysis. |
| `Bot.OptimizeCommand` | main.py:294-302 | The command refuses exactly a live run while auto-optimization is disabled; otherwise it returns the campaign's optimization. |
| `Text.JoinSplitOn` | report_generator.py:358 | Joining the parts of `s.split(' ')` with single spaces gives `s` back. |
| `Reports.WrapRecommendation` | report_generator.py:357-370 | The loop and the final flush build the lines of the wrap as written. |
| `Reports.WrapRunsCompared` | report_generator.py:362-367 | The wrap as written and the corrected one agree unless the first word has at least 80 characters. Then the code as written has flushed an empty line first. |
| `Reports.AsWrittenLeadingEmptyLine` | report_generator.py:362-370 | The lines as written equal the corrected lines when the first word is shorter than 80. Otherwise they are an empty line followed by the corrected lines. |
| `Reports.WrapNext` | report_generator.py:362-367 | One more word keeps the wrap invariant: the built lines plus the pending one join back to the words so far, and every line is non-empty, unpadded and fits. |
| `Reports.WrapRunBuilding` | report_generator.py:362-367 | The invariant holds after every prefix of plain words. |
| `Reports.WrappedRoundTrip` | report_generator.py:358-370 | For words separated by single spaces, the corrected lines joined with spaces give back the recommendation. No line is empty or padded, and a line reaches 80 characters only when it is one word. |
| `Reports.RecommendationLinesSpec` | report_generator.py:357-375 | The lines come from the wrap as written. Each recommendation gives at least one line; one of at most 80 characters is itself. The lines of a plain one join back to it when its first word is under 80 characters; when a long one's first word has 80 or more, its lines are an empty line followed by lines that join back to it. |
| `Reports.PdfRecommendationsSpec` | report_generator.py:349-375 | Only the first five recommendations are shown, with at least one line each. The shown lines are, recommendation by recommendation, one block of bullets of that recommendation's lines, after the blocks of those before it; their number is the total of those lines. When none exceeds 80 characters, each is one bullet line, unchanged. |
| `Reports.PdfLinesBlocks` | report_generator.py:355-375 | The bullet lines of each recommendation form one contiguous block, after the lines of the recommendations before it. |
| `Reports.PdfLinesShort` | report_generator.py:355-375 | Short recommendations are bulleted one per line. |
| `Reports.PdfLinesCount` | report_generator.py:355-375 | At least one line per recommendation shown. |
| `Reports.ActionRows` | report_generator.py:108-120 | One row per action with a positive count, in the order of the counts, each with its label. Every action with a positive count has its row. |
| `Reports.SectionRows` | report_generator.py:252-256 | One row per listed entry, in order. |
| `Reports.CreatePart` | report_generator.py:245-288 | A section is its heading, the rows of its first `cap` qualifying entries and, when asked for, a blank row; nothing when no entry qualifies. |
| `Reports.CreateRecommendationsSheet` | report_generator.py:233-288 | The sheet is the title, a blank row, then the critical, high-performer and bid sections. |
| `Reports.PartShape` | report_generator.py:245-288 | A section is empty exactly when nothing qualifies; otherwise its heading, one row for each of the first `cap` entries in order, and the blank when asked for. |
| `Reports.CriticalPartSpec` | report_generator.py:245-257 | The critical section exists exactly when some entry has priority at least 90. It lists the first ten such entries in input order, and all of them when there are at most ten. |
| `Reports.PerformersPartSpec` | report_generator.py:259-272 | The high-performer section exists exactly when some entry is tagged `high_performance`. It lists the first ten tagged entries in order, with their CTR and CR. |
| `Reports.BidPartSpec` | report_generator.py:274-288 | At most fifteen entries with a non-zero bid adjustment, in order. The arrow points up exactly for a positive adjustment, and the shown magnitude is its absolute value, which is positive. |
| `Reports.ColumnWidth` | report_generator.py:136-146 | Width = min(longest shown value + 2, cap), with cap 50 on the summary and keyword sheets and 60 on the recommendations sheet. It is at least 2, covers every shown value unless capped, and is the cap, 2, or some value's length + 2. |

## Left out

- HTTP, JSON and the `requests` session are not modelled. A request is a value of the function type `Network`, from request to success or failure.
- `OzonApi.Client.MakeRequest` counts the JSON decoding of a reply as part of its request. In the source a 2xx reply whose body is not JSON sets `base_url` (ozon_api.py:49) before `.json()` raises (ozon_api.py:51), and the loop goes on to the next base URL; the model does not capture that `base_url` can then change on a request that fails.
- The analyzer, keyword manager and API client, as the scheduler and the bot see them, are function values. Their calls are assumed to return rather than raise. The surrounding `try`/`except Exception` blocks that log and give up when they do raise are not modelled.
- The current date and `timedelta` windows are not modelled. Each job names its window as a `Period` value (last week, last day, last three days).
- APScheduler is not modelled: cron and interval timing, the background thread, job execution order, and `shutdown`. Whether the scheduler library is present and whether start or shutdown raise are parameters.
- `_run_coro` and `inspect.iscoroutinefunction` are not modelled. Every listener runs to completion; a raising one logs an error and the next one still runs.
- `_run_weekly_report` is not modelled, because its body is report rendering. `get_scheduled_jobs` is not modelled, because it reads APScheduler's job objects.
- Log messages are not modelled, except as the log entries the scheduler methods append.
- `config.py` environment loading is not modelled. Only its default thresholds appear, as `Config.Defaults`.
- `telegram_bot.py` is not part of this model (chat interface and message formatting).
- The CLI echo output and sleep loops of `main.py` are not modelled. The `optimize` command's guard is.
- Floating point is modelled as exact reals. `round(x, 2)` rounds half to even on the exact value, which can differ from the binary float result in the last cent.
- The text of recommendations and advice is modelled as datatypes carrying their numbers. The f-string formatting is not modelled.
- `np.polyfit`, pandas date sorting and `change_percent` in `detect_trends` are not modelled. The slope of each metric is an input.
- `find_keyword_opportunities` is not modelled: its result depends on the tie order of a pandas value count.
- `suggest_keywords_from_product` and `get_competitor_keywords` are not modelled. The first only concatenates the generators here with fixed tiers; the second fetches web pages.
- Regular expressions are modelled by character predicates over ASCII and Cyrillic letters, digits and `_`. Case folding beyond those letters is not modelled.
- `Text.IsSpace` is ASCII whitespace only. It stands for `\s` in regular expressions and also for the whitespace that `str.split()` and `str.strip()` remove (`Keywords.Normalize`, the splits in `KeywordText`). Python also treats other characters as whitespace there, such as U+00A0 and U+2028; those are not modelled.
- `OzonApi.ParseInt` accepts only an optional sign followed by ASCII digits. Python's `int()` also accepts surrounding whitespace, underscores between digits (`"1_000"`) and non-ASCII decimal digits; the model fails on those literals.
- The `list(set(...))` results of `_extract_keywords_from_text` and `generate_negative_keywords` are modelled as sets. Their iteration order, and so which 100 negatives survive the cut, is not modelled.
- `OzonApi.Client.GetKeywordStats`: a non-integer campaign id gives no records here. The source builds `int(campaign_id)` before its `try` (ozon_api.py:207-212) and raises, the same defect as the `get_campaign_stats` row under Findings.
- Spreadsheet and PDF rendering is not modelled: fonts, colours, merged cells, cell addresses, number formats, the HTML template, the keywords sheet's columns and file names. The sheets are modelled as sequences of rows.
- `Reports.ColumnWidth` models one column whose cells are given as their shown text (None for an empty value). The `hasattr(cell, 'column_letter')` test that skips columns made only of merged cells is not modelled.
- `Reports.PdfRecommendations` takes the recommendation texts as strings. It wraps them with the loop as written (`Reports.WrappedAsWritten`), so a first word of 80 or more characters gives an empty bullet, as in the source. Turning the summary's recommendation datatypes into text is not modelled.
- `Reports.WrappedRoundTrip` is stated for recommendations whose words are non-empty and free of whitespace. With double spaces or tabs, `strip()` drops characters, and the lines no longer join back to the text.

## Findings

| source | as written | input that shows it | evidently intended | confidence | as-written member | corrected member |
|---|---|---|---|---|---|---|
| ozon_api.py:102-107 | The payload, and with it `int(campaign_id)`, is built before the `try`. A campaign id that is not an integer literal raises `ValueError` out of `get_campaign_stats`. | A campaign listed without an `id`: the callers look it up as `str(campaign.get('id', ''))`, which is `""`. | Every failure gives `{}`, as the `except` branch does. | not executed | `OzonApi.MissingIdRaises` | `OzonApi.Client.GetCampaignStats` |
| report_generator.py:362-367 | The wrap loop flushes `current_line` however short it is. A first word of 80 characters or more flushes the empty starting line, so the PDF shows an empty bullet first. | A recommendation made of one 85-character word: the lines are `["", word]`. | No empty line, as the guarded flush after the loop ensures. | not executed | `Reports.AsWrittenLeadingEmptyLine` | `Reports.WrappedRoundTrip` |
