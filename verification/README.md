# sentriQA core in Dafny

This project models the core of sentriQA, a risk-based test planning service.
The core has four parts:

- **The scoring engine.** `TestCaseScore` turns each test case's metrics into five clamped components. It combines them into a weighted total, floors the total at 0 and rounds it half-up to two places. It then min-max normalises the totals and sorts the results by total, highest first. The older per-record formulas of `TestCaseMetric` are modelled as well.
- **Session and versioning state.** This covers:
  - the change detector's per-session cache of the last query;
  - the tool module's globals: current session, current prompt and last generated plan;
  - test-plan versions, numbered count + 1 per session;
  - `modify_testplan`, which adds or removes test cases.
- **Selection and response shaping.** This covers:
  - the intelligent selector's plan name, fenced-JSON extraction, warning clean-up and reason merge;
  - the chatbot's scan of the messages after the last human turn;
  - the per-session filter state of `testplan_filter`, which merges filters as a duplicate-free union;
  - the conjunctive filter semantics of `get_filtered_data`;
  - the resolution of module names to ids.
- **Small pure helpers.** These are the priority label mapping, the failure rate, the priority display format, the serializer validators and key partition, the clarification string, the database router and the page count.

Some things are outside the model and become parameters:

- The language model is an oracle answer. `None` means the call raised.
- `json.loads` is an abstract partial parser, `Parser = string -> Option<Json>`. `None` means a decode error.
- The database is represented by the data it would return: query rows, version lists and the stored test cases.

Python values are modelled by a `Json` datatype that has Python's truthiness. Exceptions are `Err(PyError)` values of a `Result`. `Decimal` arithmetic is exact real arithmetic.

Modules, one per core file plus shared ones:

- shared: `Wrappers` (Option, Result, PyError), `Json`, `Text` (Python string methods) and `Sorting` (stable sort, max, min);
- `TestScore`, `Models`, `ChangeDetector`, `Tools`, `ModifyTestplan`, `Selector`, `Chatbot`, `TestplanFilter`, `AiFilter`, `ModuleLookup`, `Utils`, `Serializers`, `Clarification`, `Routers` and `Pagination`.

The following are imperative in the source and imperative in the model:

- the change-detector cache;
- the tool globals and the version store;
- the session states of the filter flow;
- the reason merge, the normalisation and the tagging loop, each over an array;
- the scoring loop;
- the plan scan of the chatbot;
- the serializer's key partition.

## Model

| member | source | states |
|---|---|---|
| TestScore.MakeWeights | apps/core/testscore.py:11-24 | Construction succeeds iff every weight is non-negative. Otherwise the error names the first negative field in declaration order. |
| TestScore.EffectiveWeights | apps/core/testscore.py:70-77 | Omitted weights give exact defaults (the corrected defaults, see Findings). Given weights are used as they are. |
| TestScore.RoundHalfUpSpec | apps/core/testscore.py:261-266 | The result is a whole number of hundredths, within half a hundredth of the input, with the input's sign, and symmetric about zero. A tie goes away from zero: for x ≥ 0 the result lies in (x − 0.005, x + 0.005], for x ≤ 0 in [x − 0.005, x + 0.005). |
| TestScore.RoundHalfUpUnique | apps/core/testscore.py:261-266 | Those bounds pin the result: the whole number of hundredths within them is the rounded value. |
| TestScore.RoundHalfUpTies | apps/core/testscore.py:261-266 | 0.125 rounds to 0.13 and −0.125 to −0.13, not to the half-even 0.12 and −0.12. |
| TestScore.RoundHalfUpExact | apps/core/testscore.py:261-266 | A value that is already in hundredths is left unchanged. |
| TestScore.RoundHalfUpMonotone | apps/core/testscore.py:261-266 | Rounding preserves order. |
| TestScore.RoundHalfUpPercent | apps/core/testscore.py:261-266 | A value in [0, 100] rounds to a value in [0, 100]. |
| TestScore.RiskComponentSpec | apps/core/testscore.py:172-184 | Risk is impact × likelihood / 100. It lies in [0, 100] for a record within the field bounds. |
| TestScore.FailureRateComponentSpec | apps/core/testscore.py:186-194 | With runs it is failure / total_runs × 100; otherwise it is the stored rate × 100. It lies in [0, 100] when failures ≤ runs, or when the stored rate is in [0, 1]. |
| TestScore.ChangeImpactComponentSpec | apps/core/testscore.py:196-206 | The component is 100 iff direct_impact is 1, 50 iff it is above 1, and 0 iff it is missing or ≤ 0. |
| TestScore.DefectComponentSpec | apps/core/testscore.py:208-225 | min(severity × defects / max(feature_size, 1), 100). It never divides by zero, is at most 100, and is non-negative for non-negative inputs. |
| TestScore.MaxExecutionTime | apps/core/testscore.py:104 | A missing or zero maximum becomes 300.00; otherwise the given maximum is used. |
| TestScore.ExecutionPenaltySpec | apps/core/testscore.py:227-236 | The penalty lies in [0, 100]. It is 0 when the maximum or the time is ≤ 0, and min(time / max × 100, 100) otherwise. |
| TestScore.WeightedTotalSpec | apps/core/testscore.py:151-157 | The weighted total is defined iff every weight is exact (a float weight raises). It then equals the four weighted components minus the weighted penalty. |
| TestScore.ScoreOfSpec | apps/core/testscore.py:151-170 | Scored iff all weights are exact. The total is the weighted sum floored at 0, rounded half-up to hundredths: never negative, within half a hundredth of the floored sum, and not yet normalised. |
| TestScore.SingleScoreSpec | apps/core/testscore.py:128-170 | A test case is scored iff all weights are exact. Its id is kept and its total is its own components' weighted sum, floored at 0 and rounded half-up to hundredths. |
| TestScore.SingleScoreComponents | apps/core/testscore.py:162-170 | Each reported component is its computed value rounded half-up to hundredths. Change impact is then 0, 50 or 100; the penalty, and the risk of a valid record, lie in [0, 100]; the defect part is at most 100. |
| TestScore.NormValueSpec | apps/core/testscore.py:238-259 | All totals equal gives 100. Otherwise the minimum maps to 0 and the maximum to 100, and every value lies in [0, 100]. |
| TestScore.NormValueMonotone | apps/core/testscore.py:254-257 | Normalisation preserves order. |
| TestScore.NormalizedAt | apps/core/testscore.py:243-257 | Each result gets the normalised value of its total between the lowest and highest totals. |
| TestScore.NormalizedBounds | apps/core/testscore.py:238-259 | Normalisation changes only the normalised score, which is then set and lies in [0, 100]. |
| TestScore.NormalizedMonotone | apps/core/testscore.py:254-257 | A larger total never gets a smaller normalised score. |
| TestScore.NormalizedAllEqual | apps/core/testscore.py:248-252 | When all totals are equal, every normalised score is 100. |
| TestScore.NormalizedExtremes | apps/core/testscore.py:244-257 | A largest total maps to 100. A smallest total maps to 0 unless all totals are equal. |
| TestScore.NormalizeScores | apps/core/testscore.py:238-259 | The in-place loop over the array leaves exactly the normalised sequence. |
| TestScore.NormalizeBetween | apps/core/testscore.py:248-257 | Each result keeps its fields and gets the normalised value of its total between the given minimum and maximum: 100 when they are equal, otherwise the rounded position in the range. |
| TestScore.NormalizeList | apps/core/testscore.py:120-121 | Normalising a copy of the list in place gives the normalised list. |
| TestScore.ScoreAllSpec | apps/core/testscore.py:107-114 | With exact weights every case is scored, in input order. With a float weight every case raises and is skipped. |
| TestScore.ScoreEach | apps/core/testscore.py:105-114 | The loop keeps, in input order, the scores of exactly the cases that do not raise. |
| TestScore.CalculateScores | apps/core/testscore.py:80-126 | The loop computes the specification: [] for no input, an error when nothing could be scored, and otherwise the results sorted by total, highest first. |
| TestScore.SortedByTotal | apps/core/testscore.py:123-124 | Sorting by the negated total puts the results in descending order of total. |
| TestScore.CalculateScoresOutcome | apps/core/testscore.py:100-126 | Empty input gives []. A float weight raises "no valid scores". Exact weights give one result per case, a permutation of the scored results, each normalised on request. |
| Sorting.SortByStable | apps/core/testscore.py:124 | The sort is stable: the results of any one key value come out in the order they went in. |
| TestScore.DefaultWeightsAlwaysRaise | apps/core/testscore.py:14-18 | As written, the float defaults make every non-empty input raise. |
| TestScore.IntendedDefaultWeightsScoreAll | apps/core/testscore.py:70-77 | With exact defaults every case is scored. |
| TestScore.ScoreSummary | apps/core/testscore.py:268-285 | There is no summary for no results. Otherwise total_testcases is the number of results. |
| TestScore.BucketsPartition | apps/core/testscore.py:282-284 | The high, medium and low counts add up to the number of results. |
| TestScore.BucketsOfOne | apps/core/testscore.py:282-284 | A result is high iff its normalised score is ≥ 80. A missing normalised score counts as low. |
| Models.ValidatorBoundaries | apps/core/models.py:48-59 | Likelihood and impact accept 0 and 100 and reject −1 and 101. Severity and feature size accept 10 and reject −1 and 11. |
| Models.GetMaxTime | apps/core/models.py:66-69 | No stored times gives 0. Otherwise it is the maximum of the distinct times; mixing None with numbers raises TypeError. |
| Models.RiskScoreBounds | apps/core/models.py:77-78 | The older risk score impact × likelihood / 25 lies in [0, 400] for valid records. |
| Models.RiskScoreSpec | apps/core/models.py:77-78 | The risk score × 25 is impact × likelihood. For a valid record it is 0 iff impact or likelihood is 0. |
| Models.ImpactValueSpec | apps/core/models.py:83-86 | A missing direct impact raises TypeError. Otherwise the value is 1 iff direct impact ≥ 1, and 0 iff it is below 1. |
| Models.HistoryMetrixSpec | apps/core/models.py:80-81 | The score is undefined exactly when a value is missing or total_runs is 0. Otherwise score × total_runs = failure × failure_rate, so it is (failure / total_runs) × failure_rate. It lies in [0, 100] for 0 ≤ failure ≤ total_runs and a rate in [0, 100]. |
| Models.DefectValueSpec | apps/core/models.py:88-91 | A missing defect count raises TypeError. With at least one defect and a set, non-zero feature size, the value × feature_size = defects × severity, and a missing severity raises TypeError. Otherwise the value is 0. |
| Models.TestScoresSpec | apps/core/models.py:98-105 | The total is defined iff history, impact, defect and execution-time values all are. It is then risk + history + impact + defect − execution time. Otherwise it raises the first error in the order the terms are evaluated. |
| Models.TestScoresNoFloor | apps/core/models.py:98-105 | There is no floor at 0: with zero risk, no failures, direct impact below 1, no defects and a positive stored execution time, the total lies in [−1, 0). |
| Models.TestScoreCanBeNegative | apps/core/models.py:98-105 | The older total has no floor: a record with only an execution time scores below 0. |
| Models.ExecutionTimeAtMostOne | apps/core/models.py:93-96 | A stored positive time divided by the largest stored time lies in (0, 1]. |
| ChangeDetector.QueryChangeDetector.ShouldSaveVersion | aimode/core/change_detector.py:12-36 | The session's cache entry becomes the query and no other entry changes. A no-save phrase gives False without asking the language model. No previous query gives True without asking it. Otherwise the model's answer decides, with exactly one call recorded. |
| ChangeDetector.QueryChangeDetector.ShouldSaveForKey | aimode/core/change_detector.py:20-36 | For a given cache key, the entry becomes the query. The answer is False for a no-save phrase, True without a previous non-empty query, and otherwise the model's verdict. The model is asked exactly once in that last case and never otherwise. |
| ChangeDetector.NoSavePhraseAnywhere | aimode/core/change_detector.py:38-48 | Any of the twelve phrases, in any letter case and anywhere in the query, is detected. |
| ChangeDetector.NoSaveIgnoresCase | aimode/core/change_detector.py:45 | The phrase check gives the same answer for a query and its lower-cased form. |
| ChangeDetector.LlmDecisionSpec | aimode/core/change_detector.py:50-64 | A failed call gives False. Otherwise the result is True iff the stripped, upper-cased answer starts with "YES". |
| ChangeDetector.SessionKeyNormal | aimode/core/change_detector.py:13-16 | The session key is already normalised, so normalising it again changes nothing. |
| Tools.VersionStore.SaveVersion | aimode/core/tools.py:78 | One version is appended to the session's list and the other sessions are unchanged. |
| Tools.AppendNextKeepsNumbered | aimode/core/tools.py:65 | Appending the version numbered count + 1 keeps a session's versions numbered 1, 2, … |
| Tools.TestcasesOfTruthy | aimode/core/tools.py:60-62 | A non-empty test-case list implies a "data" dict. |
| Tools.ToolsState.SetLastGeneratedTestplan | aimode/core/tools.py:22-25 | Only the last generated plan changes; a later read returns exactly it. |
| Tools.ToolsState.SetCurrentSessionId | aimode/core/tools.py:31-36 | Both globals are assigned. The call raises TypeError exactly when the prompt is None, because the logging slices it. |
| Tools.ToolsState.SaveNewTestplanVersion | aimode/core/tools.py:47-90 | Status 400 when there is no plan or no test cases. Status 500 when something raises, with the store unchanged. Otherwise version count + 1 is written from the plan's data and status 200 carries version_saved. |
| Tools.ToolsState.GenerateTestplan | aimode/core/tools.py:152-212 | The intended behaviour, with a selector that accepts the priorities (see Findings). Missing modules or priority give None with nothing changed. A failed selector gives None with the last plan unchanged. Otherwise the outcome below is stored as the last plan and returned. The detector's cache for the session becomes the current prompt when one is given, and the detector is asked exactly once when the session had a cached query. The session and prompt globals are read, never written. |
| Tools.ToolsState.GenerateTestplanAsWritten | aimode/core/tools.py:159-165 | As written, giving both module names and priorities raises TypeError at the selector call, before anything is written; otherwise the result is None. It never produces a plan. |
| Tools.ToolsState.HandleVersion | aimode/core/tools.py:170-206 | A version is written iff saving was decided and there are test cases; its number is count + 1. When a prompt is given, the cache entry for the session becomes it and the detector is asked once if an entry was already cached. Without a prompt the detector is unchanged. |
| Tools.DecideSave | aimode/core/tools.py:174-179 | Without a prompt, saving is decided and the detector is untouched. With one, the detector decides, its cache entry for the session becomes the prompt, and one call (old entry, prompt) is recorded iff an entry was cached. |
| Tools.WriteVersion | aimode/core/tools.py:180-205 | A version numbered count + 1 is appended iff saving was decided, there are test cases and the save does not raise. Otherwise the store is unchanged. The reply carries version_saved, or no_save for a no-save prompt. |
| Tools.GenerateOutcomeSpec | aimode/core/tools.py:180-206 | A save adds version_saved and version_message. A refusal with a no-save prompt adds the no_save advisory. Otherwise the selector's answer is unchanged. |
| Tools.NoPromptAlwaysSaves | aimode/core/tools.py:174-178 | Without a prompt, a plan with test cases is always saved. |
| ModifyTestplan.Tag | aimode/core/modify_testplan.py:58-60 | A tagged case has mode "classic" and generated True, and keeps every other key. |
| ModifyTestplan.TagAll | aimode/core/modify_testplan.py:57-60 | Every case of a list of dicts is tagged, position by position. |
| ModifyTestplan.FirstNonDict | aimode/core/modify_testplan.py:58-60 | The loop stops at the first element that is not a dict. |
| ModifyTestplan.IdSet | aimode/core/modify_testplan.py:63 | The removal set is exactly the hash keys of the given cases' ids, with True and False keyed as 1 and 0. A case without an id raises KeyError; a list or dict id raises TypeError. |
| ModifyTestplan.RemoveIdsSpec | aimode/core/modify_testplan.py:63-66 | Removal keeps exactly the cases whose id key is not in the set; unknown ids are ignored. |
| ModifyTestplan.RemoveIdsOk | aimode/core/modify_testplan.py:63-66 | Removal raises exactly when some existing case has no id or an unhashable one. |
| ModifyTestplan.RemoveIdsSound | aimode/core/modify_testplan.py:64-66 | Every kept case is an existing case whose id is not to be removed. |
| ModifyTestplan.RemoveIdsComplete | aimode/core/modify_testplan.py:64-66 | Every existing case whose id is not to be removed is kept. |
| ModifyTestplan.RemoveIdsNoMatch | aimode/core/modify_testplan.py:64-66 | When no id matches, the list is kept as it is. |
| ModifyTestplan.IdKey | aimode/core/modify_testplan.py:63-65 | The key under which an id is compared is defined iff the id exists and is hashable. It is the id itself, except that True and False become 1 and 0. |
| ModifyTestplan.RemoveIdsConcat | aimode/core/modify_testplan.py:64-66 | Order is kept: removing from a concatenation succeeds iff it succeeds on both parts, and gives the two results concatenated. |
| ModifyTestplan.RemoveIdsOne | aimode/core/modify_testplan.py:64-66 | A single case is dropped iff its id key is in the set and kept otherwise; a case without a hashable id raises. |
| ModifyTestplan.IdEquality | aimode/core/modify_testplan.py:63-66 | Removing the id True removes the case with id 1. A list id raises TypeError when the set is built and when the existing list is scanned. |
| ModifyTestplan.ModifyTestplan | aimode/core/modify_testplan.py:10-91 | No plan gives 400 and changes nothing. The version written is count + 1 with output_counts = the new length. The reply is the narrative plus the saved-version sentence, with the updated list. Added cases are tagged in place. |
| ModifyTestplan.UpdateAndSave | aimode/core/modify_testplan.py:57-91 | A list update that raises, or a save that raises, gives an error and leaves the store unchanged. Otherwise version count + 1 holds the updated list and the reply is the saved-version sentence with that list. Added cases are tagged in place up to the first non-dict. |
| ModifyTestplan.TagInPlace | aimode/core/modify_testplan.py:58-60 | The in-place loop tags the dict prefix and stops at the first non-dict. |
| ModifyTestplan.TagAllNoneLeft | aimode/core/modify_testplan.py:57-61 | For a list of dicts the loop reaches the end, so the whole list is tagged. Its length is kept and every element is a dict with mode "classic" and generated True, its other keys unchanged. |
| ModifyTestplan.FirstNonDictAll | aimode/core/modify_testplan.py:58-60 | A list of dicts has no non-dict position. |
| ModifyTestplan.AddThenRemove | aimode/core/modify_testplan.py:57-66 | Adding cases and then removing their ids restores the plan when their ids are new. |
| ModifyTestplan.TagKeepsIds | aimode/core/modify_testplan.py:58-60 | Tagging does not change any case's id. |
| ModifyTestplan.RemoveAppended | aimode/core/modify_testplan.py:61-66 | When no existing id is in the set and every appended id is, removing from the appended list gives back the existing list exactly. |
| ModifyTestplan.RemoveAllAdded | aimode/core/modify_testplan.py:61-66 | Removing the ids of the added cases removes all of them. |
| Selector.PlanNameMentions | aimode/core/intelligent_testcase_selector.py:39-49 | The plan name mentions each of the first five module names. |
| Selector.ModulePartMentions | aimode/core/intelligent_testcase_selector.py:39-49 | The module part of the plan name mentions each of the first five module names. |
| Selector.PlanNameShort | aimode/core/intelligent_testcase_selector.py:39-49 | The name starts with "Intelligent Plan: ". With at most five names it is that prefix plus the names joined by ", ". |
| Selector.PlanNameLong | aimode/core/intelligent_testcase_selector.py:42-44 | With more than five names it lists the first five and ends " and K more", where K is the number left out. |
| Selector.Candidates | aimode/core/intelligent_testcase_selector.py:57-62 | The candidate list is a sized value taken from data.testcases, or None when scoring failed. |
| Selector.Selection | aimode/core/intelligent_testcase_selector.py:101-122 | A selection exists only when the call answered and the fenced text parsed, and then it is sized. |
| Selector.Reasoning | aimode/core/intelligent_testcase_selector.py:150-198 | The reasoning is the parsed fenced answer, or the one-item fallback list. |
| Selector.WarningSpec | aimode/core/intelligent_testcase_selector.py:137-148 | The cleaned warning has no leading, trailing or repeated whitespace. A failed call gives "". |
| Selector.CleanWarningFixed | aimode/core/intelligent_testcase_selector.py:140-143 | Text that is already clean is unchanged by the clean-up. |
| Selector.MergedItems | aimode/core/intelligent_testcase_selector.py:200-202 | The merged list keeps the length of the selection. |
| Selector.MergedItemsSpec | aimode/core/intelligent_testcase_selector.py:200-202 | A position below min(len) gets the reason at that position, or "" when it has none. Every later position is untouched. |
| Selector.MergeIdempotent | aimode/core/intelligent_testcase_selector.py:200-202 | Merging the same reasons again changes nothing. |
| Selector.MergeReasons | aimode/core/intelligent_testcase_selector.py:200-202 | The in-place loop succeeds iff no step raises, and then leaves the merged list. Otherwise it reports the first failing step. |
| Selector.MergeSelection | aimode/core/intelligent_testcase_selector.py:200-202 | A parsed list is merged; any other parsed value passes through only when nothing is visited. |
| Selector.IntelligentTestcaseSelector | aimode/core/intelligent_testcase_selector.py:17-226 | No module ids gives 400. A scoring error gives 500. An empty candidate list returns the score data. A failed selection gives 500. Otherwise the result is 200 with name, description, display names, count = len(selection), merged test cases and the cleaned warning. |
| Chatbot.LastHumanIndex | aimode/chatbot.py:29-31 | The index is of a human message with none after it, or −1 when there is none. |
| Chatbot.WindowSpec | aimode/chatbot.py:29-32 | The window is the suffix after the last human message. It contains no human message, and it is empty iff there is none or the last message is human. |
| Chatbot.FirstPlanMessage | aimode/chatbot.py:40-41 | This is the first generate_testplan tool message, or None when the window has none. |
| Chatbot.PlanDataPrefix | aimode/chatbot.py:40-50 | Only the first plan message counts: later messages never change tcs_data. |
| Chatbot.ScanForPlan | aimode/chatbot.py:40-50 | The loop yields the parsed content of the first plan message, or {} when none parses. |
| Chatbot.GetLlmResponse | aimode/chatbot.py:27-64 | Empty history raises IndexError. Keys are exactly content, tcs_data and suggestions. Structured data is used (base_content defaults to the content) only when tcs_data is empty. |
| TestplanFilter.ParseJsonFromLlmSpec | aimode/core/testplan_filter.py:22-29 | Without a fence the text goes to the parser unchanged. A fence gives the stripped text after the last "```json". A decode error gives {}. |
| Text.ExtractFence | aimode/core/testplan_filter.py:22-23 | Without "```json" the text is unchanged. Otherwise, in the text after the last "```json", the result is everything before the first "```", or all of it when there is none. |
| TestplanFilter.Dedup | aimode/core/testplan_filter.py:40 | The result has no duplicates, the same elements and is no longer. |
| TestplanFilter.MergeValueSpec | aimode/core/testplan_filter.py:36-40 | A key's merged value is the duplicate-free union of its current list and the new values, with a string wrapped as a one-item list. |
| TestplanFilter.MergedFilters | aimode/core/testplan_filter.py:36-41 | The merged keys are the old keys plus the keys with truthy new values. |
| TestplanFilter.MergeIdempotent | aimode/core/testplan_filter.py:32-41 | Merging the same filters again changes nothing. |
| TestplanFilter.MergeIntoAgain | aimode/core/testplan_filter.py:38-40 | Merging the same values into an already merged value changes nothing. |
| TestplanFilter.DedupAbsorbs | aimode/core/testplan_filter.py:40 | Appending values already present to a duplicate-free list and deduplicating gives the list back. |
| TestplanFilter.MergeFilters | aimode/core/testplan_filter.py:32-41 | The key-by-key loop succeeds iff no merge raises, and then gives the merged filters. Each key always holds its old or merged value, and keys absent from the new filters are untouched. |
| TestplanFilter.FilterSessions.GetSessionState | aimode/core/testplan_filter.py:13-19 | A default state is created only for an unknown session. An existing state is returned unchanged. |
| TestplanFilter.FilterSessions.RunFilterFlow | aimode/core/testplan_filter.py:44-87 | The user turn is always appended. The stripped answer is appended only when the model answered, so exactly two turns on success. Only this session changes. |
| TestplanFilter.FilterSessions.RunWithAnswer | aimode/core/testplan_filter.py:49-87 | Given the stripped answer, the session gets the user turn, then the answer turn when there is one, and the merged filters when new filters are truthy. The reply is the filtered cases or the request for criteria. Only this session changes. |
| TestplanFilter.HandleAnswer | aimode/core/testplan_filter.py:58-87 | Filters change only with a truthy new value; the reply is then the filtered result with a truthy test_repo popped. Otherwise the reply asks for criteria with tcs_data None. A non-dict answer raises. |
| AiFilter.ConverToList | apps/core/ai_filter.py:21-28 | None gives []. A string s gives [s]. A list gives a list no longer than it. Anything else is unchanged. |
| AiFilter.TruthyItemsSpec | apps/core/ai_filter.py:27 | An item is in the result iff it is an item of the list and truthy; an all-truthy list is kept as it is. |
| AiFilter.TruthyItemsConcat | apps/core/ai_filter.py:27 | Order and multiplicity are kept: filtering a concatenation gives the two filtered parts concatenated. |
| AiFilter.TruthyItemsOne | apps/core/ai_filter.py:27 | A single item is kept iff it is truthy. |
| AiFilter.ConverToListIdempotent | apps/core/ai_filter.py:21-28 | Converting twice is converting once, except for "", which becomes [""] and then []. |
| AiFilter.BuildFilters | apps/core/ai_filter.py:31-63 | The accumulated terms are one term per non-empty criterion, in order. |
| AiFilter.FilterCasesSpec | apps/core/ai_filter.py:65-66 | The filter keeps exactly the passing cases; with no terms it keeps them all. |
| AiFilter.FilterCasesConcat | apps/core/ai_filter.py:65-66 | Query order is kept: filtering a concatenation gives the two filtered parts concatenated. |
| AiFilter.PassesFiltersOf | apps/core/ai_filter.py:48-63 | A case passes iff it meets every non-empty criterion: for a list, some item's str() is the column value (None items are discarded); otherwise the value's str() equals it. |
| AiFilter.CoercedCriteria | apps/core/ai_filter.py:49-63 | Non-string criteria compare by their str(), as CharField lookups prepare them: [k] or a non-zero k matches exactly str(k), True matches exactly "True", [None] matches nothing, and a non-empty string matches only itself. |
| AiFilter.NumberCriterionMatchesName | apps/core/ai_filter.py:49-53 | {"module": [5], "priority": True} keeps a case whose module is named "5" and whose priority is "True". |
| AiFilter.NoCriteriaNoFilters | apps/core/ai_filter.py:48-66 | There are no terms iff every criterion is empty. |
| AiFilter.GetFilteredData | apps/core/ai_filter.py:12-92 | test_repo is always a bool. An error gives the error dict with test_repo False. Otherwise the kept cases are exactly those meeting all criteria: none gives {test_repo: False, tcs: {}}, some gives test_repo True and their rows. With no criteria test_repo says whether any case exists. |
| ModuleLookup.GetIdModuleMapping | aimode/core/helpers.py:93-99 | Intended behaviour, with (name, id) rows: the result is a permutation of the rows as {id, name} entries, or [] on error. |
| ModuleLookup.MappingSorted | aimode/core/helpers.py:96 | The entries are in ascending id order. |
| ModuleLookup.NameToIdSpec | aimode/core/helpers.py:103-105 | A name is mapped iff some entry has it, and it maps to the id of the last such entry. |
| ModuleLookup.LargestIdWins | aimode/core/helpers.py:96-105 | Over id-sorted entries, a shared name maps to its largest id. |
| ModuleLookup.GetIdsByModuleNames | aimode/core/helpers.py:102-106 | Intended behaviour, with (name, id) rows: the result is never longer than the input, and an error gives []. |
| ModuleLookup.SelectIdsConcat | aimode/core/helpers.py:106 | Order is preserved: the ids of a concatenation are the concatenated ids, so repeated names repeat ids. |
| ModuleLookup.SelectIdsKnown | aimode/core/helpers.py:106 | Unknown names are dropped. When all names are known, position i holds the id of name i. |
| ModuleLookup.ResolvedIdsAreLargest | aimode/core/helpers.py:93-106 | With (name, id) rows, each resolved id belongs to a row with a requested name and is the largest id among rows with that name. |
| ModuleLookup.KnownNamesResolve | aimode/core/helpers.py:93-106 | With (name, id) rows, when every requested name appears in some row, every name yields an id. |
| ModuleLookup.CharEntries | aimode/core/helpers.py:96 | As written, each row is a bare name. A name shorter than two characters raises IndexError. Otherwise the entry's id is the name's second character and its name the first. |
| ModuleLookup.GetIdModuleMappingAsWritten | aimode/core/helpers.py:93-99 | As written: [] when the query or an entry raises, otherwise a permutation of the character entries. |
| ModuleLookup.AsWrittenOnlyOneCharNamesResolve | aimode/core/helpers.py:93-106 | As written, every resolved id is a single character, and no name longer or shorter than one character resolves. |
| ModuleLookup.LoginDoesNotResolve | aimode/core/helpers.py:93-106 | As written, "Login" among the modules "Login" and "Cart" resolves to nothing. |
| ModuleLookup.LoginResolves | aimode/core/helpers.py:93-106 | With (name, id) rows, "Login" among ("Login", 7) and ("Cart", 3) resolves to [7]. |
| Utils.GetPriority | apps/core/utils.py:59-68 | "Class 1/2/3" map to "class_1/2/3". Any value returned is one of those mappings. |
| Utils.GetPriorityOnlyLabels | apps/core/utils.py:59-68 | Every label other than the three gives False. |
| Utils.GetFailureRate | apps/core/utils.py:104-109 | A missing or zero count gives 0. Otherwise rate × runs = failure × 100. |
| Utils.FailureRateBounds | apps/core/utils.py:104-109 | With 0 ≤ failure ≤ runs the rate lies in [0, 100]. |
| Serializers.FormatPriority | apps/core/apis/serializers.py:257 | The length is kept. Non-letters are kept, except "_", which becomes " ". Letters change only case. No "_" remains. |
| Serializers.FormatPriorityLabel | apps/core/apis/serializers.py:257 | Each stored priority is displayed as its label ("class_1" becomes "Class 1"). |
| Serializers.FormatPriorityRoundTrip | apps/core/apis/serializers.py:257 | Reading the displayed priority back gives the stored value. |
| Serializers.ValidateInt | apps/core/apis/serializers.py:30-83 | A required integer field is accepted iff present and within [min, max], and keeps its value. |
| Serializers.ValidateMetricsSpec | apps/core/apis/serializers.py:30-83 | The integer metrics validate iff every one is present and in [1, 100]. A failure reports exactly the fields that are missing or out of range. |
| Serializers.MetricBoundaries | apps/core/apis/serializers.py:30-83 | 1 and 100 are accepted; 0 and 101 are rejected. |
| Serializers.ValidateTestPlan | apps/core/apis/serializers.py:183-196 | The request is valid iff every field passes its check, and otherwise every failing field is reported, in declaration order. Valid data is the trimmed input: output_counts in [1, 100], non-blank module names, a non-blank testcase_type of at most 200 characters ("functional" when absent), a name of at most 200 characters. |
| Serializers.Cleaned | apps/core/apis/serializers.py:183-196 | The validated data keeps output_counts, trims every given string and module name, leaves out absent optional fields and defaults testcase_type to "functional". |
| Serializers.PlanErrorsSpec | apps/core/apis/serializers.py:183-196 | A field is reported iff its own check fails, and nothing is reported iff every check passes. |
| Serializers.PlanCountBoundaries | apps/core/apis/serializers.py:187-191 | output_counts 1 and 100 are accepted, with testcase_type "functional"; 0 and 101 are each the only error. |
| Serializers.PlanMissingModule | apps/core/apis/serializers.py:192-194 | A request without module is rejected for module alone. |
| Serializers.PlanBadTestcaseType | apps/core/apis/serializers.py:196 | A null testcase_type, or one that is blank once trimmed, is rejected for testcase_type alone. |
| Serializers.PlanLongName | apps/core/apis/serializers.py:185 | A 201-character name is rejected for name alone. |
| Serializers.PlanBlankName | apps/core/apis/serializers.py:185 | A whitespace-only name is accepted and becomes "". |
| Serializers.Create | apps/core/apis/serializers.py:99-112 | module is popped, and a missing module raises KeyError. The ten metric keys go to the metric record, None when absent. Every other key stays with the test case. |
| Serializers.PopFields | apps/core/apis/serializers.py:101-108 | The popped record has exactly the metric keys, each holding its value or None. The remainder has exactly the other keys, with their values. |
| Serializers.GetScore | apps/core/apis/serializers.py:244-253 | No plan, no row or a null score gives 0. Otherwise it is the stored score. |
| Serializers.GetScoreNonZero | apps/core/apis/serializers.py:244-253 | A non-zero score is the stored one for a plan in context. |
| Clarification.AskClarificationQuestion | aimode/core/clarification_tool.py:14-47 | The result starts with "CLARIFICATION_NEEDED: " and the question. Nothing follows without options. With options, " Options: " and the options joined by ", " follow. |
| Clarification.QuestionRecoverable | aimode/core/clarification_tool.py:34-47 | Without options the question is recovered from the result. The reason never changes the result. |
| Clarification.MentionsEveryOption | aimode/core/clarification_tool.py:47 | Every option appears in the result. |
| Routers.DbForRead | sentriQA/routers.py:7-10 | "core" reads from "core"; every other app reads from "default". |
| Routers.DbForWrite | sentriQA/routers.py:12-15 | "core" writes to "core"; every other app writes to "default". |
| Routers.AllowMigrate | sentriQA/routers.py:17-22 | "core" migrates only on "core". Other apps never migrate on "core", and otherwise only on "default". |
| Routers.ReadWriteAgree | sentriQA/routers.py:7-15 | Reads and writes go to the same database, "core" or "default". |
| Routers.MigratesWhereWritten | sentriQA/routers.py:12-22 | An app migrates on a database iff its writes go there. |
| Routers.ExactlyOneDatabase | sentriQA/routers.py:17-22 | Every app has exactly one database that accepts its migrations. |
| Pagination.PageCount | apps/core/pagination.py:15 | Page sizes are 10 and 14. 0 pages for 0 items. Otherwise (pages − 1) × size < count ≤ pages × size, i.e. the ceiling of count / size. |
| Pagination.PageCountLeast | apps/core/pagination.py:15 | No smaller number of pages holds every item. |
| Pagination.PageCountFullPage | apps/core/pagination.py:15 | A full page more of items adds exactly one page. |
| Pagination.PaginatedResponse | apps/core/pagination.py:13-25 | The keys are count, next, previous, page_count, status, status_code, message and data. Status is True, the code 200 and the message "Success". The data passes through unchanged. |

## Findings

| source | as written | input that shows it | evidently intended | confidence | as-written member | corrected member |
|---|---|---|---|---|---|---|
| aimode/core/tools.py:159-165 | `generate_testplan` passes `priority=` to `intelligent_testcase_selector`, whose parameters are `user_query`, `module_names`, `output_counts` and `session_id`, so the call raises TypeError outside the `try`. | module_names=["Login"], priority=["High"] | The selector takes the priorities (or the keyword is dropped), and a plan is generated and versioned | not executed | Tools.ToolsState.GenerateTestplanAsWritten | Tools.ToolsState.GenerateTestplan |
| apps/core/testscore.py:14-18 | The default weights are floats. `Decimal` arithmetic with a float raises, so every case fails and `calculate_scores` raises "No valid scores could be calculated". | Any non-empty metric list scored with `ScoreWeights()` | Exact defaults of 1, under which every case is scored | not executed | TestScore.DefaultWeightsAlwaysRaise | TestScore.IntendedDefaultWeightsScoreAll |
| aimode/core/helpers.py:93-106 | `db.execute` returns only the first column of each row (aimode/core/database.py:54-65), so `r[1]` and `r[0]` index characters of a module name. A name shorter than two characters raises, which turns the whole mapping into []. | Rows ["Login", "Cart"] and names ["Login"] give [] | Each name resolves to its module id from (name, id) rows | not executed | ModuleLookup.LoginDoesNotResolve | ModuleLookup.LoginResolves |

## Left out

**Outside the model**
- Database and ORM. Querysets, `get_or_create`, `bulk_create`, transactions and `save_version` are out. Their results are parameters: query rows, the version store as a per-session list, the stored test cases, and a flag for a save that raises.
- Language-model and agent calls, and the prompt texts. Each call is an oracle answer (`None` when it raised). `json.loads` is an abstract parser.
- Logging, HTTP plumbing and concurrency. The module-level dicts are shared without locks in the source.

**Modelled differently**
- Python floats are not modelled: `to_dict`, the averages, max and min of `get_score_summary`, and `float(...)` in `get_score`. Score values are exact reals, and Decimal's 28-digit context precision is not modelled.
- Case mapping (`lower`, `upper`, `title`) covers ASCII letters only.
- `TestplanFilter.Dedup`: `list(set(...))` has no defined order in Python. The model keeps first occurrences in order. The values 1 and True hash equal in Python but are distinct here.
- `AiFilter.GetFilteredData`: criteria are compared by their `str()`, spelled out for strings, booleans and whole numbers only. A whole number renders as an integer, so the float 5.0 compares as "5", not "5.0". The `str()` of any other number, of a nested list or of a dict matches no name here. A NULL `testcase_type` column is not modelled; cases carry strings.
- `Serializers.ValidateTestPlan`: a value of the wrong type (a number for a `CharField`, a string for `module`) is not modelled; request fields are typed.
- `Serializers.ValidateMetrics`: covers only the nine integer metrics of `TestCaseSerializer`. Its `module`, `name`, `status`, `priority` and `execution_time` fields and their validators are not modelled.
- `ModuleLookup.GetIdsByModuleNames`: takes the intended (name, id) rows; the behaviour as written, on bare names, is `ModuleLookup.GetIdsByModuleNamesAsWritten`. See Findings.

**Contracts stated weaker than the source**
- `Pagination.PageCount`: computes the integer ceiling. Python divides in floating point first, which agrees for every count below 2^53.
- `TestScore.EffectiveWeights`: uses the exact defaults, not the float defaults as written. See Findings.

**Source code not modelled**
- `models.py` `set_max_rpn` is not modelled. It reads an attribute that does not exist, and the scorer uses the constant 10000 instead.
- `Tools.ToolsState.GenerateTestplan`: models the intended call, where the selector receives the priorities; as written the `priority=` keyword raises TypeError, which is `Tools.ToolsState.GenerateTestplanAsWritten`. See Findings.
- `ModifyTestplan.ExistingOf`: a stored test-case value that is not a list is treated as a TypeError. `json.dumps` of the lists is not modelled.
- The `else` branch after `if msg` in the chatbot is unreachable, because a message object is always truthy. It is not modelled.
- `conver_to_list` is defined but never called in `get_filtered_data`. It is modelled on its own.
- A 500 reply's message text, which includes the exception text (`Error: …`), is modelled as a fixed message.
- In-place mutation shared through aliases (a dict stored in two places) is modelled only where the source relies on it:
  - the merged filter dict;
  - the tagged test cases;
  - the selected cases.
