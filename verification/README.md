# semgrepAI core, modelled in Dafny

semgrepAI runs Semgrep over a code base and asks a language model to judge each
finding: a true or a false positive, with a risk score, an attack scenario and
fixes. Around that pipeline sits a small web service: scans and findings are
rows in a database, a background task runs each scan and reports progress over
WebSockets, and REST routes list, filter, triage and summarise the results.

This project models the parts of that system that decide what is computed and
stored, and proves properties of the model:

- `common.dfy` (`Common`): Option/Result, a JSON-like `Value`, dictionaries
  (`Dict`), ASCII case mapping, `strip`/`split`/`join`, and counting/filtering
  over sequences.
- `scanner.dfy` (`Scanner`): turning Semgrep's JSON output into finding
  dictionaries, reading the code snippet, the dataflow trace, references and
  security patterns.
- `code_analyzer.dfy` (`CodeAnalyzer`): the context gathered around a finding
  (snippet window, imports, the dataflow of assignments and calls, pattern
  matches), with the file system and the parsed syntax tree as inputs.
- `validator.dfy` (`Validator`): the cache key, the dataflow text for the prompt,
  the parsing of the model's answer, single-finding validation, batching and
  the local batch processor.
- `validator_stats.dfy` (`ValidationStatistics`): the statistics table printed
  after a validation run.
- `parallel.dfy` (`Parallel`): the thread-pool work items and the parallel
  validation processor.
- `cache.dfy` (`Cache`), `metrics.dfy` (`Metrics`), `config.dfy` (`Configuration`),
  `rate_limiter.dfy` (`RateLimiter`), `progress.dfy` (`Progress`).
- `api_models.dfy` (`ApiModels`): the `Scan` and `Finding` rows, their status
  enums, derived properties, pagination, and the SQL `ILIKE` tests.
- `scan_routes.dfy` (`ScanRoutes`), `finding_routes.dfy` (`FindingRoutes`),
  `stats_route.dfy` (`StatsRoute`): the REST routes, over a `Database` whose
  tables are a map of scans and a sequence of findings.
- `scan_service.dfy` (`ScanService`): the background scan run.
- `websocket.dfy` (`WebSocketManager`): the registry of WebSocket clients.

Everything outside the process (Semgrep, the language model, the file system,
the clock, uuid generation, the Python AST and regular expressions) is a
parameter of the operations that use it. Where the code and its design notes
disagree, the model follows the code:

- the validation cache is a plain dictionary written through to one JSON file,
  with no eviction, hit counting or key hashing;
- a progress tracker's `fail` and `cancel` overwrite any status, including
  `completed`, and an absolute `update` may lower the processed count;
- `execute_with_retry` makes exactly `max_retries` attempts, not one plus that
  many, and awaits the one awaitable it is given on every attempt, so after a
  failed first attempt no retry can succeed (see Findings);
- `validate_findings` loses its result whenever the statistics it prints
  raise: for a run over no findings, and for a finding they cannot read;
- the `needs_review` count of a scan's detail leaves out findings with no
  verdict at all (SQL's three-valued logic makes both negated `ILIKE` tests
  NULL for them), so it is not "every finding whose verdict mentions neither".
- the validator module's own `ValidationBatchProcessor` passes three arguments
  to `_validate_single_finding`, which takes one, so every call raises and the
  processor hands back the findings unvalidated; the model keeps the call's
  outcome an input and proves what happens when it always raises.

## Model

| member | source | states |
|---|---|---|
| ApiModels.ParseScanStatus | semgrepai/api/models/scan.py:17-23 | a stored text reads back as exactly the scan status whose value it is, and nothing else |
| ApiModels.ParseTriageStatus | semgrepai/api/models/finding.py:17-23 | a stored text reads back as exactly the triage status whose value it is |
| ApiModels.NewScan | semgrepai/api/models/scan.py:38-48 | a new scan row is pending, with zero counts, no start or end time and no error |
| ApiModels.ProgressPercentage | semgrepai/api/models/scan.py:80-84 | with no findings the progress is 0 while pending and 100 otherwise; else it is validated/total times 100 |
| ApiModels.ProgressInRange | semgrepai/api/models/scan.py:80-84 | while the validated count stays within the total, the progress is between 0 and 100 |
| ApiModels.DurationSeconds | semgrepai/api/models/scan.py:73-77 | a duration exists exactly when both times are set, and start plus duration is the end |
| ApiModels.IsTruePositive | semgrepai/api/models/finding.py:91-95 | unknown without a truthy verdict; otherwise whether the lower-cased verdict contains "true positive" |
| ApiModels.NegatedVerdictCountsAsTruePositive | semgrepai/api/models/finding.py:93-94 | any verdict ending in "true positive", such as "Not a true positive", counts as a true positive |
| ApiModels.AiFieldsOf | semgrepai/api/models/finding.py:112-122 | the AI columns read the validation keys, with `impact`, `vulnerability` and `technical` renamed |
| ApiModels.FromScanFinding | semgrepai/api/models/finding.py:98-126 | Semgrep columns take their defaults ("unknown", "UNKNOWN", "", "", 0); a missing validation gives empty AI columns; a non-dictionary validation is an error; triage starts at needs_review |
| ApiModels.MentionedInside | semgrepai/api/routes/scans.py:155-156 | a lower-case word anywhere in a verdict is found by the case-insensitive `ILIKE '%word%'` test |
| ApiModels.TotalPages | semgrepai/api/schemas/common.py:42 | the page count is 0 for no rows, else the least n with n pages holding all rows |
| ApiModels.CreatePage | semgrepai/api/schemas/common.py:35-49 | the response copies items, total, page and page size, and derives the page count |
| ApiModels.PageOf | semgrepai/api/routes/scans.py:108 | a page is at most page_size rows, row k of page p being row (p-1)*page_size+k, empty past the end |
| ApiModels.PageFrom | semgrepai/api/routes/scans.py:108 | every row of a page is one of the rows paged |
| ApiModels.RowOnItsPage | semgrepai/api/schemas/common.py:42 | every row appears on page k/page_size+1, and that page is within the page count |
| ScanRoutes.CreatedScan | semgrepai/api/routes/scans.py:38-61 | 400 exactly when the target, or a given rules path, does not exist; otherwise a pending scan with a non-empty name (the request's if given), the absolute target path, and a rules path exactly when one was given |
| ScanRoutes.CreateScan | semgrepai/api/routes/scans.py:26-85 | on success the new scan is stored under its id and returned with its derived fields; on error nothing is stored |
| ScanRoutes.ListScans | semgrepai/api/routes/scans.py:88-138 | the items are the responses of the requested page of the scans with the requested status, in row order; the total counts those scans; at most page_size items, each a stored scan with that status; page fields and page count |
| ScanRoutes.EveryMatchingScanListed | semgrepai/api/routes/scans.py:88-138 | paging loses no scan: every scan with the requested status is listed on some page within the page count |
| ScanRoutes.FilterKeepsNewestFirst | semgrepai/api/routes/scans.py:99-107 | filtering by status keeps newest-first order |
| ScanRoutes.PageKeepsNewestFirst | semgrepai/api/routes/scans.py:107-108 | a page of newest-first rows is newest first |
| ScanRoutes.ListedNewestFirst | semgrepai/api/routes/scans.py:107-111 | listed scans come newest first |
| ScanRoutes.UnfilteredTotal | semgrepai/api/routes/scans.py:99-104 | without a status filter the total is every scan |
| ScanRoutes.DetailCounts | semgrepai/api/routes/scans.py:154-168 | needs_review plus the findings with no verdict or a decided verdict is all findings; each count is bounded by the number of findings; the four severities together are at most all findings |
| ScanRoutes.NeedsReviewSplit | semgrepai/api/routes/scans.py:157-160 | every finding is either undecided or has no verdict or a decided one, never both |
| ScanRoutes.UndecidedOrNot | semgrepai/api/routes/scans.py:157-160 | a finding is counted for review exactly when it has a verdict mentioning neither phrase |
| ScanRoutes.SeveritiesExclusive | semgrepai/api/routes/scans.py:161-164 | no finding is counted under two severities |
| ScanRoutes.AtMostOneSeverity | semgrepai/api/routes/scans.py:161-164 | a severity matches at most one of CRITICAL, HIGH, MEDIUM, LOW case-insensitively |
| ScanRoutes.GetScan | semgrepai/api/routes/scans.py:141-193 | 404 "Scan not found" exactly for an unknown id; otherwise the scan, its error message and the counts over that scan's findings |
| ScanRoutes.VerdictInBothCounts | semgrepai/api/routes/scans.py:155-160 | a verdict mentioning both phrases counts as a true and a false positive and not for review |
| ScanRoutes.MentionsBoth | semgrepai/api/routes/scans.py:155-156 | such a verdict matches both `ILIKE` tests |
| ScanRoutes.DeleteScan | semgrepai/api/routes/scans.py:196-216 | 404 for an unknown id, 400 for a running scan, with nothing changed; otherwise the scan and exactly its findings are removed |
| ScanRoutes.CascadeRemovesOnlyThatScan | semgrepai/api/models/scan.py:62-67 | the cascade leaves no finding of the deleted scan and keeps every other finding |
| ScanRoutes.CancelledScan | semgrepai/api/routes/scans.py:237-238 | cancelling sets the status and the end time and leaves every other field |
| ScanRoutes.CancelScan | semgrepai/api/routes/scans.py:219-256 | 404 for an unknown id, 400 unless running, with nothing changed; otherwise the scan is cancelled in place and returned |
| FindingRoutes.Entries | semgrepai/api/routes/findings.py:55 | one entry per comma-separated part, each stripped |
| FindingRoutes.Severities | semgrepai/api/routes/findings.py:51 | one entry per comma-separated part, each stripped and upper-cased |
| FindingRoutes.TriageChoices | semgrepai/api/routes/findings.py:56-61 | exactly the triage statuses whose value is among the entries; unknown entries are dropped |
| FindingRoutes.AnyMention | semgrepai/api/routes/findings.py:66-68 | a verdict passes exactly when some entry is contained in it case-insensitively |
| FindingRoutes.ListFindings | semgrepai/api/routes/findings.py:23-127 | 404 "Scan not found" exactly for an unknown scan; otherwise the items are the requested page of that scan's findings passing every given filter, in row order; the total counts those findings; at most page_size items; page fields and page count |
| FindingRoutes.EveryMatchingFindingListed | semgrepai/api/routes/findings.py:23-127 | paging loses no finding: every finding of a known scan that passes the filters is listed on some page within the page count |
| FindingRoutes.UnknownStatusesIgnored | semgrepai/api/routes/findings.py:62-63 | a triage filter naming no known status does not filter at all |
| FindingRoutes.SeverityEntryMatches | semgrepai/api/routes/findings.py:50-52 | a severity equal to any listed entry, stripped and upper-cased, passes the severity filter |
| FindingRoutes.UnscoredFailsEveryBound | semgrepai/api/routes/findings.py:76-80 | a finding without a risk score is dropped by any risk bound |
| FindingRoutes.FindIndex | semgrepai/api/routes/findings.py:137-142 | the first row with that scan id and finding id, or none exactly when there is no such row |
| FindingRoutes.GetFinding | semgrepai/api/routes/findings.py:130-176 | 404 "Finding not found" exactly when no row has both ids; otherwise a stored row with both ids |
| FindingRoutes.UpdatedTriage | semgrepai/api/routes/findings.py:197-206 | each given field replaces its column, a given status also stamps the update time, absent fields keep their values |
| FindingRoutes.UpdateIdempotent | semgrepai/api/routes/findings.py:197-206 | applying the same update twice at the same time is the same as once |
| FindingRoutes.UpdateFinding | semgrepai/api/routes/findings.py:179-240 | 404 with nothing changed when the row is missing; otherwise that row alone gets the updated triage and is returned |
| FindingRoutes.BulkTriaged | semgrepai/api/routes/findings.py:272-275 | the status and time are always set; the note only when a non-empty note is given; who and assignee are kept |
| FindingRoutes.BulkTriage | semgrepai/api/routes/findings.py:243-283 | 404 for an unknown scan, 404 when no listed id is among its findings, with nothing changed; otherwise exactly the picked rows are triaged, the updated count is their number and the requested count is the list length |
| FindingRoutes.TriageEach | semgrepai/api/routes/findings.py:269-276 | every finding keeps its place; each picked one is bulk-triaged, every other one is unchanged, and the count is the number picked |
| FindingRoutes.RepeatedIdCountedOnce | semgrepai/api/routes/findings.py:260-282 | an id listed twice updates and counts its row once, while the requested count counts both |
| StatsRoute.OneLevel | semgrepai/api/routes/stats.py:43-49 | a severity text falls into at most one of the five levels (ERROR counting as high, WARNING as medium) |
| StatsRoute.CriticalApart | semgrepai/api/routes/stats.py:44-48 | a CRITICAL severity matches no other level's word |
| StatsRoute.HighApart | semgrepai/api/routes/stats.py:45-48 | a HIGH or ERROR severity matches no lower level's word |
| StatsRoute.MediumApart | semgrepai/api/routes/stats.py:46-48 | a MEDIUM or WARNING severity is neither LOW nor INFO |
| StatsRoute.LevelsPartition | semgrepai/api/routes/stats.py:43-59 | the five level counts plus the findings with no level add up to all findings |
| StatsRoute.Sum | semgrepai/api/routes/stats.py:44-48 | SQL `SUM` is NULL over no rows and otherwise counts the matching rows |
| StatsRoute.UnknownAsWritten | semgrepai/api/routes/stats.py:59 | the unknown bucket as written raises exactly when there are no findings |
| StatsRoute.Unknown | semgrepai/api/routes/stats.py:59 | the unknown bucket is the number of findings in no level |
| StatsRoute.UnknownAgreesWhenNotEmpty | semgrepai/api/routes/stats.py:53-60 | with at least one finding the written and the corrected unknown bucket agree |
| StatsRoute.Severities | semgrepai/api/routes/stats.py:53-60 | the six severity buckets add up to the number of findings, unknown being the findings in no level |
| StatsRoute.TriagePartition | semgrepai/api/routes/stats.py:63-69 | the five triage counts add up to all findings |
| StatsRoute.Triages | semgrepai/api/routes/stats.py:73-79 | the triage distribution adds up to the number of findings |
| StatsRoute.Verdicts | semgrepai/api/routes/stats.py:82-96 | each verdict count is at most the number of findings, and all are 0 for no findings |
| StatsRoute.VerdictsSnoc | semgrepai/api/routes/stats.py:82-96 | each verdict count goes up by one for a finding exactly when its verdict text, lower-cased, contains that verdict's phrase |
| StatsRoute.VerdictCountsOverlap | semgrepai/api/routes/stats.py:83-84 | the verdict counts are not a partition: one finding can count as both a true and a false positive |
| StatsRoute.AverageRisk | semgrepai/api/routes/stats.py:99-129 | 0 when no finding has a risk score; otherwise the average over the scored findings |
| StatsRoute.ScoreSumBounds | semgrepai/api/routes/stats.py:99-101 | scores within bounds give a sum within count times those bounds |
| StatsRoute.AverageRiskInRange | semgrepai/api/routes/stats.py:99-101 | with every score between 0 and 10 the average is between 0 and 10 |
| StatsRoute.ScanStatusPartition | semgrepai/api/routes/stats.py:27-33 | the five scan status counts add up to all scans |
| StatsRoute.GetStats | semgrepai/api/routes/stats.py:21-133 | totals; each scan count is the number of scans with that status and the recent count those created in the last seven days; the severity, triage and verdict distributions, the average risk and the count of risk scores of at least 8 are those of the findings; pending, running, completed and failed add up to all scans but the cancelled ones; the severity and triage distributions each add up to the findings; needing review equals the triage bucket; critical findings are scored ones |
| StatsRoute.GetStatsAsWritten | semgrepai/api/routes/stats.py:21-133 | the route as written fails exactly on an empty findings table, and otherwise answers as the corrected route |
| ScanService.BroadcastOverrides | semgrepai/api/services/scan_service.py:193-200 | a broadcast message is the data with `scan_id` and `timestamp` added, overriding any keys of those names, and every other key kept |
| ScanService.Stamped | semgrepai/api/services/scan_service.py:193-200 | one message per event, in order, each addressed to the scan |
| ScanService.StampedConcat | semgrepai/api/services/scan_service.py:193-200 | the messages of two event runs are the messages of the first followed by those of the second |
| ScanService.ScanPhaseOf | semgrepai/api/services/scan_service.py:62-107 | a raising scanner fails the scan with its message; no output or no `json` key means nothing found; results present give the processed findings, or the failure raised while processing them |
| ScanService.Stored | semgrepai/api/services/scan_service.py:143-145 | findings are stored in order until the first that cannot be converted; the stored ones are the conversions of the prefix, and an error is reported exactly when some conversion fails |
| ScanService.StoredStops | semgrepai/api/services/scan_service.py:143-145 | a failing conversion ends the storing loop: nothing after it is stored and its error is the one reported |
| ScanService.StoredBelongToScan | semgrepai/api/services/scan_service.py:143-145 | every stored finding belongs to the scan and starts untriaged |
| ScanService.LastProcessed | semgrepai/api/services/scan_service.py:118-132 | the validated count is the processed count of the last progress update, or unchanged without updates |
| ScanService.FinalScanOutcomes | semgrepai/api/services/scan_service.py:47-172 | a run ends completed or failed with both times set and identity kept; nothing found completes with 0 findings; a scanner error fails with "Semgrep scan failed: "; a validation error fails with "AI validation failed: " and the last progress count; a clean validation completes with the validated count |
| ScanService.AddedFindings | semgrepai/api/services/scan_service.py:143-145 | no finding is added unless the scan found some and validation returned |
| ScanService.UpdateEvents | semgrepai/api/services/scan_service.py:118-128 | one progress message per progress update |
| ScanService.RunEvents | semgrepai/api/services/scan_service.py:52-172 | every run starts with "started" and ends with a completion or an error message |
| ScanService.ScanService.Broadcast | semgrepai/api/services/scan_service.py:193-200 | the message is appended to the messages sent |
| ScanService.ScanService.Save | semgrepai/api/services/scan_service.py:50 | the committed scan replaces its row |
| ScanService.ScanService.ReportProgress | semgrepai/api/services/scan_service.py:118-132 | each progress update is broadcast and the scan's validated count follows the last one |
| ScanService.ScanService.StoreFindings | semgrepai/api/services/scan_service.py:143-145 | the converted findings are appended to the table and the first conversion error returned |
| ScanService.ScanService.CloseValidation | semgrepai/api/services/scan_service.py:143-172 | the scan is closed as completed or failed, the findings are added only when validation returned, and one closing message is sent |
| ScanService.ScanService.Validate | semgrepai/api/services/scan_service.py:87-172 | the issue count, every progress message and the closing message are sent in order; the scan row and findings end as the closing rules say |
| ScanService.ScanService.RunScan | semgrepai/api/services/scan_service.py:28-172 | an unknown or non-pending scan changes nothing; otherwise the scan row ends as `FinalScan`, the findings table grows by exactly the stored findings, and the messages sent are the run's events in order |
| ScanService.ScanService.FinishRun | semgrepai/api/services/scan_service.py:58-172 | after the start, the row, the findings and the messages follow the phase of the run |
| WebSocketManager.Failed | semgrepai/api/routes/websocket.py:43-48 | the failed connections are some of the scan's connections, no more of each than there were |
| WebSocketManager.RemoveEach | semgrepai/api/routes/websocket.py:53-56 | removing each failed connection once takes exactly those occurrences out of the list |
| WebSocketManager.RemoveEachSnoc | semgrepai/api/routes/websocket.py:53-56 | one more failed connection is one more single removal |
| WebSocketManager.FailedCount | semgrepai/api/routes/websocket.py:43-48 | when sends fail per socket, a failing socket is collected once per occurrence and a working one never |
| WebSocketManager.FailedSameOutcomes | semgrepai/api/routes/websocket.py:43-48 | the failures depend only on the outcomes of the sends tried |
| WebSocketManager.FailingSocketsRemoved | semgrepai/api/routes/websocket.py:37-56 | after a broadcast where sends fail per socket, no failing socket is left and every working one is kept as often as before |
| WebSocketManager.ConnectionManager.constructor | semgrepai/api/routes/websocket.py:16-18 | no connections at first |
| WebSocketManager.ConnectionManager.Count | semgrepai/api/routes/websocket.py:58-60 | 0 for an unknown scan, else the length of its list |
| WebSocketManager.ConnectionManager.Connect | semgrepai/api/routes/websocket.py:20-26 | the socket is appended to its scan's list, created if absent; no other scan changes and the count grows by one |
| WebSocketManager.ConnectionManager.Disconnect | semgrepai/api/routes/websocket.py:28-35 | one occurrence is removed and an emptied list deleted; the count falls by one when the socket was there; no empty list remains |
| WebSocketManager.ConnectionManager.BroadcastToScan | semgrepai/api/routes/websocket.py:37-56 | every connection of the scan is sent the message in order; exactly the failed ones are then removed from that scan's list, an emptied list staying; other scans are untouched |
| WebSocketManager.Cleaned | semgrepai/api/routes/websocket.py:51-56 | the cleanup loop removes each failed connection once, if present |
| WebSocketManager.SendAll | semgrepai/api/routes/websocket.py:43-48 | every connection is tried once, in order, and the failed ones collected |
| Progress.ProgressUpdate.Percentage | semgrepai/async_utils/progress.py:44-49 | 0 for an empty total, else processed/total times 100 |
| Progress.AfterStart | semgrepai/async_utils/progress.py:152-157 | starting sets running and the start time and nothing else |
| Progress.AfterUpdate | semgrepai/async_utils/progress.py:159-187 | an absolute count replaces the processed count, else the increment is added; a given item replaces the current one; the metrics are merged with the update winning; total, status, start and error are kept |
| Progress.AfterIncrement | semgrepai/async_utils/progress.py:189-196 | the metric grows by the amount, starting from 0 when absent; no other metric or field changes |
| Progress.Notified | semgrepai/async_utils/progress.py:142-150 | every callback is called once, in order, with the same snapshot, whatever earlier ones raise |
| Progress.InitialState | semgrepai/async_utils/progress.py:102-117 | a new tracker is pending with nothing processed, the six counters at 0, and 0 percent for an empty total |
| Progress.PercentageRange | semgrepai/async_utils/progress.py:44-49 | within the total the percentage is between 0 and 100, and 100 when everything is processed |
| Progress.PercentageNotClamped | semgrepai/async_utils/progress.py:44-49 | a processed count beyond the total gives more than 100 percent |
| Progress.TerminalTransitions | semgrepai/async_utils/progress.py:198-219 | complete, fail and cancel all end in a final status; complete sets processed to the total; fail records the message; fail and cancel overwrite a completed tracker |
| Progress.AbsoluteCountMayDecrease | semgrepai/async_utils/progress.py:176-177 | an absolute update can lower the processed count |
| Progress.IncrementsAdd | semgrepai/async_utils/progress.py:189-196 | two increments of one metric are one increment by their sum |
| Progress.AsyncProgressTracker.constructor | semgrepai/async_utils/progress.py:102-117 | the tracker starts in the initial state with no callbacks |
| Progress.AsyncProgressTracker.AddCallback | semgrepai/async_utils/progress.py:133-135 | the callback is appended |
| Progress.AsyncProgressTracker.RemoveCallback | semgrepai/async_utils/progress.py:137-140 | the first occurrence is removed, if any |
| Progress.AsyncProgressTracker.NotifyCallbacks | semgrepai/async_utils/progress.py:142-150 | every callback receives the current snapshot |
| Progress.AsyncProgressTracker.Start | semgrepai/async_utils/progress.py:152-157 | the state moves as `AfterStart` says and the callbacks are notified of the new state |
| Progress.AsyncProgressTracker.Update | semgrepai/async_utils/progress.py:159-187 | the state moves as `AfterUpdate` says and the callbacks are notified |
| Progress.AsyncProgressTracker.IncrementMetric | semgrepai/async_utils/progress.py:189-196 | the state moves as `AfterIncrement` says and the callbacks are notified |
| Progress.AsyncProgressTracker.Complete | semgrepai/async_utils/progress.py:198-204 | completed, processed set to the total, no current item; callbacks notified |
| Progress.AsyncProgressTracker.Fail | semgrepai/async_utils/progress.py:206-212 | failed with the message, no current item; callbacks notified |
| Progress.AsyncProgressTracker.Cancel | semgrepai/async_utils/progress.py:214-219 | cancelled, no current item; callbacks notified |
| Progress.MultiProgressTracker.constructor | semgrepai/async_utils/progress.py:239-241 | no trackers at first |
| Progress.MultiProgressTracker.CreateTracker | semgrepai/async_utils/progress.py:243-248 | a fresh tracker in the initial state is stored under the scan id, replacing any earlier one |
| Progress.MultiProgressTracker.GetTracker | semgrepai/async_utils/progress.py:250-252 | the scan's tracker exactly when there is one |
| Progress.MultiProgressTracker.RemoveTracker | semgrepai/async_utils/progress.py:254-257 | the scan's tracker is dropped; an unknown id changes nothing |
| Progress.MultiProgressTracker.GetAllUpdates | semgrepai/async_utils/progress.py:259-264 | one snapshot per tracked scan |
| RateLimiter.BaseBackoff | semgrepai/async_utils/rate_limiter.py:107-110 | the delay before jitter is base times 2^attempt, capped at the maximum delay |
| RateLimiter.CalculateBackoff | semgrepai/async_utils/rate_limiter.py:105-113 | without jitter the delay is the capped exponential one |
| RateLimiter.BackoffCappedAndMonotone | semgrepai/async_utils/rate_limiter.py:105-113 | without jitter the delay never exceeds the cap and never shrinks from one attempt to the next |
| RateLimiter.JitterBounds | semgrepai/async_utils/rate_limiter.py:111-112 | jitter adds between 0 and 10 percent of the capped delay |
| RateLimiter.AttemptsAndSleeps | semgrepai/async_utils/rate_limiter.py:133-156 | at most max_retries attempts, with one sleep between consecutive attempts and none after the last |
| RateLimiter.RunMakesAnAttempt | semgrepai/async_utils/rate_limiter.py:135-138 | with at least one retry allowed the operation is tried |
| RateLimiter.FirstSuccessWins | semgrepai/async_utils/rate_limiter.py:135-141 | corrected (see Findings; a fresh awaitable per attempt): after retried failures, the first success is returned, having used one attempt per failure plus one |
| RateLimiter.NeverReturns | semgrepai/async_utils/rate_limiter.py:135-156 | when every attempt raises, the loop never returns a value |
| RateLimiter.AwaitedReturnsOnlyFirst | semgrepai/async_utils/rate_limiter.py:135-141 | retrying one awaitable returns a value exactly when at least one attempt is allowed and the first await produced that value |
| RateLimiter.AwaitedFailureRetried | semgrepai/async_utils/rate_limiter.py:135-156 | after a retried first failure the second await raises the reuse exception: retried, it exhausts max_retries and MaxRetriesExceeded is chained to it; not retried, it escapes from the second attempt |
| RateLimiter.ReusedCoroutineNeverRecovers | semgrepai/async_utils/rate_limiter.py:171-180 | as written: with the defaults, a call whose first run times out fails after three attempts with the reuse error, while fresh coroutines succeeding on the second attempt would return |
| RateLimiter.AlwaysFailing | semgrepai/async_utils/rate_limiter.py:133-156 | when every attempt raises a retried exception, exactly max_retries attempts are made, the sleeps follow the backoff of attempts 0, 1, ..., and MaxRetriesExceeded is raised from the last exception |
| RateLimiter.NoRetriesNoAttempt | semgrepai/async_utils/rate_limiter.py:135-156 | with max_retries at most 0 nothing is tried and MaxRetriesExceeded is raised without a cause |
| RateLimiter.NonRetryablePropagates | semgrepai/async_utils/rate_limiter.py:136-139 | an exception that is not retried escapes from the first attempt unchanged |
| RateLimiter.AsyncRateLimiter.constructor | semgrepai/async_utils/rate_limiter.py:72-80 | the given configuration or the default one, and no requests counted |
| RateLimiter.AsyncRateLimiter.Enter | semgrepai/async_utils/rate_limiter.py:82-88 | entering counts one request |
| RateLimiter.AsyncRateLimiter.Exit | semgrepai/async_utils/rate_limiter.py:90-93 | leaving never suppresses an exception |
| RateLimiter.AsyncRateLimiter.ExecuteWithRetry | semgrepai/async_utils/rate_limiter.py:115-156 | the result and the sleeps are those of the retry loop over the one awaitable awaited on every attempt, one request is counted per attempt, and a value is returned only when the first await produced it |
| RateLimiter.AsyncRateLimiter.RetryLoop | semgrepai/async_utils/rate_limiter.py:133-156 | for any sequence of per-attempt outcomes, the loop returns, propagates, or gives up exactly as the retry function says, with its backoff sleeps and one counted request per attempt |
| Cache.CacheFile.constructor | semgrepai/cache.py:21 | the cache file holds the given content, or is absent |
| Cache.Loaded | semgrepai/cache.py:27-36 | a missing or malformed file loads as an empty cache, a JSON object as its entries |
| Cache.ValidationCache.constructor | semgrepai/cache.py:11-25 | the settings are kept, the operation count is 0 and the cache is what the file loads as |
| Cache.ValidationCache.Get | semgrepai/cache.py:43-54 | the stored value exactly when the key is present |
| Cache.ValidationCache.Save | semgrepai/cache.py:38-41 | the file then holds the whole cache |
| Cache.ValidationCache.Set | semgrepai/cache.py:56-64 | the key maps to the value and the file is rewritten with the whole cache |
| Cache.ValidationCache.Clear | semgrepai/cache.py:66-70 | the cache is emptied and the file removed |
| Cache.SetThenGet | semgrepai/cache.py:43-64 | a value set is read back, a second set overwrites it, and other keys are unaffected |
| Cache.RestartSeesSetValue | semgrepai/cache.py:11-64 | a cache opened on the file after a set sees the value |
| Cache.ClearForgetsEverything | semgrepai/cache.py:27-70 | after clear a key is gone, also for a cache opened afterwards |
| Metrics.Mean | semgrepai/metrics.py:34-69 | 0 for no samples, else the sum divided by the number of samples |
| Metrics.MeanBounds | semgrepai/metrics.py:34-69 | the mean of samples within bounds is within those bounds |
| Metrics.Rate | semgrepai/metrics.py:41-55 | 0 when both counts are 0, else the first count's share of both in percent; always between 0 and 100, and 100 when only the first is non-zero |
| Metrics.ValidationMetrics.constructor | semgrepai/metrics.py:13-25 | all counters 0, no samples, started now and not ended |
| Metrics.ValidationMetrics.TotalTime | semgrepai/metrics.py:27-32 | end minus start once a non-zero end time is set, else now minus start |
| Metrics.ValidationMetrics.ToDict | semgrepai/metrics.py:71-87 | exactly the thirteen metric keys, with the counters and the derived rates |
| Metrics.Classify | semgrepai/metrics.py:129-136 | no validation is an error; a validation that is not a dictionary raises; otherwise a true positive exactly when `is_true_positive` is truthy, else a false positive |
| Metrics.ValidatedCountsAsFalsePositive | semgrepai/metrics.py:131-134 | a validation as the validator writes it has no `is_true_positive` key and so always counts as a false positive |
| Metrics.MetricsCollector.constructor | semgrepai/metrics.py:90-97 | a fresh metrics record with nothing counted |
| Metrics.MetricsCollector.RecordFinding | semgrepai/metrics.py:123-136 | one more processed finding and processing time, and one more true positive, false positive or error as the finding classifies; it raises only for a validation that is not a dictionary; nothing else changes |
| Metrics.MetricsCollector.RecordCacheHit | semgrepai/metrics.py:138-141 | one more cache hit and nothing else |
| Metrics.MetricsCollector.RecordCacheMiss | semgrepai/metrics.py:143-146 | one more cache miss and nothing else |
| Metrics.MetricsCollector.MonitorTick | semgrepai/metrics.py:103-117 | the monitor stops once the session has ended, else records one memory and one CPU sample; no counter changes |
| Metrics.MetricsCollector.CompleteSession | semgrepai/metrics.py:148-151 | the end time is set and no counter changes |
| Metrics.RecordAll | semgrepai/metrics.py:123-136 | recording findings one by one counts each once and keeps the processing times in order |
| Configuration.DeepMerged | semgrepai/config.py:136-146 | keys of both; base-only keys kept; an update replaces a key unless both values are dictionaries, which are merged recursively |
| Configuration.MergeSelf | semgrepai/config.py:136-146 | merging a dictionary into itself changes nothing |
| Configuration.DeepMergedIdempotent | semgrepai/config.py:136-146 | applying the same update twice is applying it once |
| Configuration.MergeOneMore | semgrepai/config.py:138-146 | each key of the update loop merges independently of the others |
| Configuration.DeepUpdate | semgrepai/config.py:136-146 | the in-place loop over the update's keys produces the deep merge |
| Configuration.FirstDefault | semgrepai/config.py:103-109 | the first default path, expanded, that exists; none exactly when none exists |
| Configuration.FirstDefaultAt | semgrepai/config.py:103-109 | the first existing default path is the one chosen |
| Configuration.ConfigData | semgrepai/config.py:91-109 | a non-empty explicit file wins; otherwise the first existing default file is read, whatever it holds; otherwise nothing |
| Configuration.LoadedConfig | semgrepai/config.py:91-111 | empty data gives the default configuration, a dictionary is used as is, anything else is an error |
| Configuration.EmptyDefaultStopsSearch | semgrepai/config.py:104-109 | an existing but empty first default file ends the search with the defaults, later files unread |
| Configuration.LoadConfig | semgrepai/config.py:91-111 | the loading steps give the loaded configuration |
| Configuration.ConfigManager.constructor | semgrepai/config.py:88-89 | the manager holds the configuration given |
| Configuration.ConfigManager.UpdateConfig | semgrepai/config.py:130-134 | the configuration becomes its deep merge with the updates, every updated key present |
| Configuration.NewConfigManager | semgrepai/config.py:88-111 | a manager exists exactly when loading succeeds, holding the loaded configuration |
| Configuration.IntField | semgrepai/config.py:16-17 | a missing key takes the default, and a present one must be an integer |
| Configuration.OptionalIntField | semgrepai/config.py:16 | a missing key takes the default, and a present one must be an integer or null |
| Configuration.OptionalTextField | semgrepai/llm/providers.py:15-16 | a missing or null key gives no text, and a present one must be text or null |
| Configuration.FloatField | semgrepai/llm/providers.py:13 | a missing key takes the default, a present one must be a number, and an integer is widened |
| Configuration.ProviderConfigOf | semgrepai/llm/providers.py:9-17 | a provider section loads only when it is a dictionary with a text model; the provider is one of the four known ones, openai when absent, and an unknown one is rejected |
| Configuration.ProviderDumpLoads | semgrepai/llm/providers.py:9-17 | a dumped provider configuration with a known provider loads back as itself |
| Configuration.LLMConfigOf | semgrepai/config.py:7-17 | with nothing set the section is the openai gpt-4 provider at temperature 0, cache `.cache/llm`, 4 workers, batches of 10; a given provider sub-section is loaded as a provider configuration and its failure fails the section |
| Configuration.BatchUpdateKeepsWorkers | semgrepai/config.py:130-146 | updating the batch size sets it and leaves the worker count as it was |
| Parallel.WorkItem.constructor | semgrepai/parallel.py:15-21 | a work item starts with its input, no result, no error and no times |
| Parallel.WorkItem.ProcessingTime | semgrepai/parallel.py:23-27 | end minus start when both times are set and non-zero, else 0; never negative when the end is not before the start |
| Parallel.WorkItem.Snapshot | semgrepai/parallel.py:15-27 | the item's input, result, error and processing time |
| Parallel.WorkItem.Process | semgrepai/parallel.py:52-61 | both times are stamped; an exception is recorded as the error with no result, otherwise the result is the function's value |
| Parallel.Ran | semgrepai/parallel.py:52-61 | a processed item keeps its input, has an error exactly when the function raised, and a non-negative time |
| Parallel.Pending | semgrepai/parallel.py:66-84 | the futures still waited for are positions of the batch |
| Parallel.PendingSnoc | semgrepai/parallel.py:79-84 | a completion removes every pending future whose input equals the completed input |
| Parallel.PendingNotDone | semgrepai/parallel.py:72-84 | a future still pending has not yet completed |
| Parallel.ProcessBatch | semgrepai/parallel.py:35-86 | one fresh work item per input, in input order, each processed as `Ran` says; the progress advances until no future is pending and at most once per item |
| Parallel.SubmitAll | semgrepai/parallel.py:45-69 | one fresh, distinct work item per input, each processed as `Ran` says |
| Parallel.WaitAll | semgrepai/parallel.py:72-84 | the wait loop ends once nothing is pending, having advanced at most once per item |
| Parallel.DistinctInputsAdvanceEach | semgrepai/parallel.py:79-84 | with distinct inputs every completion removes a pending future |
| Parallel.DistinctInputsAdvanceAll | semgrepai/parallel.py:72-84 | with distinct inputs the progress advances once per item |
| Parallel.EqualInputsAdvanceOnce | semgrepai/parallel.py:79-84 | two equal inputs are both removed by the first completion, so the progress advances once for two items |
| Parallel.Annotated | semgrepai/parallel.py:118-119 | a successful finding gains `ai_validation` and `processing_time` and keeps every other key |
| Parallel.CollectOne | semgrepai/parallel.py:108-131 | a failed item gives back the original finding, a successful one the annotated finding; a finding without `rule_id` raises |
| Parallel.CollectedFindings | semgrepai/parallel.py:107-133 | collection succeeds exactly when every finding has a `rule_id`, giving one finding per item in order, original or annotated |
| Parallel.CollectedErrSticks | semgrepai/parallel.py:107-133 | the first exception ends the collection |
| Parallel.Snapshots | semgrepai/parallel.py:108 | one snapshot per work item, in order |
| Parallel.ProcessFindings | semgrepai/parallel.py:93-133 | the collection loop over the work items gives the corrected collection |
| Parallel.CollectOneAsWritten | semgrepai/parallel.py:117-131 | as written, a successful item whose result lacks `is_true_positive` raises; otherwise it agrees with the corrected step |
| Parallel.StatusKeyNotAdded | semgrepai/validator.py:357-446 | the validator never writes an `is_true_positive` key |
| Parallel.ValidatedLacksStatus | semgrepai/validator.py:357-446 | a validation result has no `is_true_positive` key unless the finding brought one |
| Parallel.StatusRaisesFirst | semgrepai/parallel.py:117-127 | a first successful item without the key makes the whole collection raise KeyError |
| Parallel.AsWrittenErrSticks | semgrepai/parallel.py:107-133 | as written, the first exception also ends the collection |
| Parallel.ValidatedFindingRaises | semgrepai/parallel.py:93-137 | collecting findings validated by the validator raises KeyError `is_true_positive` |
| Parallel.ValidatedFindingsCollected | semgrepai/parallel.py:93-137 | with the corrected step, findings validated by the validator are all collected, each with its `ai_validation` |
| Scanner.CleanPath | semgrepai/scanner.py:136 | `lstrip('./')` removes the longest prefix made only of '.' and '/' characters, leaving a text that does not start with either |
| Scanner.CleanPathStripsDotFile | semgrepai/scanner.py:136 | the strip treats its argument as a character set, so ".env" becomes "env" |
| Scanner.CleanPathDropsParent | semgrepai/scanner.py:136 | "../a" becomes "a": a parent reference is dropped, not resolved |
| Scanner.CleanPathAfterJunk | semgrepai/scanner.py:136 | any run of '.' and '/' in front of a path that starts with neither is removed, and nothing more |
| Scanner.StripStop | semgrepai/scanner.py:136 | a path not starting with '.' or '/' is unchanged |
| Scanner.StripStep | semgrepai/scanner.py:136 | a leading '.' or '/' is removed and the strip goes on |
| Scanner.CleanPathIdempotent | semgrepai/scanner.py:136 | stripping twice is stripping once |
| Scanner.Resolve | semgrepai/scanner.py:127-142 | the file found always exists: an absolute path is kept when it exists; a relative one is taken from the working directory when it exists there, else its stripped form when that exists; nothing is found exactly when the file looked up does not exist |
| Scanner.LineNumber | semgrepai/scanner.py:169 | a line number is padded to at least four characters and followed by " \| " |
| Scanner.LineNumberLayout | semgrepai/scanner.py:169 | the prefix is the decimal digits of the line number, which read back as that number, right-aligned with spaces to width four, then " \| " |
| Scanner.MarkedIffFlagged | semgrepai/scanner.py:170-173 | a numbered line starts with ">>> " exactly when it is flagged |
| Scanner.NumberedLine | semgrepai/scanner.py:170-173 | flagged lines start with ">>> ", others with four spaces |
| Scanner.SnippetLines | semgrepai/scanner.py:159-175 | one numbered line per line of the window |
| Scanner.SnippetWindow | semgrepai/scanner.py:153-175 | the window covers the flagged lines with at most ten lines of context on each side, and a line is marked ">>>" exactly when it is flagged |
| Scanner.FromFile | semgrepai/scanner.py:153-175 | "Invalid start line: n" exactly when the start is outside the file |
| Scanner.SnippetNotInvalid | semgrepai/scanner.py:153-175 | a valid window never reads as the invalid-line message |
| Scanner.Given | semgrepai/scanner.py:111-113 | code is used when it is truthy and not exactly "requires login" (compared before stripping), and is then stripped |
| Scanner.ExtractCode | semgrepai/scanner.py:108-178 | the result's own code wins, then `extra.lines` (a non-dictionary `extra` raises), then the file; no path gives "No file path available"; when the file is reached the text is always returned, failures included |
| Scanner.ExtractFromFile | semgrepai/scanner.py:140-175 | from a readable file the code is the numbered window around the start line and the end line, or the start line again when the end line is out of range |
| Scanner.ExtractMissingFile | semgrepai/scanner.py:141-142 | a path naming no existing file gives "File not found: " and the path |
| Scanner.GivenCodeIgnoresDisk | semgrepai/scanner.py:111-113 | a result carrying its own code never depends on the disk |
| Scanner.Dicts | semgrepai/scanner.py:218-244 | a list of dictionaries is read as those dictionaries, in order |
| Scanner.Entries | semgrepai/scanner.py:219-243 | a missing key gives no entries |
| Scanner.ExtractDataflow | semgrepai/scanner.py:216-226 | one step per trace entry with exactly location, content and type, the type copied |
| Scanner.ExtractSecurityPatterns | semgrepai/scanner.py:240-249 | one pattern per entry with its pattern and severity |
| Scanner.References | semgrepai/scanner.py:232-237 | every reference converts, or the first failure is raised; one reference per entry |
| Scanner.ExtractReferences | semgrepai/scanner.py:228-238 | no related locations give no references; otherwise one per location with path, start line and snippet |
| Scanner.SubDict | semgrepai/scanner.py:186-196 | a missing key reads as an empty dictionary |
| Scanner.MetadataRecord | semgrepai/scanner.py:201-210 | exactly the eight metadata keys, with their defaults ("UNKNOWN" confidence, empty CWE list, ...) |
| Scanner.Gathered | semgrepai/scanner.py:185-200 | the parts of a finding are the extracted code, start and extra |
| Scanner.FindingOf | semgrepai/scanner.py:191-211 | a finding has exactly the ten finding keys |
| Scanner.FindingOfSource | semgrepai/scanner.py:192-196 | rule id from `check_id`, path from `path`, severity "UNKNOWN", message "" and line 0 by default |
| Scanner.FindingOfContent | semgrepai/scanner.py:197-211 | the finding carries the extracted code, dataflow, references, security patterns and the metadata record |
| Scanner.Normalize | semgrepai/scanner.py:184-212 | a result normalises exactly when its parts can be gathered, into the finding record of those parts |
| Scanner.BareResultDefaults | semgrepai/scanner.py:191-211 | a result with only its code gets every default |
| Scanner.ProcessResults | semgrepai/scanner.py:180-214 | every result normalises, or the first failure is raised; one finding per result, in order |
| Scanner.EachOk | semgrepai/scanner.py:184-212 | mapping a fallible step over a list succeeds exactly when every step does |
| Scanner.ProcessRawResults | semgrepai/scanner.py:180-184 | no `json` output raises KeyError; a `json` output without results gives no findings |
| CodeAnalyzer.Lookup | semgrepai/analyzers/code_analyzer.py:520-525 | a variable found by name carries that name and is in the table; none found means no entry has the name |
| CodeAnalyzer.Store | semgrepai/analyzers/code_analyzer.py:527 | after storing, the name maps to the new entry and every other name maps to what it did before |
| CodeAnalyzer.StoreKeepsDistinct | semgrepai/analyzers/code_analyzer.py:527 | the variables table stays a dictionary (one entry per name) |
| CodeAnalyzer.Flow | semgrepai/analyzers/code_analyzer.py:59-66 | a dataflow entry holds type, description, line and every extra detail, the details winning on a clash |
| CodeAnalyzer.CodeContext.constructor | semgrepai/analyzers/code_analyzer.py:29-57 | every given field is kept and every absent collection becomes empty |
| CodeAnalyzer.CodeContext.AddDataflow | semgrepai/analyzers/code_analyzer.py:59-67 | exactly one entry is appended to the dataflow and nothing else changes |
| CodeAnalyzer.ExtractCodeSnippet | semgrepai/analyzers/code_analyzer.py:222-254 | missing file gives "File not found", a read error its message, an empty file "Empty file", otherwise the window lines joined by newlines |
| CodeAnalyzer.SnippetWindow | semgrepai/analyzers/code_analyzer.py:236-247 | the window has at most 2·ctx+1 lines, holds every existing line within ctx of the flagged one, and marks exactly the flagged line with "> " |
| CodeAnalyzer.SnippetMarker | semgrepai/analyzers/code_analyzer.py:242-245 | a snippet line starts with "> " exactly when it is the flagged line |
| CodeAnalyzer.LineAt | semgrepai/analyzers/code_analyzer.py:730 | the line of an offset lies between 1 and the number of lines |
| CodeAnalyzer.LineAtStep | semgrepai/analyzers/code_analyzer.py:730 | moving one character on raises the line exactly when that character is a newline |
| CodeAnalyzer.LineAtMonotone | semgrepai/analyzers/code_analyzer.py:730 | later offsets are never on earlier lines |
| CodeAnalyzer.SplitLines | semgrepai/analyzers/code_analyzer.py:734 | the number of lines is the number of newlines, plus one unless the text ends in a newline |
| CodeAnalyzer.MatchLineExists | semgrepai/analyzers/code_analyzer.py:730-734 | the line of any match offset is a valid index into the file's lines |
| CodeAnalyzer.PatternEntry | semgrepai/analyzers/code_analyzer.py:729-735 | a match entry has pattern, line and content, its line being that of the match offset |
| CodeAnalyzer.PatternEntries | semgrepai/analyzers/code_analyzer.py:727-757 | one entry per match, in match order |
| CodeAnalyzer.Slashed | semgrepai/analyzers/code_analyzer.py:640-644 | the module path is the dotted name with every dot turned into a slash |
| CodeAnalyzer.ModulePathSlashed | semgrepai/analyzers/code_analyzer.py:640-644 | splitting on dots and joining with slashes is the same as replacing dots by slashes |
| CodeAnalyzer.ImportCandidates | semgrepai/analyzers/code_analyzer.py:643-649 | the candidates are the .py file, the .pyi file and the package's __init__.py, in that order |
| CodeAnalyzer.FirstFile | semgrepai/analyzers/code_analyzer.py:643-653 | the first existing candidate is returned, none exactly when no candidate exists |
| CodeAnalyzer.FindImportFile | semgrepai/analyzers/code_analyzer.py:638-653 | the result is the earliest existing candidate, or None exactly when none of the three exists |
| CodeAnalyzer.ModuleFileFirst | semgrepai/analyzers/code_analyzer.py:643-646 | a .py file wins over a .pyi file, which wins over a package |
| CodeAnalyzer.Qualified | semgrepai/analyzers/code_analyzer.py:442-443 | one "module.name" import per imported name, in order |
| CodeAnalyzer.AnalyzeImportFrom | semgrepai/analyzers/code_analyzer.py:439-443 | with a non-empty module the qualified names are appended; otherwise the imports are unchanged |
| CodeAnalyzer.VisitImportFrom | semgrepai/analyzers/code_analyzer.py:306-310 | the visitor always appends, using an empty module for a relative import |
| CodeAnalyzer.RelativeImportEntries | semgrepai/analyzers/code_analyzer.py:306-310 | for a relative import the visitor records ".name" where the analyzer step records nothing |
| CodeAnalyzer.CallSource | semgrepai/analyzers/code_analyzer.py:511-517 | a call is a user-input source exactly when its callee text matches a user-input pattern, and the source is that text |
| CodeAnalyzer.Inherit | semgrepai/analyzers/code_analyzer.py:519-525 | taint is inherited exactly when some tainted variable's name occurs in the value text, its source coming from the last such variable |
| CodeAnalyzer.AssignedInfo | semgrepai/analyzers/code_analyzer.py:490-525 | a literal is stored with its type and is untainted; any other value is stored as its text, tainted exactly by a user-input call or an earlier tainted variable |
| CodeAnalyzer.AssignOne | semgrepai/analyzers/code_analyzer.py:490-537 | a name target is stored, other names keep their entries, and an assignment entry is added exactly when the target is tainted |
| CodeAnalyzer.AssignAll | semgrepai/analyzers/code_analyzer.py:488-537 | the table stays a dictionary and at most one dataflow entry per target is appended |
| CodeAnalyzer.LiteralNeverTaints | semgrepai/analyzers/code_analyzer.py:501-530 | assigning a literal never adds a dataflow entry |
| CodeAnalyzer.TaintPassesOn | semgrepai/analyzers/code_analyzer.py:519-525 | a value mentioning one tainted variable is tainted with that variable's source |
| CodeAnalyzer.AssignmentTaint | semgrepai/analyzers/code_analyzer.py:508-525 | the taint loop computes the call source first, then inheritance from the variables in table order |
| CodeAnalyzer.AssignTarget | semgrepai/analyzers/code_analyzer.py:491-537 | one target's step updates the variables and dataflow as AssignOne says |
| CodeAnalyzer.AnalyzeAssignment | semgrepai/analyzers/code_analyzer.py:488-537 | the whole statement updates the variables and dataflow as AssignAll says, keeping one entry per name |
| CodeAnalyzer.DependencyFor | semgrepai/analyzers/code_analyzer.py:542-558 | a dependency entry is made exactly for a name target whose value mentions at least one name, listing those names |
| CodeAnalyzer.NameCount | semgrepai/analyzers/code_analyzer.py:542-543 | at most one name target per target |
| CodeAnalyzer.DependenciesCount | semgrepai/analyzers/code_analyzer.py:539-558 | with the loop variable kept apart, there is one dependency entry per name target when the value mentions a name, and none otherwise |
| CodeAnalyzer.AnalyzeDataflow | semgrepai/analyzers/code_analyzer.py:539-558 | corrected (see Findings; the code as written is AnalyzeDataflowAsWritten): the dependency entries of every name target are appended |
| CodeAnalyzer.DependenciesAsWritten | semgrepai/analyzers/code_analyzer.py:539-560 | as written, at most one entry is produced, and none without a name target |
| CodeAnalyzer.AsWrittenStopsAfterFirstName | semgrepai/analyzers/code_analyzer.py:546-560 | as written, the targets after the first name target contribute nothing |
| CodeAnalyzer.AnalyzeDataflowAsWritten | semgrepai/analyzers/code_analyzer.py:539-560 | as written, the step appends what DependenciesAsWritten gives |
| CodeAnalyzer.ChainedAssignmentLosesTarget | semgrepai/analyzers/code_analyzer.py:546-550 | for `a = b = x` the code as written records one dependency where two are meant |
| Validator.CacheKey | semgrepai/validator.py:148-157 | a key exists exactly when all four parts are text (the join raises otherwise) |
| Validator.EmptyFindingKey | semgrepai/validator.py:151-157 | a finding with none of the fields has the key made of three bars and nothing else |
| Validator.CacheKeySplits | semgrepai/validator.py:151-157 | when no part holds a bar, splitting the key on bars gives back rule, path, line and message |
| Validator.CacheKeyInjective | semgrepai/validator.py:148-157 | two such findings share a key only when all four parts agree |
| Validator.FlowLines | semgrepai/validator.py:178-197 | one "Line n: description" line per flow |
| Validator.Kinds | semgrepai/validator.py:166-167 | the kinds of the flows, one per flow, in order |
| Validator.Others | semgrepai/validator.py:192-194 | the remaining kinds are exactly the kinds other than url_operation, assignment and call |
| Validator.OthersKeepDistinct | semgrepai/validator.py:193-194 | each remaining kind is listed once |
| Validator.GroupOrderLists | semgrepai/validator.py:174-197 | every kind that occurs gets exactly one block |
| Validator.BlocksLength | semgrepai/validator.py:172-197 | the output has one header per block plus the sizes of the blocks' groups |
| Validator.GroupSizesCover | semgrepai/validator.py:165-170 | groups over distinct kinds covering every flow hold every flow exactly once |
| Validator.DataflowLineCount | semgrepai/validator.py:159-199 | the text has one line per flow and one header per kind, so no flow is lost or repeated |
| Validator.GroupByType | semgrepai/validator.py:165-170 | the grouping holds, for each kind in order of first appearance, the flows of that kind in order |
| Validator.AppendGroup | semgrepai/validator.py:176-178 | a block is its header followed by its flows' lines |
| Validator.EmitLeading | semgrepai/validator.py:174-190 | url operations, then assignments, then calls, each only when present |
| Validator.EmitOthers | semgrepai/validator.py:192-197 | the other kinds follow in order of first appearance |
| Validator.FormatDataflow | semgrepai/validator.py:159-199 | no flows give "No dataflow found"; otherwise the blocks joined by newlines |
| Validator.ErrorValidation | semgrepai/validator.py:418-446 | the error record is the default record with verdict "Error" and the given justification |
| Validator.PartsRoundTrip | semgrepai/validator.py:425-438 | the nested impact, vulnerability and technical records read back as written |
| Validator.ListsRoundTrip | semgrepai/validator.py:440-444 | the four list fields read back as written |
| Validator.TextsRoundTrip | semgrepai/validator.py:421-440 | the verdict, justification, poc, confidence and risk score read back as written |
| Validator.NestedRoundTrip | semgrepai/validator.py:420-438 | the verdict flag and nested records are present and read back as written |
| Validator.ValidationValueRoundTrip | semgrepai/validator.py:420-446 | the validation record stored in a finding reads back to the same record |
| Validator.Section | semgrepai/validator.py:503-506 | a section is present exactly when captured, and its value is the stripped capture |
| Validator.ConfidenceScore | semgrepai/validator.py:513 | High, Medium and Low map to 0.9, 0.6 and 0.3, anything else to 0.0 |
| Validator.NonBlank | semgrepai/validator.py:537 | the kept items are stripped and non-empty, never more than the lines |
| Validator.SectionItems | semgrepai/validator.py:537-543 | a list section becomes its stripped non-empty lines |
| Validator.SectionItemsRoundTrip | semgrepai/validator.py:537-543 | clean items written one per line are read back unchanged |
| Validator.ParseValidation | semgrepai/validator.py:448-545 | no sections give the defaults; is_valid is unset exactly without a verdict and true exactly for the verdict "true positive" in any case; confidence is one of four values; list items are clean |
| Validator.WithContextDefaults | semgrepai/validator.py:367-372 | the context keys are added with their defaults and every existing key is kept |
| Validator.Present | semgrepai/validator.py:377-386 | only the truthy metadata fields produce lines |
| Validator.MetaLines | semgrepai/validator.py:377-386 | one line per present field, each starting with its heading |
| Validator.MetadataLines | semgrepai/validator.py:375-386 | metadata that is not a dictionary raises; otherwise one line per present field |
| Validator.Assess | semgrepai/validator.py:374-406 | non-dictionary metadata fails before the model is called; success needs the metadata lines |
| Validator.Record | semgrepai/validator.py:412-420 | the outcome is stored under ai_validation, the time only on success, every other key unchanged |
| Validator.RecordStoresOutcome | semgrepai/validator.py:412-446 | the stored record is the model's validation, or the error record "Error during validation: " + message |
| Validator.ValidateSingleFinding | semgrepai/validator.py:357-446 | the result always has ai_validation and the context keys, and keeps every prepared field |
| Validator.SingleFindingKeys | semgrepai/validator.py:363-414 | missing context keys take their defaults and no other key is added besides ai_validation and processing_time |
| Validator.ResultKeysNotContext | semgrepai/validator.py:367-414 | the result keys are not context keys |
| Validator.SingleFindingError | semgrepai/validator.py:357-446 | a failure stores the error record with its message; success stores the validation and the time |
| Validator.ModelFailureRecorded | semgrepai/validator.py:389-446 | when the model raises, the verdict is "Error", confidence 0.0, risk 0 and is_valid unset |
| Validator.ProcessBatch | semgrepai/validator.py:336-355 | one result per finding, in order: the validated finding, or the original when validation raised |
| Validator.BatchAllValidated | semgrepai/validator.py:339-446 | with the real step every finding of a batch comes back with a readable validation |
| Validator.ChunksOf | semgrepai/validator.py:301-302 | every batch is non-empty and at most batch_size long |
| Validator.Batches | semgrepai/validator.py:301-302 | batch_size 0 raises, a negative one gives no batches |
| Validator.ChunksCover | semgrepai/validator.py:301-302 | the batches concatenate back to the findings |
| Validator.ChunksCount | semgrepai/validator.py:301-302 | the number of batches is the ceiling of findings over batch size |
| Validator.ChunksFull | semgrepai/validator.py:301-302 | every batch but the last is full |
| Validator.SliceBatches | semgrepai/validator.py:301-304 | the slicing loop produces exactly those batches |
| Validator.MapProcessed | semgrepai/validator.py:336-355 | one result per finding of the batch |
| Validator.CollectBatches | semgrepai/validator.py:293-319 | batch_size 0 raises; otherwise the results of the batches that did not raise, in completion order |
| Validator.CollectedInOrder | semgrepai/validator.py:301-310 | batches collected in submission order are the steps of their concatenation |
| Validator.OneResultPerFinding | semgrepai/validator.py:256-334 | in submission order with no failure, one result per finding, in input order |
| Validator.ProcessFindingsLocal | semgrepai/validator.py:701-742 | results in completion order until shutdown: a truthy result, nothing for an empty one, the original for a raising call |
| Validator.LocalAllRaised | semgrepai/validator.py:730-744 | when every call raises, the originals come back in completion order |
| Validator.LocalAllRaisedKeepsAll | semgrepai/validator.py:701-744 | so without shutdown every finding comes back, and nothing else |
| ValidationStatistics.Start | semgrepai/validator.py:596-611 | a fresh counter lists its keys once, each counted |
| ValidationStatistics.Bump | semgrepai/validator.py:621-639 | counting one more value keeps each key listed once |
| ValidationStatistics.Tally | semgrepai/validator.py:616-639 | counting a sequence keeps each key listed once |
| ValidationStatistics.TallyCounts | semgrepai/validator.py:621-639 | a key is counted exactly when it started counted or occurs, and its count is its start plus its occurrences |
| ValidationStatistics.Items | semgrepai/validator.py:643-684 | one item per key, in insertion order |
| ValidationStatistics.ReadFinding | semgrepai/validator.py:617-639 | a readable verdict can be counted; a finding without ai_validation reads as an Error verdict with every other part unknown |
| ValidationStatistics.ReadValidated | semgrepai/validator.py:617-639 | a finding carrying a validation record reads back its verdict, risk, impact levels and primary category |
| ValidationStatistics.Readings | semgrepai/validator.py:616-639 | one reading per finding, or the first failure |
| ValidationStatistics.VerdictsOf | semgrepai/validator.py:620 | the verdict of each finding, in order |
| ValidationStatistics.Known | semgrepai/validator.py:632-638 | exactly the values other than "Unknown" are kept |
| ValidationStatistics.RiskScores | semgrepai/validator.py:624-626 | only positive risk scores are collected |
| ValidationStatistics.GatherSnoc | semgrepai/validator.py:616-639 | counting one more finding is one more step of the loop |
| ValidationStatistics.GatherStatistics | semgrepai/validator.py:616-639 | the loop fails exactly when some finding cannot be read, with the exception of the first such finding, and otherwise gathers the counts of all readings |
| ValidationStatistics.ReadingsStop | semgrepai/validator.py:616-639 | after readable findings, the first finding that cannot be read gives the loop its exception |
| ValidationStatistics.ReadingsErrPropagates | semgrepai/validator.py:616-639 | a failure on an earlier finding is the failure of the whole loop |
| ValidationStatistics.VerdictCount | semgrepai/validator.py:596-621 | the four standard verdicts are always listed, any other verdict is listed exactly when it occurs, and each count is the number of its occurrences |
| ValidationStatistics.MissingValidationIsError | semgrepai/validator.py:617-620 | a finding without ai_validation is counted as an Error verdict |
| ValidationStatistics.CriticalCount | semgrepai/validator.py:624-653 | the critical count over the collected scores equals the number of findings with risk at least 8 |
| ValidationStatistics.CategoryCount | semgrepai/validator.py:636-639 | "Unknown" is never a category; a category is counted exactly when some finding has it, as often as it occurs |
| ValidationStatistics.InsertDesc | semgrepai/validator.py:684 | inserting adds exactly that item |
| ValidationStatistics.InsertDescSorted | semgrepai/validator.py:684 | inserting into a sorted list keeps it sorted by descending count |
| ValidationStatistics.SortDesc | semgrepai/validator.py:684 | sorting is a permutation of the items |
| ValidationStatistics.SortDescSorted | semgrepai/validator.py:684 | the result is sorted by descending count |
| ValidationStatistics.TopCategories | semgrepai/validator.py:684-685 | at most five categories are shown, five when there are that many |
| ValidationStatistics.TopCategoriesBest | semgrepai/validator.py:684-687 | the shown categories are the first five of the sorted items, none with a lower count than any left out |
| ValidationStatistics.AverageTimeAsWritten | semgrepai/validator.py:587 | as written, the average is time over total for a non-empty run |
| ValidationStatistics.EmptyRunRaises | semgrepai/validator.py:587 | as written, an empty run divides by zero |
| ValidationStatistics.AverageTime | semgrepai/validator.py:587 | the guarded average agrees with the written one whenever that succeeds, and is 0 for an empty run |
| ValidationStatistics.AverageTimeBounds | semgrepai/validator.py:587 | the guarded average lies between 0 and the total time |
| ValidationStatistics.ValidateFindingsAsWritten | semgrepai/validator.py:256-334 | as written: batch_size 0 raises; a run over no findings raises in the average time; otherwise the collected findings when the statistics can read them all, else the exception of the first they cannot |
| ValidationStatistics.ValidateFindings | semgrepai/validator.py:256-334 | corrected (see Findings): as written, except that a run over no findings returns no findings |
| ValidationStatistics.HitRate | semgrepai/validator.py:592-593 | the hit rate is shown exactly when there are findings, and is hits over total in percent |
| ValidationStatistics.Share | semgrepai/validator.py:645-686 | a share is 0 with no findings, and otherwise count over total in percent |

## Left out

- Running Semgrep (`Scanner.scan`: the subprocess, the report files, SARIF) is not modelled; its JSON output is the input of `ProcessRawResults`.
- The language model (`validation_chain.invoke`), the prompt text and provider setup are a parameter (`llm`) that answers with captured sections or raises; the regular expressions that capture the sections are not modelled, only what is done with the captured text.
- `run_scan` awaits a `validate_findings_async` that the validator does not define; the model takes the AI step's progress updates and outcome as an input (`ScanService.ValidationRun`).
- The catch-all error handler of `run_scan` (semgrepai/api/services/scan_service.py:174-191) and database commit failures are not modelled.
- Scheduling the background task in `create_scan`, the WebSocket receive loop (semgrepai/api/routes/websocket.py:72-151) and `ProgressUpdate.to_dict` rounding are not modelled.
- Saving the configuration and generating the default file (YAML writing), and the field validation of the configuration classes beyond the LLM section, are not modelled.
- The code analyzer's AST and regex driven steps (`analyze_finding`, `analyze_file`, `_analyze_file_content`, `_analyze_function`, `_analyze_class`, `_analyze_call_dataflow`, `_find_related_files`, `_analyze_related_files`, `_analyze_single_file`, the regex search of `_find_security_patterns`) and `handle_interrupt` are left out: the parsed tree, `ast.unparse`, regex matching and the file system are inputs; only the taint, dependency and import rules and the offset-to-line rule are modelled.
- The validator's constructor, LLM setup and the analyzer call of `_prepare_finding_context` are a parameter (`prepare`).
- Thread pools, locks, the metrics monitor thread and its timing are not modelled: completion orders, send failures and elapsed times are inputs, and operations run one at a time.
- uuid generation, timestamps and backoff jitter are parameters.
- `ORDER BY` is the row order of the findings sequence; `sort_by`/`sort_order` are not modelled.
- `LIKE` wildcards (`%`, `_`) inside filter text are taken literally; a non-text column never matches a text filter, and a non-integer risk score reads as NULL.
- The response projections are the full rows; `updated_at` and `config_snapshot` are not modelled.
- FastAPI's query validation (`ge`/`le` bounds on page and page size) happens before the routes and is a precondition.
- A cancelled scan can still be overwritten by its running task; that interleaving is not modelled.
- In-place aliasing of finding dictionaries between the validator's batches, `pathlib` normalisation and `splitlines` on `'\r'` are not modelled.
- The rendering of the statistics table (rich markup, number formatting) is not modelled, only the numbers it shows.
- ScanRoutes.CancelScan: states only the status 400 for a scan that is not running, not the detail text, which depends on how the Python version renders the enum.
- Validator.CacheKey: `str()` of a float, list or dictionary `line` is not rendered, so such a finding has no key in the model.
- Validator.JoinedItems: `', '.join` over a dictionary joins its keys in insertion order; the model's dictionaries have no key order, so a dictionary `cwe` or `vulnerability_class` value is reported as the join error.
- CodeAnalyzer.SplitLines: breaks lines only at `'\n'`; Python's `splitlines()` also breaks at `'\r'`, `'\v'`, `'\f'`, `'\x1c'`-`'\x1e'`, `'\x85'`, `'\u2028'` and `'\u2029'`.
- Common.Strip: removes only the six ASCII whitespace characters; Python's `strip()` also removes `'\x1c'`-`'\x1f'`, `'\x85'`, `'\xa0'`, `'\u1680'`, `'\u2000'`-`'\u200a'`, `'\u2028'`, `'\u2029'`, `'\u202f'`, `'\u205f'` and `'\u3000'`.
- Common.RStrip: removes only the ASCII whitespace characters, like `Common.Strip`.
- Common.Lower: maps only the ASCII letters; Python's Unicode lower-casing of other letters (and of 'İ', which becomes two characters) is not modelled.
- Common.Upper: maps only the ASCII letters, for the same reason as `Common.Lower`.
- Configuration.LLMConfigOf: pydantic's lax coercions (numeric text read as a number, booleans as integers) are not modelled; only values of a field's own type are accepted.
- Exception messages are approximated: `str()` of a value is a parameter (`show`) and error texts name the failure, not Python's exact wording.

## Findings

| source | as written | input that shows it | evidently intended | confidence | as-written member | corrected member |
|---|---|---|---|---|---|---|
| semgrepai/validator.py:587 | the average time per finding divides by `total_findings` with no guard | a validation run over no findings (ZeroDivisionError) | 0 for an empty run, like the guarded hit rate and shares | not executed | ValidationStatistics.ValidateFindingsAsWritten | ValidationStatistics.ValidateFindings |
| semgrepai/async_utils/rate_limiter.py:178 | `with_rate_limit` hands `execute_with_retry` one coroutine object, which every retry awaits again | any call whose first attempt raises a retried exception with max_retries of 2 or more (the next await raises "cannot reuse already awaited coroutine") | a fresh coroutine per attempt, so a later attempt can succeed | not executed | RateLimiter.ReusedCoroutineNeverRecovers | RateLimiter.FirstSuccessWins |
| semgrepai/parallel.py:125 | the result line reads `result['is_true_positive']`, a key the validator never writes (it writes `is_valid` inside `ai_validation`) | any finding validated without error (KeyError) | every validated finding is collected | not executed | Parallel.ValidatedFindingRaises | Parallel.ValidatedFindingsCollected |
| semgrepai/analyzers/code_analyzer.py:546-550 | the walk over the value rebinds `node`, so the next target's walk reads `.value` of the last walked node and the caught exception ends the loop | `a = b = x` (one dependency entry) | one dependency entry per name target | not executed | CodeAnalyzer.ChainedAssignmentLosesTarget | CodeAnalyzer.DependenciesCount |
| semgrepai/api/routes/stats.py:59 | `unknown` adds the raw SUMs, which are NULL on an empty table, while lines 54-58 guard them with `or 0` | statistics with no findings (TypeError) | `unknown` is 0, the number of findings with none of the five levels | not executed | StatsRoute.GetStatsAsWritten | StatsRoute.Unknown |
