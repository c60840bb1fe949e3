# Marketing dashboard core, in Dafny

This project models the core of a small marketing-analytics dashboard for one company
website (doubledtrailers.com). It has two halves.

- **Task and recheck workflow.** The home controller's task endpoints create, complete,
  re-status, time-log and verify SEO tasks in the `tasks` table. Completing a task
  schedules a *recheck*, a later date on which someone checks whether the fix held. The
  controller's listings read that table: the task list, the recheck list, the dashboard
  panels and counters, and the lists handed to the chat assistant. `buildSystemPrompt`
  assembles the assistant's system prompt from the latest snapshots and these lists.
- **Snapshot ingestion.** Four console commands fill one snapshot table each:
  - `app:fetch-gsc` for Google Search Console;
  - `app:fetch-google-ads` for Google Ads;
  - `app:fetch-ga4` for Google Analytics 4;
  - `app:fetch-semrush` for SEMrush.

  The three Google commands check their settings, exchange a refresh token for an access
  token, empty their table and store a fixed list of reports, each row tagged with its
  report. SEMrush only appends one row per run.

Tables are classes whose methods change their fields in place. Each endpoint and each
command is a method, specified against pure functions of the inputs and the old state.
Outside services are parameters of the model:
- the OAuth token endpoint and each reporting API (decoded JSON in, decoded JSON out);
- the JSON decoder used on Google Ads stream lines;
- today's day number and the current timestamp.

Modules:
- `Base`: `Option`, `Min`.
- `PhpText`: trim, explode/implode, strtoupper, and the numeric prefix of a string.
- `PhpJson`: decoded JSON, `??` lookups, `isset`, `intval`, `floatval`, `round`.
- `Sorting`: `SELECT ... WHERE ... ORDER BY ... LIMIT`.
- `Tasks`, `TaskQueries`, `SystemPrompt`: the controller.
- `Ingest`: what the commands share.
- `Gsc`, `GoogleAds`, `Ga4`, `Semrush`: the four commands.

## Model

| member | source | states |
|---|---|---|
| Tasks.RecheckDays | src/Controller/HomeController.php:169-181 | a recheck is 7 days out for 404 and sitemap fixes, 28 for ranking drops, and 14 for every other type, unknown or null included (each as an iff) |
| Tasks.NewTask | src/Controller/HomeController.php:140-153 | a new task is pending with 0 logged hours; priority defaults to medium, the estimate to 1 h, and the title to "Untitled Task" only when absent; description, rule_id, assigned_to, assigned_role, due_date and recheck_type are stored from the body (null when absent); it starts unverified, with no recheck date, no completion and no result, so it is open and awaits no recheck |
| Tasks.Completed | src/Controller/HomeController.php:169-187 | completing sets status done, completed_at and recheck_date = today + RecheckDays; every other column, verification included, is unchanged |
| Tasks.WithStatus | src/Controller/HomeController.php:202-204 | a status update overwrites the status and nothing else |
| Tasks.WithLoggedTime | src/Controller/HomeController.php:221-227 | logging adds the hours to logged_hours (null read as 0) and changes nothing else |
| Tasks.Verified | src/Controller/HomeController.php:238-243 | verification sets recheck_verified and recheck_result pass/fail and nothing else; the task then awaits no recheck |
| Tasks.RowsBelow | src/Controller/HomeController.php:254 | the listed rows are exactly the stored tasks, each listed once when every row carries its own key as id |
| Tasks.TaskTable.Rows | src/Controller/HomeController.php:254 | `SELECT *` sees every stored task, each exactly once |
| Tasks.TaskTable.CreateTask | src/Controller/HomeController.php:136-159 | inserts NewTask under the next serial id, leaves every other row, replies 201 with it |
| Tasks.TaskTable.CompleteTask | src/Controller/HomeController.php:162-196 | an unknown id gives 404 and no change; otherwise only that row becomes Completed and the reply carries the recheck date and interval |
| Tasks.TaskTable.UpdateTaskStatus | src/Controller/HomeController.php:199-208 | no existence check: an unknown id changes nothing; otherwise only that row's status changes, default "pending" |
| Tasks.TaskTable.LogTime | src/Controller/HomeController.php:211-232 | hours <= 0 give 400 before any lookup, an unknown id 404, both without change; otherwise only that row's logged hours grow |
| Tasks.TaskTable.VerifyTask | src/Controller/HomeController.php:235-248 | no existence or status check; pass exactly when `passed` is truthy (default false) |
| Tasks.LoggedTimeAccumulates | src/Controller/HomeController.php:221-227 | logging h1 then h2 equals logging h1 + h2 |
| Tasks.RecheckIsAtLeastAWeekAway | src/Controller/HomeController.php:169-187 | a completed task's recheck is 7, 14 or 28 days ahead, never within three days |
| Tasks.StatusDoneSchedulesNoRecheck | src/Controller/HomeController.php:199-208 | marking a task done by a status update schedules no recheck |
| TaskQueries.PriorityRank | src/Controller/HomeController.php:23 | urgent < high < medium < low, and any other priority after all four (NULL sorts last ascending) |
| TaskQueries.ListTasks | src/Controller/HomeController.php:112-133 | exactly the rows matching the truthy filters, each as often as stored, ordered by priority rank then newest first; unranked priorities come last |
| TaskQueries.ListRechecks | src/Controller/HomeController.php:251-257 | exactly the done, dated, unverified tasks, soonest recheck first |
| TaskQueries.DashboardTasks | src/Controller/HomeController.php:22-24 | min(20, open tasks) open tasks drawn from the table, in priority order |
| TaskQueries.DashboardRechecks | src/Controller/HomeController.php:25-27 | min(10, pending rechecks) pending rechecks drawn from the table, soonest first |
| TaskQueries.CountTasks | src/Controller/HomeController.php:28-34 | each counter is the number of rows in its selection (open urgent-or-high, in progress, done); urgent + done and in-progress + done never exceed the rows |
| TaskQueries.ChatActiveTasks | src/Controller/HomeController.php:68-70 | min(10, open tasks) open tasks drawn from the table, newest first |
| TaskQueries.ChatRechecks | src/Controller/HomeController.php:72-74 | min(5, due rechecks) pending rechecks due within three days, soonest first |
| TaskQueries.DisjointCounts | src/Controller/HomeController.php:28-34 | two filters no row meets together count at most all rows, exactly all rows when complementary |
| TaskQueries.DashboardShowsTheMostUrgent | src/Controller/HomeController.php:22-24 | an open task left off the panel ranks no higher than any task shown |
| TaskQueries.DashboardShowsTheSoonestRechecks | src/Controller/HomeController.php:25-27 | a pending recheck left off the panel is due no earlier than any recheck shown |
| TaskQueries.DashboardShowsAllWhenFew | src/Controller/HomeController.php:22-24 | with at most 20 open tasks the panel shows every one |
| TaskQueries.ChatShowsTheNewest | src/Controller/HomeController.php:68-70 | an open task left out of the chat list was created no later than any task listed |
| TaskQueries.ChatRechecksAreTheSoonest | src/Controller/HomeController.php:72-74 | a due recheck left out of the chat list is due no earlier than any listed |
| TaskQueries.CompletedTaskWaitsForItsRecheck | src/Controller/HomeController.php:162-196 | a task completed today is on the recheck list but not among the chat's due-soon rechecks |
| TaskQueries.VerifiedTaskLeavesRechecks | src/Controller/HomeController.php:235-257 | a verified task is on no recheck list |
| Sorting.Select | src/Controller/HomeController.php:117-131 | the result is sorted on the key and drawn from the matching rows; without a LIMIT it holds every matching row, and with one it holds min(n, matches) rows |
| Sorting.SelectKeepsTheTop | src/Controller/HomeController.php:23 | LIMIT drops only rows ranked no earlier than every row kept |
| SystemPrompt.Prompt | src/Controller/HomeController.php:305-324 | the prompt opens with the assistant's introduction and ends with the rules file, or nothing without it |
| SystemPrompt.BuildSections | src/Controller/HomeController.php:272-303 | the four append loops produce exactly Sections: the two summaries under their headings, the task and recheck sections |
| SystemPrompt.BuildSystemPrompt | src/Controller/HomeController.php:261-325 | the assembled prompt is exactly Prompt |
| SystemPrompt.AppendLines | src/Controller/HomeController.php:272-303 | each loop appends one line per element, in order |
| SystemPrompt.TaskContext | src/Controller/HomeController.php:286-295 | the task section is empty exactly when there are no active tasks, and otherwise opens with its header |
| SystemPrompt.RecheckContext | src/Controller/HomeController.php:297-303 | likewise for the recheck section |
| SystemPrompt.TimeInfo | src/Controller/HomeController.php:290-292 | the time part is present exactly when the estimate is positive |
| SystemPrompt.SemrushField | src/Controller/HomeController.php:282-284 | a SEMrush figure reads "N/A" without a snapshot or for a NULL column |
| SystemPrompt.QuerySummaryLines | src/Controller/HomeController.php:272-275 | the query summary is one line per row for the first min(20, rows) rows |
| SystemPrompt.PageSummaryLines | src/Controller/HomeController.php:277-280 | the page summary likewise, at most 20 lines |
| SystemPrompt.RowsPastTwentyIgnored | src/Controller/HomeController.php:273-280 | rows past the twentieth never reach the prompt |
| SystemPrompt.AssigneeText | src/Controller/HomeController.php:293 | the assignee prints as "Unassigned" when NULL and as stored otherwise |
| SystemPrompt.RecheckTypeText | src/Controller/HomeController.php:301 | the recheck type prints as "general" when NULL and as stored otherwise |
| SystemPrompt.TaskLineShape | src/Controller/HomeController.php:293 | a task line opens with the priority upper-cased in brackets |
| Ingest.AccessToken | src/Command/FetchGscCommand.php:48-53 | a token is found exactly when `access_token` is set and non-null |
| Ingest.DateWindow | src/Command/FetchGa4Command.php:133-134 | the window ends offset+1 days ago and is exactly `days` days long |
| Ingest.RecentWindow | src/Command/FetchGscCommand.php:150-151 | the window ends yesterday and starts `days` days ago |
| Ingest.AppendGroup | src/Command/FetchGscCommand.php:60-143 | appending one later report's rows keeps the table grouped by report in fetch order |
| Gsc.FetchGscData | src/Command/FetchGscCommand.php:148-187 | the do-while loop sends exactly the requests of Paged and returns their rows |
| Gsc.PagedRowsInOrder | src/Command/FetchGscCommand.php:181-183 | the rows are every response's rows concatenated in request order |
| Gsc.PagedOffsets | src/Command/FetchGscCommand.php:158-164 | each request asks for min(25000, limit - startRow) rows (always > 0 after the first) at the count of rows received so far, full batches apart |
| Gsc.PagedStops | src/Command/FetchGscCommand.php:185 | every page but the last was full and below the limit; the last was short or reached the limit |
| Gsc.PagedOnce | src/Command/FetchGscCommand.php:156-185 | with limit - startRow <= 25000 exactly one request is made |
| Gsc.PagedWithinLimit | src/Command/FetchGscCommand.php:181-185 | if no page exceeds its rowLimit, at most `limit` rows are collected |
| Gsc.QueryReportsTakeOneRequest | src/Command/FetchGscCommand.php:67 | both query+page reports take exactly one request of 25000 rows |
| Gsc.ReportWindows | src/Command/FetchGscCommand.php:150-151 | every report ends yesterday; all but the 90-day one start 28 days ago |
| Gsc.RecordOf | src/Command/FetchGscCommand.php:68-135 | labels 28d/90d/28d_page/28d_branded; page rows store the query `__PAGE_AGGREGATE__` with page = keys[0]; other rows take keys[0]/keys[1], default ''; clicks and impressions are the row's values, 0 when missing or null; a missing ctr or position stores 0 |
| Gsc.EmptyRowDefaults | src/Command/FetchGscCommand.php:70-75 | a row without members stores empty text (the aggregate marker as query for page rows) and zero metrics |
| Gsc.SegmentRecordsAt | src/Command/FetchGscCommand.php:68-80 | one stored row per API row, in order: the i-th stored row is the i-th API row mapped by RecordOf |
| Gsc.SnapshotGrouped | src/Command/FetchGscCommand.php:60-143 | the table's rows are grouped by segment in fetch order, as many as the four reports returned |
| Gsc.GscSnapshots.EnsureSchema | src/Command/FetchGscCommand.php:253-262 | adds `date_range` only when missing, so a second call changes nothing |
| Gsc.GscSnapshots.InsertRows | src/Command/FetchGscCommand.php:68-82 | appends exactly the given rows, in order, and counts them |
| Gsc.Execute | src/Command/FetchGscCommand.php:19-146 | missing OAuth settings fail with no request and no change; a missing token fails after one request with no change; otherwise the table is exactly Snapshot and totalRows its length |
| GoogleAds.StripDashes | src/Command/FetchGoogleAdsCommand.php:47 | no dash remains, the id never grows, a dash-free id is unchanged |
| GoogleAds.StripDashesKeepsOthers | src/Command/FetchGoogleAdsCommand.php:47 | every character other than a dash is kept, as often as it occurs |
| GoogleAds.StripDashesAppend | src/Command/FetchGoogleAdsCommand.php:47 | stripping distributes over concatenation |
| GoogleAds.GaqlResults | src/Command/FetchGoogleAdsCommand.php:310-415 | no body, status >= 400 or an error object give []; an array is merged batch by batch; anything else line by line |
| GoogleAds.RunGaqlQuery | src/Command/FetchGoogleAdsCommand.php:310-415 | the method returns exactly GaqlResults |
| GoogleAds.MergeBatches | src/Command/FetchGoogleAdsCommand.php:367-381 | the array loop returns Merged: all results in order, [] once any batch has `error` |
| GoogleAds.MergeLines | src/Command/FetchGoogleAdsCommand.php:383-399 | the line loop returns Merged of the lines' batches |
| GoogleAds.Merged | src/Command/FetchGoogleAdsCommand.php:370-381 | any failed batch empties the result, discarding earlier batches |
| GoogleAds.AnyFailedIff | src/Command/FetchGoogleAdsCommand.php:372-380 | the stream fails exactly when some batch has `error` |
| GoogleAds.MergedAppend | src/Command/FetchGoogleAdsCommand.php:370-381 | merging two runs of batches is merging each, unless either fails |
| GoogleAds.StreamLine | src/Command/FetchGoogleAdsCommand.php:385-390 | a line is skipped exactly when it trims to falsy, "[" or "]"; otherwise leading commas are dropped |
| GoogleAds.LineBatchKept | src/Command/FetchGoogleAdsCommand.php:384-395 | every line that carries a batch contributes it |
| GoogleAds.FailedLineEmptiesAll | src/Command/FetchGoogleAdsCommand.php:394-398 | one error line makes the whole result [] |
| GoogleAds.FillerLineIgnored | src/Command/FetchGoogleAdsCommand.php:385-390 | skipped lines anywhere change nothing |
| GoogleAds.LineBatchesAppend | src/Command/FetchGoogleAdsCommand.php:384-399 | the batches of two pieces of a stream are each piece's in turn |
| GoogleAds.AllResultsAppend | src/Command/FetchGoogleAdsCommand.php:376 | results of consecutive batches concatenate |
| GoogleAds.RecordColumns | src/Command/FetchGoogleAdsCommand.php:87-193 | each report fills exactly the columns it selects (the rest NULL), tags its data_type, and stores 30d as date range except for daily spend, whose date range is never NULL |
| GoogleAds.RecordSources | src/Command/FetchGoogleAdsCommand.php:94-188 | each filled column is read from its own path: campaign id/name/status, ad group id/name, criterion keyword/match type/status, the search term, and the date segment for daily spend |
| GoogleAds.TextAt | src/Command/FetchGoogleAdsCommand.php:94-95 | a text column is the value at its path, or '' when that is missing or null |
| GoogleAds.MissingMetricsAreZero | src/Command/FetchGoogleAdsCommand.php:91-106 | each metric missing from a result is stored as 0 whatever the others are; without `metrics` all six are 0 |
| GoogleAds.CountsReadExactly | src/Command/FetchGoogleAdsCommand.php:97-100 | counts and micros sent as digit strings are stored exactly, floats being exact reals (in PHP exact only up to 2^53 on the float path) |
| GoogleAds.ReportRecordsAt | src/Command/FetchGoogleAdsCommand.php:90-112 | one stored row per result, in order: the i-th stored row is the i-th result mapped by RecordOf |
| GoogleAds.SnapshotGrouped | src/Command/FetchGoogleAdsCommand.php:82-195 | rows grouped campaign, keyword, search_term, daily_spend, as many as the four reports returned |
| GoogleAds.ReportWindows | src/Command/FetchGoogleAdsCommand.php:201-307 | each window ends yesterday and is 30 days long, 90 for daily spend; the customer id has no dash |
| GoogleAds.AdsSnapshots.EnsureSchema | src/Command/FetchGoogleAdsCommand.php:418-452 | creates the table only when missing, keeping the rows |
| GoogleAds.AdsSnapshots.InsertRows | src/Command/FetchGoogleAdsCommand.php:90-112 | appends exactly the given rows, in order, and counts them |
| GoogleAds.Execute | src/Command/FetchGoogleAdsCommand.php:28-198 | missing OAuth or Ads settings fail with no request and no change; a missing token fails after one request; otherwise the table is exactly Snapshot and totalRows its length |
| Ga4.PathOf | src/Command/FetchGa4Command.php:169 | the page path defaults to "/" |
| Ga4.MetricsReadByName | src/Command/FetchGa4Command.php:167-228 | each field is read from the position of its metric's name in that report's request, so the landing report's shifted layout has no page-views slot |
| Ga4.EmptyRowDefaults | src/Command/FetchGa4Command.php:167-177 | a row without values is "/" with every metric 0 |
| Ga4.MissingMetricsAreZero | src/Command/FetchGa4Command.php:170-175 | each metric value missing from a row is read as 0 in both layouts, whatever the others are |
| Ga4.SessionsReadExactly | src/Command/FetchGa4Command.php:170 | sessions sent as a digit string are read exactly |
| Ga4.RowsOf | src/Command/FetchGa4Command.php:167-179 | one row per response row, in order; a response without rows gives none |
| Ga4.CollectRows | src/Command/FetchGa4Command.php:165-179 | the `$results[]` loop builds exactly RowsOf |
| Ga4.FetchGa4Pages | src/Command/FetchGa4Command.php:131-180 | sends the page request for the offset window and returns its rows |
| Ga4.FetchGa4LandingPages | src/Command/FetchGa4Command.php:182-229 | sends the landing request for the last 28 days and returns its rows |
| Ga4.PeriodsAreAdjacent | src/Command/FetchGa4Command.php:67-134 | the current and previous windows are 28 days each, adjacent and disjoint; the current one ends yesterday and equals the landing window |
| Ga4.RecordOf | src/Command/FetchGa4Command.php:68-124 | labels 28d/28d_previous/28d_landing; path, sessions, bounce rate, engagement time, engaged sessions and conversions are copied from the fetched row; landing rows store 0 page views |
| Ga4.PeriodRecordsAt | src/Command/FetchGa4Command.php:68-82 | one stored row per fetched row, in order: the i-th stored row is the i-th fetched row mapped by RecordOf |
| Ga4.SnapshotGrouped | src/Command/FetchGa4Command.php:60-126 | rows grouped current, previous, landing, as many as the three reports returned |
| Ga4.Ga4Snapshots.EnsureSchema | src/Command/FetchGa4Command.php:231-245 | adds exactly the missing columns among the three, so it is idempotent |
| Ga4.Ga4Snapshots.InsertRows | src/Command/FetchGa4Command.php:68-82 | appends exactly the given rows, in order, and counts them |
| Ga4.Execute | src/Command/FetchGa4Command.php:19-129 | missing settings or property id fail with no request and no change; a missing token fails after one request; otherwise the table is exactly Snapshot and totalRows its length |
| Semrush.RequestFor | src/Command/FetchSemrushCommand.php:21-26 | the domain_ranks request for doubledtrailers.com on the US database; an unset key is sent empty |
| Semrush.DropLineEnd | src/Command/FetchSemrushCommand.php:41-42 | at most one trailing CR, LF or CR-LF is dropped, a CR-LF as a whole; a text without one is unchanged |
| Semrush.Fields | src/Command/FetchSemrushCommand.php:41-42 | one `;`-free field per `;`-separated piece of the line without its line end, each piece without its own line end |
| Semrush.Cells | src/Command/FetchSemrushCommand.php:41-42 | one text cell per field; a line that is empty once its line end is dropped is one null cell |
| Semrush.HeaderNames | src/Command/FetchSemrushCommand.php:41-43 | the header keys are the header cells' texts, "" for a null cell |
| Semrush.PlainLineFields | src/Command/FetchSemrushCommand.php:41-42 | a line without CR or LF is cut at its `;`s and nothing more |
| Semrush.CrLineReadsAsBare | src/Command/FetchSemrushCommand.php:35-42 | a line keeping the CR of a CR-LF ending reads exactly as the bare line |
| Semrush.ParseResponse | src/Command/FetchSemrushCommand.php:35-43 | too few lines exactly when the trimmed response has fewer than two |
| Semrush.ParseLines | src/Command/FetchSemrushCommand.php:41-43 | headers and values pair by position exactly when their counts agree |
| Semrush.LaterLinesIgnored | src/Command/FetchSemrushCommand.php:35-43 | lines after the second do not change what is read |
| Semrush.ReportRoundTrip | src/Command/FetchSemrushCommand.php:35-43 | reading a well-formed two-line report gives back every value under its own column name |
| Semrush.CrLfReportRoundTrip | src/Command/FetchSemrushCommand.php:35-43 | a report sent with CR-LF line ends reads exactly as with LF ends |
| Semrush.RecordOf | src/Command/FetchSemrushCommand.php:45-53 | the counts come from their named columns, 0 when absent or null |
| Semrush.StoredFromItsColumn | src/Command/FetchSemrushCommand.php:43-50 | the keyword count is the value under the last `Organic Keywords` header |
| Semrush.SemrushSnapshots.Insert | src/Command/FetchSemrushCommand.php:45-53 | appends one row, deleting nothing |
| Semrush.AppendedRowIsLatest | src/Controller/HomeController.php:57 | a run later than every stored row is the only row the latest-first read can return |
| Semrush.PgTrim | migrations/Version20260223000000.php:14 | the text less its surrounding PostgreSQL blanks: neither end is a blank, no character is added, and the text is unchanged exactly when neither of its ends is a blank |
| Semrush.SignedValue | migrations/Version20260223000000.php:14 | a sign and digits are read only as a value within 32 bits |
| Semrush.DigitsOnly | migrations/Version20260223000000.php:14 | a text has a digit value exactly when it is one or more decimal digits, and that value is theirs |
| Semrush.PgInt | migrations/Version20260223000000.php:14 | a text the INT columns take yields a value within 32 bits |
| Semrush.DigitCellIsStored | migrations/Version20260223000000.php:14 | a cell of digits within 32 bits is read as its value |
| Semrush.NegatedDigitCellIsStored | migrations/Version20260223000000.php:14 | the same digits after a minus sign are read as the negated value |
| Semrush.DigitlessCellIsRefused | migrations/Version20260223000000.php:14 | a cell without a digit, the empty cell included, is refused by the INT columns |
| Semrush.StoredFromPairedCells | src/Command/FetchSemrushCommand.php:43-50 | data pairing each header with its cell stores the cell of the last `Organic Keywords` column |
| Semrush.ReportStoresItsKeywordCell | src/Command/FetchSemrushCommand.php:35-50 | a well-formed report parses and stores the cell under its last `Organic Keywords` header |
| Semrush.DigitlessCountIsRefused | src/Command/FetchSemrushCommand.php:35-53 | a well-formed report whose keyword cell has no digit parses, but its row is refused by the INT column |
| Semrush.EmptyCountIsRefused | src/Command/FetchSemrushCommand.php:35-53 | `Organic Keywords;Organic Traffic` over `;5` (any digits for the traffic) parses, but its row is refused |
| Semrush.Execute | src/Command/FetchSemrushCommand.php:19-58 | unreachable, too few lines, mismatched counts or a count the INT columns refuse fail without change; otherwise exactly that run's record is appended |
| PhpText.Split | src/Command/FetchSemrushCommand.php:35 | explode yields pieces free of the delimiter that join back to the input |
| PhpText.TrimIdempotent | src/Command/FetchSemrushCommand.php:35 | trimming twice is trimming once |
| PhpJson.Lookup | src/Command/FetchGoogleAdsCommand.php:366 | a key is found exactly when present, and the last duplicate wins |
| PhpJson.DigitStringIsExact | src/Command/FetchGoogleAdsCommand.php:97-100 | intval and round(floatval) read a digit string as its exact value, floats being exact reals (in PHP the float path is exact only up to 2^53) |

## Left out

- HTTP, OAuth, the reporting APIs and JSON decoding are parameters. The token endpoint and the report APIs take a request datatype and return decoded JSON. Google Ads returns its status and body. SEMrush returns the body or nothing.
- The text of requests is not built: GAQL queries, JSON bodies and URLs are request datatypes holding the values they carry.
- Dates are day numbers and timestamps are integers; `date`/`strtotime` formatting is not modelled, and `today` and `now` are parameters.
- One `now` stamps every row of a command run. The GSC, GA4 and Google Ads commands call `date('Y-m-d H:i:s')` once per insert, so a run that crosses a second boundary stores several timestamps. No reader depends on them being equal.
- Floating point is modelled as exact reals. `round` rounds half away from zero on reals, and 64-bit integer overflow is not modelled.
- `floatval` reads an optional sign, the leading digits and a decimal point of a string only. Exponents and leading whitespace are not read.
- Semrush.Cells: quoted CSV cells (enclosures, escapes, leading blanks before a quote) are not modelled; a cell is the text between `;`, less one trailing line end.
- Ingest.ListField: a GSC `rows` or Ads `results` member that is present but not a list is read as no rows. PHP iterates the values of an object there (and `array_merge` keeps its string keys), and `array_merge` on a scalar throws. GA4 reads `rows` with `PhpJson.Elements`, which iterates an object's values as PHP does.
- PhpJson.Elements: an object with a repeated key yields one element per member, where `json_decode` keeps one entry per key (the last value). Decoded JSON is a parameter, so such objects are not excluded.
- GoogleAds.RunGaqlQuery: the status code is given with the reply; parsing it from the HTTP status line is not modelled.
- Console output and the debug snippets the Google Ads command prints are left out.
- The chat endpoint's call to the Anthropic API, its Twig rendering, routing and the user lookup are left out. The user's name and role, the date text and the rules file are inputs of `SystemPrompt.Prompt`.
- The top GSC queries and top GA4 pages shown in the prompt are inputs, not modelled queries.
- How PHP renders a float as text and how a date prints are parameters of the prompt (`Render`).
- `logTime` reads, then writes; the race between two concurrent calls is not modelled.
- Tasks.NewTask: an empty-string title is stored as given, as the source does. Only an absent or null title becomes "Untitled Task".
- Rows that existed before a column was added are not modelled as carrying the column's default.
- The GA4 and GSC schema steps are modelled as column sets. The SQL DDL, indexes and the information-schema query are left out.
- Semrush.Execute: when header and value counts differ, PHP 8's `array_combine` throws. The model returns the failure status `CombineError` and does not insert, rather than requiring equal counts.
- Semrush.PgInt: PostgreSQL 16 and later also read underscores between digits and `0x`, `0o` and `0b` prefixes in an INT; the model refuses those texts, as earlier releases do. The refused INSERT throws in PHP; the model returns the failure status `InsertRefused` and leaves the table unchanged.
- One-off scripts, the migrations (apart from the INT count columns of `semrush_snapshots`), the environment check command and the web entry point are not part of this model.
