# A verified model of the tokenage core

tokenage records the cost of LLM requests. Every request is one usage row; two roll-up tables are kept beside
the rows; events from several clients are correlated into usage and tool-call records; a job queue evaluates
sessions; prices come from layered sources and are frozen in snapshots; a browser component draws a request's
timeline. This project models those parts in Dafny and proves what they are meant to keep, over every input, every
run or every interleaving. `dafny verify dfyconfig.toml` checks all of it.

| files | part of the program |
|---|---|
| `UsageRows.dfy`, `Sessions.dfy`, `Recording.dfy`, `Ledger.dfy`, `Reports.dfy` | the usage table, duplicate requests, `usage_daily`, `sessions`, and the two report paths |
| `Rates.dfy`, `PriceMaps.dfy`, `Snapshots.dfy` | tiers, time windows, layered price sources, the segment index, replayable snapshots |
| `Requests.dfy`, `Correlation.dfy`, `Otlp.dfy`, `OtlpCollector.dfy` | the OTLP receiver: its state machine, and the class that runs it in place |
| `OtlpIsolation.dfy`, `OtlpFates.dfy`, `OtlpReferences.dfy`, `OtlpRecords.dfy`, `OtlpJoins.dfy`, `ToolCalls.dfy` | what whole runs of the receiver guarantee, down to the stored tool calls |
| `Jobs.dfy`, `JobQueue.dfy`, `JobWorker.dfy`, `WorkerRuns.dfy` | the evaluation jobs: guarded updates, queue order and positions, the operations with statements of others in between, the worker's loop step by step |
| `Timeline.dfy` | the request timeline builder |
| `RateLimit.dfy`, `Streams.dfy`, `Tokens.dfy`, `Migrations.dfy` | the rate limiter, the stream reader, device tokens, the merging migrations |

Roll-ups are compared with one notion of "sum over the rows that ..." (`UsageRows.MeasureOf` over a `Selection`). Code
that changes tables in place is a class whose methods are tied to functions of the old state; the run-level results are
lemmas about those functions. What the small functions mean - which column counts what, what a request is charged, what
a usage event records, which reports are of one call - is stated apart from them, in terms of the rows, the attributes
and the prices alone.

Where the code does not do what its design suggests, the model follows the code, states exactly when the
property holds, and shows an input for which it does not:

- `Ledger.MergeKeepsSessionsIff`: a merge that replaces a session id that was already there does not move the old
  roll-up. `Ledger.MovedSession` merges two such reports; `Ledger.Tables.RunFromScratch` shows that requests naming
  their sessions consistently never get there.
- `Sessions.ArrivalOrderDoesNotMatter`: the step-by-step mean time to first token counts a missing value as zero, the
  rebuild leaves it out; they agree exactly when every row has one, or some row has one and they sum to zero.
  `Sessions.MissingTtft` has a mean of 5 where the rebuild finds 10.
- `Reports.PathsAgreeIff`: long ranges are answered for the whole days of their dates as written, so the two report
  paths agree exactly when, group by group, the rows this adds at the two ends sum to those it leaves out. A UTC range
  is only widened, and then agreement means that no row is added (`Reports.RowsDecide`; `Reports.WidenedRange` has one);
  a range written with an offset can also lose rows (`Reports.OffsetShiftsTheDate`).
- `ToolCalls.CountersAgreeWithRebuildIff`: a tool call stored before the usage row that creates its session is never
  counted step by step, but is by the rebuild, as in `ToolCalls.UncountedCall`. Sessions that never get a usage row have
  no counts either way.
- `Streams.CuttingMattersIff`: a data line that fails ends the reading of its chunk, so the recorded usage and tool calls
  depend on the chunk borders exactly when something behind a failing line contributes to them. In `Streams.LostLine`
  the usage is recorded from two chunks and lost from one.

A recalculation would match a NULL user and an empty user id alike (`Ledger.RecalculationKeepsDailyIff` says when that
matters), but user ids are generated UUIDs (src/database/models.py:29-36), so no row with an empty one arises and a
recalculation always keeps the daily table right. The bound on running jobs, too, rests on more than the statements
themselves: it needs ticks not to overlap (`WorkerRuns.OverlapBreaksBound`), and the loop sees to that
(`WorkerRuns.WorkerStaysWithinBound`).

## Model

| member | source | states |
|---|---|---|
| Rates.SelectTier | src/pricing/costs.py:112-125 | the loop picks the tier the specification function names |
| Rates.TierIsLastStartingAtOrBelow | src/pricing/costs.py:112-125 | for sorted, non-overlapping tiers that is the last one starting at or below the token count, or the first if there is none |
| Rates.WindowIsArc | src/pricing/models.py:90-101 | a window holds a minute exactly when (minute - start) mod 1440 < (end - start) mod 1440, across midnight too |
| Rates.ResolveEffectiveCost | src/pricing/models.py:104-131 | the last matching window on an allowed weekday sets the rates; none leaves the base rates |
| Rates.ClockReadsTime | src/pricing/models.py:104-131 | the day, the minute and the weekday of a timestamp are those of its UTC date and time |
| Rates.WeekdaysGoRound | src/pricing/models.py:104-131 | 1 January 2024 is a Monday, and weekdays move on by one a day |
| Rates.RequestIsChargedAtItsPrices | src/pricing/costs.py:128-213 | cache misses, cache reads, cache writes and completion are each charged at their own price: the flat one, or that of the tier the input tokens fall in |
| PriceMaps.PutLooksUp | src/pricing/maps.py:139-172 | overwriting a key keeps its position and leaves every other key alone |
| PriceMaps.LayeringIsPlainSearch | src/pricing/maps.py:139-172 | overwriting layer by layer in reverse priority equals a direct search for the winning source of each key |
| PriceMaps.ResolveAllCosts | src/pricing/maps.py:139-172 | every key's entry is the YAML one laid over the winning fetched one |
| PriceMaps.YamlWinsElsePriority | src/pricing/maps.py:139-172 | the last YAML entry of the key that parses sets the price and the source; without one the fetched entry stands |
| PriceMaps.FetchedEntryIsTheWinner | src/pricing/maps.py:139-172 | of the sources that list a key, the one with the smallest priority number, earliest on ties, gives the last price it lists |
| PriceMaps.BuildSegmentIndex | src/pricing/models.py:72-87 | the index holds, for every last path segment, the least-ranked key, first on ties |
| PriceMaps.IndexAgreesWithScan | src/pricing/models.py:72-87 | looking a segment up in the index equals scanning the whole map |
| PriceMaps.LessIsOrder | src/pricing/models.py:61-69 | the cost rank comparison is a strict order |
| PriceMaps.ResolveCostMatch | src/pricing/costs.py:28-64 | the exact key, else the index's answer; none exactly when neither exists |
| PriceMaps.MatchIsLeastRanked | src/pricing/costs.py:28-64 | without an exact key the match is the least-ranked entry ending in the name |
| PriceMaps.SegmentIsTheEnd | src/pricing/models.py:72-87 | a segment is what follows the last slash, or all of a key without one |
| PriceMaps.PriceLookup | src/pricing/costs.py:28-64 | a model is priced by its own entry, else by the cheapest altogether whose key ends in it, ties broken by input, output, cache reads, cache writes and place |
| PriceMaps.PriceIsOfItsTime | src/pricing/costs.py:84-109 | the price is that of the last window holding the row's time, else the entry's own; nothing without an entry |
| UsageRows.FoldOfPermutation | src/database/sessions.py:97-140 | sums over rows do not depend on their order |
| UsageRows.CountsRows | src/database/usage.py:286-391 | the request count is the number of rows, successes and failures split it, and each failure falls in exactly one status class |
| UsageRows.ColumnsAreSums | src/database/usage.py:286-391 | every summed column adds up its own field; the status columns count no status or below 400, from 400, 429, the other 4xx, and from 500 |
| UsageRows.MoneyIsSummed | src/database/usage.py:286-391 | and the three costs likewise |
| UsageRows.SameDailyRow | src/database/usage.py:264-283 | two rows share a daily row exactly when UTC day, provider, model, client and user agree |
| UsageRows.SumSplits | src/database/usage.py:286-391 | disjoint selections add up |
| Sessions.AgreementDeterminesRecord | src/database/sessions.py:97-140 | two records that agree with the same rows are equal, up to the mean time to first token |
| Sessions.RebuildAgrees | src/database/sessions.py:266-316 | the record rebuilt from sorted rows agrees with the rows on counts, sums, bounds, means and both cost maps |
| Sessions.UpdateAgrees | src/database/sessions.py:143-208 | adding one row to a record that agrees keeps it in agreement |
| Sessions.CreateAgrees | src/database/sessions.py:143-208 | a first row's record agrees |
| Sessions.RepriceAgrees | src/database/usage.py:508-539 | applying a recalculation's delta to total and cost maps keeps agreement |
| Sessions.IncrementalAgrees | src/database/sessions.py:143-208 | the record kept over any arrival order agrees with the rows |
| Sessions.RecordsCountTheirRows | src/database/sessions.py:97-208 | each figure of a record that agrees adds up its own field over the session's rows |
| Sessions.RecordsShowMeans | src/database/sessions.py:97-208 | the means are over all requests |
| Sessions.CostMapsShowTheirRows | src/database/sessions.py:97-208 | the cost maps name the models and providers used, each with its cost |
| Sessions.IncrementalMean | src/database/sessions.py:143-208 | the running mean time to first token is the sum over all rows, a missing one counted as zero |
| Sessions.ArrivalOrderDoesNotMatter | src/database/sessions.py:97-208 | for any arrival order the step-by-step record equals the rebuild from sorted rows; the mean time to first token exactly under its condition |
| Sessions.MissingTtft | src/database/sessions.py:97-208 | two rows, one without a time to first token: the step-by-step mean is half the rebuilt one |
| Snapshots.EnsureSnapshot | src/pricing/snapshots.py:97-143 | the id returned holds the wanted rates; existing snapshots never change and stay distinct |
| Snapshots.PayloadRoundTrip | src/pricing/snapshots.py:38-88 | stored rates read back price every request as before |
| Snapshots.ReplayShowsCharge | src/pricing/snapshots.py:225-310 | the three recomputed input parts add up to the stored input cost, and the shown output rate times completion tokens is the stored output cost |
| Snapshots.DetailShowsThePrices | src/pricing/snapshots.py:225-310 | the rates shown are the prices that hold for the row |
| Snapshots.DetailSplitsTheCharge | src/pricing/snapshots.py:225-310 | the parts shown are the counts charged, each at its price |
| Snapshots.DetailShowsTheTier | src/pricing/snapshots.py:225-310 | the tier shown is the one that holds the input tokens |
| Snapshots.EnrichRows | src/pricing/snapshots.py:313-345 | every bound row of a page is shown with its own charge and not as an estimate; an unbound one as an estimate at the newest rates of its day and model or else the current ones, bare if there are none |
| Ledger.DailyUpsertAgrees | src/database/usage.py:286-391 | the upsert of one row keeps the daily table equal to the group-by of the rows |
| Ledger.DailyRowsCountTheirRequests | src/database/usage.py:286-391 | the daily table has a row exactly per day, provider, model, client and user with requests, each column adding up its own field |
| Ledger.RecalculationKeepsDailyIff | src/database/usage.py:271-283 | exactly when a recalculation keeps the daily table equal to the group-by |
| Recording.FindDuplicate | src/database/usage.py:128-200 | the closest row in time of the other collection path with the same shape, or none |
| Recording.DuplicatesAreReportsOfOneCall | src/database/usage.py:100-180 | exactly those pairs are taken for one call that come from both paths at most fifteen seconds apart, from one client under any of its labels, with the same user, model and counts |
| Recording.RowsSayWhatWasReported | src/recorder.py:58-136 | what is skipped, what a new row says field by field, and what a merge changes |
| Recording.RowIsChargedAtItsPrices | src/recorder.py:93-136 | a new row's costs are its counts at the prices that hold for it |
| Recording.OwnRowsDecideTheMerge | src/database/usage.py:128-200 | whether a request finds a duplicate, and which rows it can be merged into, depends on the rows of its own user alone |
| Recording.ConsistentSessionsStayPut | src/database/usage.py:201-234 | over a run from empty tables whose like requests never name two sessions, no row changes its session |
| Ledger.MergeKeepsSessionsOk | src/database/usage.py:201-234 | a merge keeps every session's record right except those whose rows change hands |
| Ledger.MergeKeepsSessionsIff | src/database/usage.py:201-234 | exactly when a merge keeps all single-user sessions right |
| Ledger.MovedRowIsMissed | src/database/usage.py:201-234 | when a session id is replaced, the session left behind no longer agrees |
| Ledger.MovedSession | src/database/usage.py:201-234 | an OTLP report merged into a proxy row of another session leaves that session's record wrong |
| Ledger.RecalculationKeepsSessionsOk | src/database/usage.py:508-539 | a recalculation keeps every session's record right |
| Ledger.SessionsStayWithTheirUser | src/database/sessions.py:143-208 | rows of another user change no session record |
| Ledger.RebuildSessions | src/database/sessions.py:266-316 | grouping the ordered query and rebuilding gives a right record for every session |
| Ledger.Tables.LogUsage | src/database/usage.py:237-261 | inserting a row keeps rows, daily table and sessions in agreement |
| Ledger.Tables.RecordUsage | src/recorder.py:31-136 | a request is skipped if it is a success without tokens, enriches the nearest row in which the other path reported the same call, or else is inserted as reported, at its resolved price; all tables stay in agreement |
| Ledger.Tables.RecordSnapshot | src/recorder.py:139-161 | the snapshot holds the resolved rates of the row's day and model, or none is written |
| Ledger.Tables.MergeInto | src/database/usage.py:201-234 | the merged row, and agreement outside the sessions it moves between |
| Ledger.Tables.Recalculate | src/database/usage.py:404-566 | not found, unpriced, or repriced and bound to a snapshot of its day, model and rates; only that row changes, both roll-ups move by the difference, and all tables stay in agreement |
| Ledger.EstimatedRows | src/database/usage.py:569-582 | which rows a bulk recalculation is for |
| Ledger.Tables.RepriceEstimated | src/database/usage.py:585-633 | every row examined is repriced, or left alone without a price, and no other changes; the numbers reported add up, respect the limit and count the rows now bound |
| Ledger.FetchEstimatedIds | src/database/usage.py:569-582 | exactly the unbound rows of the window, once each, in time order |
| Ledger.Tables.Rebuild | src/database/sessions.py:266-316 | afterwards every single-user session agrees, also those a merge had moved |
| Ledger.Tables.Run | src/recorder.py:31-136 | every operation of a run does to the rows what it is for; and in every state the run reaches the daily table is the group-by of the rows and every bound row replays its charge; no row is lost or changes tokens, user or time; and every single-user session agrees except exactly those the run's own history moved a row between since the last rebuild |
| Ledger.Tables.RunFromScratch | src/recorder.py:31-136 | on new tables every session no row was moved between agrees, and all of them do when requests name sessions consistently |
| Reports.QueriesClassifyAlike | src/database/usage.py:1422-1515 | the cases of the raw query and those of the daily upsert classify every row alike |
| Reports.LinesCountTheirRows | src/database/usage.py:730-767 | a report has a line exactly for the groups with a row that passes the filters, each column adding up its own field over them |
| Reports.SummarizeRaw | src/database/usage.py:1422-1515 | the report line of every provider and model is the sum of its matching raw rows, counted by the raw query's own cases |
| Reports.SummarizeDaily | src/database/usage.py:1696-1763 | the daily table gives the same report for whole days, as a consequence of the roll-up invariant |
| Reports.CountDaily | src/database/usage.py:1177-1230 | the daily request count is the number of raw rows of those days |
| Reports.Summarize | src/database/usage.py:858-904 | short ranges are answered exactly, ranges of two days and more for the whole UTC days of the two dates as written |
| Reports.ReportIsUnique | src/database/usage.py:1696-1763 | two answers that meet the description are the same report |
| Reports.UtcOnlyWidens | src/database/usage.py:858-904 | a range written in UTC is only ever widened |
| Reports.WideRangesKeepTheirOrder | src/database/usage.py:858-904 | a range of two days or more starts no later than it ends in its written dates too, whatever its offsets |
| Reports.PathsAgreeIff | src/database/usage.py:858-904 | for ranges with any offsets, the two paths give the same requests, tokens, costs, status counts and latency sums exactly when, for every group, what the daily path adds at the ends sums to what it leaves out |
| Reports.RowsDecide | src/database/usage.py:858-904 | no matching row in one range only is enough for that, and is also necessary when one range holds the other |
| Reports.WidenedRange | src/database/usage.py:858-904 | a range starting just after midnight counts a row of midnight on the daily path only |
| Reports.OffsetShiftsTheDate | src/database/usage.py:858-904 | a range written with an offset loses a row on the daily path |
| Correlation.ScopedIsInjective | src/otlp.py:188-193 | a scoped key names one user and one identifier, and belongs to that user only |
| Correlation.NotedHolds | src/otlp.py:264-291 | a redelivered decision completes its entry and adds none; ids stay distinct |
| Correlation.WithoutHolds | src/otlp.py:314-329 | popping an id removes that id and no other |
| Correlation.SincePartitions | src/otlp.py:332-366 | the flush splits the waiting calls into those recorded and those kept |
| OtlpCollector.BufferToolCall | src/otlp.py:264-291 | the search loop adds or merges the entry |
| OtlpCollector.BufferToolDuration | src/otlp.py:294-311 | the first entry with the id gets the duration, and whether there was one |
| OtlpCollector.PopBufferedTool | src/otlp.py:314-329 | the entry found and the buffer without it, the key removed when nothing is left |
| OtlpCollector.FlushEarly | src/otlp.py:332-366 | the loop records the early calls in order and keeps the late ones |
| OtlpCollector.Collector.EvictStale | src/otlp.py:1100-1124 | exactly what is older than ten minutes is deleted, for all users |
| OtlpCollector.Collector.ConsumeForUsageEvent | src/otlp.py:439-466 | the inline length, else the oldest queued one, which is removed |
| OtlpCollector.Collector.Receive | src/otlp.py:1095-1146 | a post evicts, then handles the records up to the limit, and reports the number it rejected |
| OtlpCollector.Collector.ReceiveAll | src/otlp.py:1095-1146 | after any posts the class's own log holds, for each user, what that user's posts alone would give; every buffered call is accounted for; recorded calls belong to their user and its rows |
| OtlpCollector.LifeIsSound | src/otlp.py:1095-1146 | those three results together, of every life of posts |
| OtlpIsolation.HandleIsLocal | src/otlp.py:838-1013 | an event does to its user's view what it does to the state, and nothing to anyone else's |
| OtlpIsolation.EvictAgain | src/otlp.py:1100-1124 | an earlier eviction takes nothing that a later one would leave |
| OtlpIsolation.UsersDoNotInterfere | src/otlp.py:1095-1146 | the records made for a user are exactly those its own posts alone would give, and its state differs only in stale entries |
| OtlpFates.EventIsAccounted | src/otlp.py:838-1013 | a slot an event empties is recorded exactly once unless the usage was skipped; every other slot records nothing |
| OtlpFates.SweepIsAccounted | src/otlp.py:1108-1119 | an eviction records nothing and empties a slot exactly when the last entry of its key is stale |
| OtlpFates.FateIsTrue | src/otlp.py:838-1013 | a buffered call leaves in exactly one way; dropped only by its user's usage event that recording skipped, evicted only when stale |
| OtlpFates.CallsAreConserved | src/otlp.py:264-366 | over any run, calls buffered are calls recorded, evicted, dropped or still waiting, and ids within a key stay distinct |
| OtlpFates.RunIsItsSteps | src/otlp.py:1095-1146 | so the same holds of every run of posts |
| OtlpFates.RecordedIdsAreScoped | src/otlp.py:192-193 | every recorded call carries its tool id scoped by its user |
| OtlpReferences.CallsPointToOwnRows | src/otlp.py:838-1013 | a recorded tool call that names a usage row names one recorded earlier for the same user |
| OtlpRecords.ClaudeRequestIsRecorded | src/otlp.py:508-562 | the usage entry of a Claude request, field by field from its attributes |
| OtlpRecords.CodexCompletionIsRecorded | src/otlp.py:738-835 | the usage entry of a Codex completion, field by field, with the latency and first-token time known of its turn |
| OtlpRecords.MessageIsRecorded | src/otlp.py:565-648 | the usage entry of an OpenCode or Kilo message, its completion including the reasoning |
| OtlpRecords.OnlyTheseYieldUsage | src/otlp.py:838-1013 | no other event yields a usage entry |
| OtlpRecords.ClaudeIsCharged | src/otlp.py:508-562 | input, cache reads and cache writes are charged side by side, each at its own price |
| OtlpRecords.CodexIsCharged | src/otlp.py:738-835 | cache reads are charged at their own price and taken off the input |
| OtlpRecords.MessageIsCharged | src/otlp.py:565-648 | as for Claude, with the reasoning charged as output |
| OtlpRecords.CodexCompletionTakesItsTools | src/otlp.py:811-996 | the tools waiting in the conversation are recorded in order against the completion's row, and the turn is used up |
| OtlpRecords.MessageTakesItsTools | src/otlp.py:616-680 | so are those waiting for a message |
| OtlpRecords.ClaudeRequestFlushesEarlierTools | src/otlp.py:332-366 | a recorded request takes exactly the prompt's tools decided before it began; the others keep waiting |
| OtlpRecords.ClaudeRequestIsRemembered | src/otlp.py:963-973 | what is kept of a recorded request for later results |
| OtlpRecords.ClaudeDecisionWaits | src/otlp.py:862-874 | what a Claude decision buffers, or completes |
| OtlpRecords.CodexDecisionWaits | src/otlp.py:896-907 | what a Codex decision buffers; the wrapper tool is skipped |
| OtlpRecords.MessageDecisionWaits | src/otlp.py:928-942 | what a message tool's decision buffers |
| OtlpRecords.ClaudeResultIsRecorded | src/otlp.py:875-895 | a result records the waiting call with its duration, against the prompt's last request if there is one |
| OtlpRecords.CodexResultIsNoted | src/otlp.py:908-927 | a result completes the waiting call, or else the stored one |
| OtlpRecords.TurnLearns | src/otlp.py:683-735 | what each state event tells about a turn |
| OtlpRecords.SweepTakesWhatIsStale | src/otlp.py:1100-1124 | exactly what is older than ten minutes goes, and the rest is as it was |
| OtlpRecords.LiveRecordsAreKept | src/otlp.py:1073-1092 | records of retired services do not count |
| OtlpRecords.FirstRecordsGetIn | src/otlp.py:1126-1140 | of the others the first get in, up to the limit |
| OtlpRecords.OneThreadOneQueue | src/otlp.py:479-500 | prompt and usage events of a client share a queue exactly when they share the strongest of prompt, conversation and session |
| OtlpJoins.CodexLatencyIsMeasured | src/otlp.py:683-796 | a turn whose start, first token and completion arrive in one post or several is recorded with its real latency and first-token time, and used up; in between there may be other users, other conversations, its own tools, and evictions within ten minutes of the start |
| OtlpJoins.OtherPostsSpareTurn | src/otlp.py:1095-1146 | whole posts of other users within those ten minutes are such a thing in between |
| OtlpJoins.ToolGoesToItsRequest | src/otlp.py:865-973 | a tool decided after a recorded request and finished before the next is recorded against that request, with its result's duration, in one post or several; in between there may be other users, other prompts, other tools of the prompt, and evictions that find it in use |
| OtlpJoins.StepMovesQueue | src/otlp.py:415-466 | a usage event without a length of its own records the oldest one waiting, or zero; every other step only adds to the queue |
| OtlpJoins.LengthsAreDrawnInOrder | src/otlp.py:415-466 | over any run in which the queue is not evicted, the lengths the recorded requests show followed by those waiting are those queued, in order: each is handed out once, oldest first |
| OtlpJoins.PromptLengthReachesItsRequest | src/otlp.py:415-500 | a prompt's length is recorded with the next usage event of its client and thread |
| ToolCalls.FirstDeliveryWins | src/recorder.py:191-231 | one stored call per id, the first delivered; it raised its session's counter at most once, exactly when the session existed |
| ToolCalls.FoundMeansUsageBefore | src/database/sessions.py:228-247 | a call finds its session exactly when the session's first usage row came before and was of the same user |
| ToolCalls.DurationsAreFilledIn | src/recorder.py:164-188 | a late duration is filled into the stored call of the same id, user and client only |
| ToolCalls.CountersAreExact | src/database/sessions.py:228-247 | every session counter is the number of distinct calls that raised it |
| ToolCalls.CounterCountsFound | src/database/sessions.py:228-247 | every counter is the number of stored calls of its session and name that found the session's record when they first came |
| ToolCalls.CountersAgreeWithRebuildIff | src/database/sessions.py:228-312 | a session's counters equal those of the rebuild exactly when it has no usage row, or its record existed, for the same user, at each first delivery that names it |
| ToolCalls.RecordsAreOfUsage | src/database/sessions.py:266-312 | a session has a record exactly when a usage row of it was recorded, and counters only with a record |
| ToolCalls.UncountedCall | src/database/sessions.py:228-312 | a call stored before its session's first usage row: counted zero step by step, one by the rebuild |
| ToolCalls.StoredCallsBelongToTheirUser | src/otlp.py:188-193 | after any run of posts an id names at most one stored call, of the user it is scoped by |
| ToolCalls.ToolTables.Store | src/recorder.py:164-231 | over any log of deliveries: one stored call per id, its first delivery, and counters that count the calls that found their session |
| Jobs.EveryRunIsSafe | src/database/evaluation_jobs.py:52-103 | under any interleaving of reads and guarded updates a session has at most one active job, `finished_at` is set exactly on finished jobs, and finished jobs never change |
| Jobs.ClaimsAndReports | src/database/evaluation_jobs.py:498-559 | a claim starts a waiting job, a report ends a running one as it says, and nothing else changes |
| Jobs.PromotionsAndRetargets | src/database/evaluation_jobs.py:119-168 | what a promotion or another evaluator changes, and when |
| Jobs.StaleJobsFail | src/database/evaluation_jobs.py:275-303 | a stale job fails exactly if status and start, or creation, are as read |
| Jobs.CreationsWait | src/database/evaluation_jobs.py:52-103 | a job is created waiting unless the session has one that waits or runs |
| Jobs.LateReportsDoNothing | src/database/evaluation_jobs.py:521-559 | a success or failure reported after the job finished changes nothing |
| Jobs.StaleCheckSeesTheClaim | src/database/evaluation_jobs.py:275-303 | a stale check acts exactly while the status is as it was read; one that read a queued job cannot fail it once claimed |
| Jobs.WithoutClaims | src/database/evaluation_jobs.py:281-303 | without claims the running jobs only become fewer and active jobs grow by at most the creations; without creations too, the waiting and active ones only shrink |
| Jobs.ActiveUnlessEnded | src/evaluation.py:1121-1175 | an active job stays active over any statements exactly when none of them finishes it |
| JobQueue.RankQueue | src/database/evaluation_jobs.py:171-193 | the ordered query lists each waiting job of a known session once: manual first, then latest session, then oldest job |
| JobQueue.RankingIsInOrder | src/database/evaluation_jobs.py:171-176 | what comes first: manual jobs, later updated sessions, older jobs |
| JobQueue.RankingIsComplete | src/database/evaluation_jobs.py:179-193 | no waiting job of a known session is left out |
| JobQueue.RankingIsUnique | src/database/evaluation_jobs.py:171-176 | with distinct order keys the query has one answer |
| JobQueue.ClaimsFollowRanking | src/database/evaluation_jobs.py:179-222 | repeated claims take the waiting jobs in exactly the ranked order |
| JobQueue.ActiveProgressMap | src/database/evaluation_jobs.py:349-397 | running jobs are first; the k-th waiting one has all running and k waiting jobs ahead |
| JobQueue.ClaimKeepsPositions | src/database/evaluation_jobs.py:349-397 | a claim leaves every other waiting job's position unchanged |
| JobQueue.EndMovesUp | src/database/evaluation_jobs.py:349-397 | the end of a running job lowers every waiting position by exactly one |
| JobWorker.JobTable.CreateJob | src/database/evaluation_jobs.py:52-103 | inserted, the user's active job returned, or a conflict, exactly as the unique index decides, with statements of others before the row is read back |
| JobWorker.JobTable.FindActive | src/database/evaluation_jobs.py:454-496 | a fresh active job of the session and user, after failing the stale ones and touching nothing else |
| JobWorker.JobTable.FailStaleRunning | src/database/evaluation_jobs.py:242-272 | exactly the running jobs started five minutes ago or earlier are failed, and counted |
| JobWorker.JobTable.StartSession | src/evaluation.py:1121-1175 | with others running between its transactions: refused exactly by its guards, at most one job created, the answer a row of the session and user that was active when found, manual if so asked unless the insert lost a race; the row shown is active exactly when nothing since finished it. Alone, exactly which job is answered and how it changes |
| JobWorker.JobTable.ClaimNext | src/database/evaluation_jobs.py:196-222 | with others running and creating jobs in between: the retry loop claims one job that is waiting, or finds none waiting; without interference the head of the ranking |
| JobWorker.JobTable.Enqueue | src/evaluation_worker.py:179-216 | active jobs end at most at the larger of what was there and the target depth, plus what others created meanwhile; every candidate within the free slots has a job afterwards; alone, exactly those jobs are added |
| JobWorker.JobTable.ClaimUpTo | src/evaluation_worker.py:396-401 | whatever is created meanwhile, the claim loop never exceeds the bound, claims each job once, and stops only at the bound or with nothing waiting; alone, it claims in the order of the ranking |
| JobWorker.JobTable.Tick | src/evaluation_worker.py:383-401 | a tick keeps the running jobs within the bound, whatever is created during it; stale jobs have timed out, and it ends at the bound or with nothing waiting; alone, it is exactly sweep, fill and claims |
| WorkerRuns.StatementsAreThoseOfATick | src/evaluation_worker.py:383-401 | each statement of a tick does that part of the whole tick |
| WorkerRuns.WorkerStaysWithinBound | src/evaluation_worker.py:383-478 | for any interleaving of the loop, the single statements of its ticks, new requests and finishing evaluations: at most one tick is under way and the running jobs stay within the bound |
| WorkerRuns.OverlapBreaksBound | src/evaluation_worker.py:383-478 | two ticks that begin together both count before either claims, and exceed the bound |
| Timeline.PlaceTools | frontend/src/components/RequestTimeline.tsx:83-161 | every timed tool is placed by its own start, its timestamp distance or the running offset |
| Timeline.ToolsKeepTheirDuration | frontend/src/components/RequestTimeline.tsx:83-161 | every tool is drawn with its own duration |
| Timeline.StampedToolsKeepTheirDistance | frontend/src/components/RequestTimeline.tsx:103-115 | with distinct timestamps and a start missing, tools are as far apart as their timestamps, the earliest at the first token |
| Timeline.StartedToolsStartThere | frontend/src/components/RequestTimeline.tsx:116-129 | measured starts are kept |
| Timeline.UnstampedToolsFollowEachOther | frontend/src/components/RequestTimeline.tsx:130-160 | otherwise tools follow each other from the first token on, parallel ones aside |
| Timeline.ToolsOfOneMomentStartTogether | frontend/src/components/RequestTimeline.tsx:138-148 | tools of one timestamp start together |
| Timeline.TtftIsWithinTheRequest | frontend/src/components/RequestTimeline.tsx:78-81 | the first token is not drawn past a known latency |
| Timeline.SortPlaced | frontend/src/components/RequestTimeline.tsx:163-164 | the same tools, ordered by start and end |
| Timeline.MakeClusters | frontend/src/components/RequestTimeline.tsx:166-186 | the clusters are the tools in order, each joined only by overlap or a parallel mark, and always by a parallel mark |
| Timeline.DifferentClustersNeverOverlap | frontend/src/components/RequestTimeline.tsx:166-186 | tools of different clusters never overlap |
| Timeline.ClippedCovers | frontend/src/components/RequestTimeline.tsx:300-308 | the clipped intervals cover the tool time between TTFT and the total |
| Timeline.Merge | frontend/src/components/RequestTimeline.tsx:309-317 | merged intervals are sorted, separate and cover exactly the same points |
| Timeline.Gaps | frontend/src/components/RequestTimeline.tsx:376-404 | the generation segments and the busy intervals fill the axis with no gap or overlap, and their lengths add up |
| Timeline.OtherGaps | frontend/src/components/RequestTimeline.tsx:340-365 | so do the segments after measured tools |
| Timeline.MeasuredSplit | frontend/src/components/RequestTimeline.tsx:297-373 | generation before the first tool, tool time and other are disjoint and complete |
| Timeline.FillAxis | frontend/src/components/RequestTimeline.tsx:292-412 | from TTFT to the total every moment is exactly one of tool time, generation and other; row durations are the sums of their segments |
| Timeline.BuildTimeline | frontend/src/components/RequestTimeline.tsx:62-450 | the whole layout: placement, clusters, total as the maximum, and the split axis |
| RateLimit.Limiter.Check | src/otlp.py:143-172 | accepts exactly when fewer than the limit of all requests ever accepted for the key lie in the last sixty seconds, whatever clean-ups happened |
| RateLimit.AnyWindowHoldsAtMostLimit | src/otlp.py:143-172 | a history in which any limit + 1 accepted requests span more than a minute has at most the limit in any closed minute |
| RateLimit.Limiter.NoWindowOverflows | src/otlp.py:143-172 | so no closed sixty-second interval ever holds more than the limit for a key |
| RateLimit.DequeCounts | src/otlp.py:163-167 | after popping, the deque's length is the number of accepted requests in the window |
| Streams.Relay | src/proxy.py:404-434 | the nested loops compute the buffered reader |
| Streams.HandledSays | src/proxy.py:417-432 | a readable data line adds its usage fields, replacing earlier ones, and its tool call pieces; other lines add nothing |
| Streams.DataLinesCarryPayloads | src/proxy.py:419-427 | which lines are data lines, and what their payload is |
| Streams.ReaderCatchesUp | src/proxy.py:404-434 | after any chunks a first part of the lines is handled, and only lines behind a failing one can be missing |
| Streams.CuttingDoesNotMatter | src/proxy.py:404-434 | when every data line can be handled, the result is that of splitting the whole stream at its line ends |
| Streams.CuttingMattersIff | src/proxy.py:404-434 | the recorded usage and tool calls are the same for every cutting exactly when nothing behind a failing line contributes to them |
| Streams.HandlingDependsOnCuttingIff | src/proxy.py:404-434 | every cutting gets every data line handled exactly when no data line follows a failing one |
| Streams.LostLine | src/proxy.py:404-434 | a stream whose usage is lost as one chunk and recorded as two |
| Streams.ToolCallAccumulator.Accumulate | src/proxy.py:243-293 | fragments extend or overwrite the call of their index |
| Streams.PiecesAreJoined | src/proxy.py:249-293 | a call sent in appended pieces is joined from its own pieces, whatever comes in between |
| Streams.PiecesOverwrite | src/proxy.py:265-281 | a call sent in overwriting pieces has the last id and name one of them carried |
| Streams.PiecesExtendWhatWasGiven | src/proxy.py:249-293 | appended pieces extend what a call was given before |
| Streams.ToolCallsOf | src/proxy.py:295-300 | the calls with an id, in the order of their indices, which is the list that cuttings are compared on |
| Tokens.EveryRunIsSafe | src/auth/tokens.py:187-358 | any run of sign-ins, revocations and mints keeps the invariant on devices and tokens |
| Tokens.LiveUnlessEnded | src/auth/tokens.py:187-358 | over any run a token stays live exactly unless its owner revokes it or its machine, or the machine signs in again |
| Tokens.RevokedTokenIsNeverResolved | src/auth/tokens.py:187-202 | after its owner revoked it, no continuation makes a token's hash resolve |
| Tokens.LiveTokensAreTheLatest | src/auth/tokens.py:239-358 | a device has at most one live CLI and one live ingest token, both from its latest sign-in, and none while revoked |
| Tokens.SignedInSays | src/auth/tokens.py:239-328 | after a sign-in the machine is not revoked, its new pair is live, its old tokens are revoked, and nothing else changed |
| Tokens.AuthTables.MintDeviceTokens | src/auth/tokens.py:239-328 | the pair is rotated atomically; the loser of a race of first sign-ins rotates the winner's pair |
| Tokens.AuthTables.RevokeDeviceOf | src/auth/tokens.py:331-358 | the device and all its live tokens are revoked, nothing else, and whether anything changed |
| Tokens.AuthTables.RevokeTokenOf | src/auth/tokens.py:187-202 | a live token of this user is revoked, no other token or device changes, and whether that happened |
| Tokens.AuthTables.ResolveToken | src/auth/tokens.py:126-150 | the live token with the hash, never one of a revoked device or of an earlier sign-in |
| Migrations.GroupRows | src/schema_migrations.py:464-523 | one row per key, under its smallest id, with the key's sums |
| Migrations.UpdateThenDelete | src/schema_migrations.py:526-559 | writing the sums and deleting the rest gives such a table too |
| Migrations.MergedIsUnique | src/schema_migrations.py:464-559 | there is only one such table |
| Migrations.BothDatabasesAgree | src/schema_migrations.py:464-559 | so SQLite and PostgreSQL end with the same table, every key's totals kept |
| Migrations.MigrationEstablishesAgreement | src/schema_migrations.py:562-597 | if the duplicates of each key together held its group-by, the merged table is the group-by |
| Migrations.DropSnapshotProvider | src/schema_migrations.py:629-696 | the first snapshot of each version survives, references move to it, dangling ones are cleared |
| Migrations.SurvivorsAreDistinct | src/schema_migrations.py:629-696 | the new unique index holds |
| Migrations.RepointingKeepsReplay | src/schema_migrations.py:629-696 | a bound usage row is bound afterwards to a snapshot of the same date, model, source and rates, and replays the same cost |

## Left out

- Ledger.Tables.RecordUsage: names arrive normalised, `base_url` and the client address bookkeeping beyond the merge are not modelled, and the base-URL lookup is left out.
- Ledger.Tables.LogUsage: the roll-up writes succeed; the code swallows their failures.
- Ledger.Tables.Run: money is exact (no `Numeric(18, 8)` rounding) and recalculations do not run concurrently; user ids are not the empty string, see above. The sessions `MovedIn` names, and sessions shared by two users, are outside the session agreement until a rebuild.
- Sessions.ArrivalOrderDoesNotMatter: `primary_model`, `primary_provider`, `last_usage_id`, `client_source`, `updated_at` and the tool counters are not compared (the counters are in `ToolCalls`).
- Snapshots.EnrichRows: the newest snapshot of a day and model is the one with the greatest id, as ids follow the time of recording. SHA-256 over the rates is taken as injective, the JSON text as the rates themselves.
- PriceMaps.ResolveAllCosts: parsing a YAML or fetched entry is a function parameter; refreshing the global maps is not modelled.
- Reports.Summarize: both ends of the range are given, as instants with a UTC offset; tool throughput, average latency and effective prices of a report line are not modelled. The average latency does differ between the paths when rows lack a latency.
- OtlpCollector.Collector.ReceiveAll: attributes arrive decoded with their types, and a malformed number, which aborts the post, is not modelled. The debug dump of unknown services is left out.
- OtlpCollector.Collector.Receive: a post is one step with one clock reading; authentication, the body limit and the rate limit in front are not part of it (a refused body is a post without records).
- OtlpIsolation.UsersDoNotInterfere: user ids are non-empty and without a colon, the clock does not go back, and the usage row a request yields is a function of the user's own earlier records; for the merge into a duplicate that is `Recording.OwnRowsDecideTheMerge`.
- ToolCalls.FirstDeliveryWins: a session counts as existing once a usage row with its id was recorded; deleting sessions, and merges that take a session its only row, are left out. Two processes racing on the insert are one after the other.
- Jobs.EveryRunIsSafe: all jobs are of the one kind the code creates.
- JobWorker.JobTable.ClaimNext: the sessions' update times are fixed during the loop, and new jobs stop arriving at some time not known to it (with an endless supply the loop need not end); the same holds of `ClaimUpTo` and `Tick`. `WorkerRuns` does without.
- WorkerRuns.WorkerStaysWithinBound: claims come from the worker alone and its setting is fixed; candidates, the availability of the evaluator, and the head of the ordered query are inputs of a statement; logging and task bookkeeping are left out.
- Timeline.BuildTimeline: labels, colours, badges, extra components and the final sort of the rows are left out; numbers are exact.
- RateLimit.Limiter.Check: the limit is fixed and the clock does not go back.
- Streams.CuttingMattersIff: the usage fields are compared as merged; which of them the recorder reads is not modelled.
- Streams.Relay: chunks are cut between characters (the code ignores bytes of a cut character), only ASCII white space is stripped, and JSON parsing is a function parameter; record writing after the stream is in `Ledger`.
- Tokens.AuthTables.MintDeviceTokens: users exist, secrets are known by their hashes, and a lost race is one of first sign-ins; a row lock covers the rest.
- Tokens.AuthTables.ResolveToken: the last-used and last-seen times are not modelled.
- Migrations.GroupRows: the columns other than the user are not NULL; SQL column definitions are left out.
- `_build_usage_window_summary`, period aggregation, evaluation upserts, transcript loading and LLM output parsing: they would add easy members or depend on libraries.
- HTTP routes, OAuth, configuration files, the client CLI and the rest of the frontend: I/O around the modelled parts.
