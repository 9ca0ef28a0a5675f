# A model of the prompt-cache benchmarks and of governed decisions

This project models two parts of the repository in Dafny and proves what they promise.

**The prompt-cache benchmarks of Headroom.** A chat session is replayed request by request through three modes: the
baseline forwards the conversation as it is, token mode forwards whatever a compressor makes of it, cache mode forwards
the last request unchanged and compresses only what is new. The simulator splits every request into tokens read from the
provider's cache, written to it and paid in full, prices them, and counts rewritten requests and broken cache prefixes.
It scores each request one iteration late, when the next one is known. Around it stand the transcript loader, the
checkpointed run over many session files, an event collector and a bust tracer that replay sessions with loops of their
own, the split-and-merge of a grown last message, a local mode benchmark, and the cost analysis of cache lifetimes.

**Governed business decisions of voly.** A plan is created, decided by a human and, once approved, executed. Every call
loads a copy of the stored plan, changes it through the plan engine and saves it; a process may die between any two
effects.

| module | what it holds |
|---|---|
| `Messages` | messages as JSON objects, token counts, common prefixes |
| `Replay` | the direct form of a replay: what each mode forwards and how a turn scores, from its neighbours alone |
| `Simulator` | the replay loop in place, and its refinement of the direct form |
| `ReplayTheorems`, `RewriteShape` | whole-session theorems about cost, counters, stable prefixes and rewrites |
| `Loader` | the transcript loader, and run segmentation |
| `Merging`, `Checkpoints` | merging in any order, checkpoints, worker pools, killed and resumed runs |
| `RunTheorems` | what the merged report of a run keeps, from transcripts on |
| `Events`, `Collector`, `BustTracer` | the two sibling loops, and their agreement with the simulator |
| `Delta` | splitting a grown last message and merging it back |
| `ModeBenchmark` | the local mode benchmark |
| `TtlAnalysis`, `TtlCosts` | the cache-lifetime analysis |
| `PlanEngine`, `Decisions`, `DecisionTheorems` | plans, the decision service, and what it keeps over all runs |
| `DecisionLimits` | calls that overlap, and concrete runs at which the documented reports fail |

Conventions. A message is a JSON object compared by value. A tokenizer gives every message any weight per model, and a
message list the sum of its weights plus a fixed reply overhead: 3 in the counters that keep to
`headroom/headroom/tokenizers/base.py:56-72`, 0 in the benchmark's mock counter
(`headroom/benchmarks/conftest.py:71-73`). A compressor is an arbitrary function of the turns of the session so far, so
it may carry state within a session. Timestamps are integers in any one unit, prices and costs are reals. Effects of the
decision service are listed in a log; `budget` says after how many of them the process dies, which also stands for an
exception at that point.

Where code and documentation part ways the model follows the code:

- `docs/backend/decisions.md:20-21` and `docs/backend/decisions.md:37-38` promise evidence and a task event for every
  attempted execution. The code gives them only to a call that has a configuration and is not cut short;
  `DecisionTheorems.ExecutionReportedExactlyWhen` states exactly when. `DecisionLimits.RunWithoutReport` is a run
  without either, `DecisionLimits.RunWithoutEvent` one without the event.
- Nothing locks a plan between load and save. `DecisionLimits.OverlapRunsTwiceExactlyWhen` states which overlapping
  executions run an action twice, `DecisionLimits.OverlapOverwritesExactlyWhen` which contrary decisions overwrite one
  another; `DecisionLimits.OverlapRunsTwice` and `DecisionLimits.OverlapOverwrites` are such pairs.
- `no_cache_total_cost_usd` leaves out written tokens; `ReplayTheorems.NoCacheCostExactlyWhen` states exactly when that
  makes no difference.
- `cache_hit_pct` counts uncached tokens twice outside the baseline; `ModeBenchmark.HitRateIsTheShareExactlyWhen` states
  exactly when that makes no difference, and `ModeBenchmark.HitRateBelowShare` gives runs in which it does.
- The saved tokens leave out turns that grew: `ModeBenchmark.SavedIsTheDifferenceExactlyWhen` and
  `ModeBenchmark.CompressionIsTheShareExactlyWhen` state when none did, `ModeBenchmark.GrowthIsNotCharged` is a run in
  which one does.
- With no positive cap the event collector still returns one event exactly when the first session that can be replayed
  has a rewrite (`Collector.NoCapCollectsExactlyWhen`; `Collector.ZeroCapYieldsOne` and `Collector.ZeroCapYieldsNone`
  are runs of both kinds); the bust tracer returns up to one. Both are stated for every cap.
- The tail the bust tracer reports for the previous request is that of the broken request itself, with its answer
  (`BustTracer.TailEndsInAnswer`).
- The bust tracer never looks at the last turn; `BustTracer.LastBustIsMissed` is a session whose one bust it misses.
- Checkpoints are named by session id, so different files with one id stand in for one another.
  `Checkpoints.OrderCountsOwnExactlyWhen` and `Checkpoints.WorkersMatterExactlyWhen` state when that shows;
  `Checkpoints.Resume` holds for all files.

## Model

| member | source | states |
|---|---|---|
| Messages.CommonPrefix | headroom/benchmarks/claude_session_mode_benchmark.py:646-656 | two requests agree up to the shared length and differ right after it |
| Messages.CommonPrefixGreatest | headroom/benchmarks/claude_session_mode_benchmark.py:646-656 | two requests agree on their first k messages if and only if k is at most the shared length |
| Messages.CommonPrefixTokens | headroom/benchmarks/claude_session_mode_benchmark.py:646-656 | the loop that stops at the first difference counts the tokens of the longest shared prefix |
| Messages.SharedTokensExtension | headroom/benchmarks/claude_session_mode_benchmark.py:646-656 | a request that extends the previous one shares all its tokens |
| Messages.SharedTokensBounds | headroom/benchmarks/claude_session_mode_benchmark.py:969-992 | the shared tokens never exceed those of either request |
| Simulator.ModeSummary.MeasureTurn | headroom/benchmarks/claude_session_mode_benchmark.py:969-992 | reads, writes, full-price tokens and cache counters of a turn are those its previous and next request determine |
| Simulator.ModeSummary.ApplyTurnMetrics | headroom/benchmarks/claude_session_mode_benchmark.py:955-1013 | every counter of the summary grows by exactly the turn's tokens and costs, and by one request |
| Simulator.ModeSummary.RecordRewrite | headroom/benchmarks/claude_session_mode_benchmark.py:1174-1205 | a rewrite is counted once by its reach and once by what it did to the cached prefix |
| Simulator.ApplyModeSends | headroom/benchmarks/claude_session_mode_benchmark.py:680-695 | with the two contexts the loop keeps, the cache-stable delta always splits off exactly the new input |
| Simulator.NextRequest | headroom/benchmarks/claude_session_mode_benchmark.py:1158-1250 | the conversation, raw size and forwarded list the loop carries are those of the direct form for turn i, and so are the contexts it hands on |
| Simulator.Arrive | headroom/benchmarks/claude_session_mode_benchmark.py:1179-1222 | a new request is classified against the pending one, which is then scored, and the loop lags one turn behind again |
| Simulator.Finish | headroom/benchmarks/claude_session_mode_benchmark.py:1252-1265 | the last pending request is scored with nothing after it |
| Simulator.SimulateReplay | headroom/benchmarks/claude_session_mode_benchmark.py:1137-1267 | the one-turn-delayed loop ends with the sum over all turns of what each turn's window of three requests determines |
| ReplayTheorems.TurnConservation | headroom/benchmarks/claude_session_mode_benchmark.py:969-992 | read, written and full-price tokens of every turn add up to the forwarded ones, so no clamp discards tokens |
| ReplayTheorems.Conservation | headroom/benchmarks/claude_session_mode_benchmark.py:1003-1007 | the same over a whole session, for any requests |
| ReplayTheorems.WriteIsReadBack | headroom/benchmarks/claude_session_mode_benchmark.py:971-990 | with one model the next turn reads at least what this one wrote |
| ReplayTheorems.WritesNeverExceedReads | headroom/benchmarks/claude_session_mode_benchmark.py:971-990 | with one model a session never writes more tokens to the cache than it reads |
| ReplayTheorems.CostsAreThePriceOfTheTokens | headroom/benchmarks/claude_session_mode_benchmark.py:993-1013 | with one model the accumulated costs are the price of the accumulated tokens |
| ReplayTheorems.CostsAddUp | headroom/benchmarks/claude_session_mode_benchmark.py:998-1013 | the total cost of a session is the sum of its four parts, for any models |
| ReplayTheorems.OutputCharged | headroom/benchmarks/claude_session_mode_benchmark.py:932-952 | with one model the output cost of a session is its output tokens at the model's output price |
| ReplayTheorems.InputCostGap | headroom/benchmarks/claude_session_mode_benchmark.py:932-952 | how far the simulated input cost lies below the cost without caching, as a function of reads, writes and the write multiplier |
| ReplayTheorems.CachingNeverCostsMore | headroom/benchmarks/claude_session_mode_benchmark.py:932-1013 | for every write multiplier up to 1.9 a session never costs more than all its forwarded tokens at the full input rate, whatever was forwarded and however often the cache broke |
| ReplayTheorems.NoCacheCostExactlyWhen | headroom/benchmarks/claude_session_mode_benchmark.py:128-132 | with one priced model the reported cost without cache never exceeds that of all forwarded tokens at the full rate and the output, and equals it if and only if nothing was written to the cache |
| ReplayTheorems.BoundIsSharp | headroom/benchmarks/claude_session_mode_benchmark.py:932-1013 | a two-turn session that reuses anything meets that bound if and only if the multiplier is at most 1.9 |
| ReplayTheorems.CounterPartition | headroom/benchmarks/claude_session_mode_benchmark.py:971-983 | over a session rewrites split by reach and by outcome, eligible and expired turns are all but the first, and busting rewrites, busts and eligible turns are ordered, although busts are counted an iteration later |
| ReplayTheorems.TurnPartition | headroom/benchmarks/claude_session_mode_benchmark.py:1179-1205 | the same for each single turn |
| ReplayTheorems.ForwardedGrows | headroom/benchmarks/claude_session_mode_benchmark.py:843-862 | outside token mode every request extends the last one and its answer, for any compressor |
| ReplayTheorems.CacheModeNeverBusts | headroom/benchmarks/claude_session_mode_benchmark.py:843-862 | in cache mode and the baseline no session ever counts a cache bust or a busting rewrite, for any compressor |
| ReplayTheorems.EverythingIsCached | headroom/benchmarks/claude_session_mode_benchmark.py:969-992 | with growing requests, one model and every gap inside the lifetime, each turn but the last reads the whole previous request, writes the rest, and pays in full only for the reply overhead |
| ReplayTheorems.OnlyOverheadIsRegular | headroom/benchmarks/claude_session_mode_benchmark.py:969-992 | so in the baseline and cache mode, for any compressor, a session with one model and no expired gap pays in full only for the reply overhead on every turn but the last |
| ReplayTheorems.WritesTelescope | headroom/benchmarks/claude_session_mode_benchmark.py:985-990 | under the same conditions the writes of a session add up to the size of the last request but one |
| ReplayTheorems.SessionWritesTelescope | headroom/benchmarks/claude_session_mode_benchmark.py:985-990 | and its writes add up to the request of its last turn but one |
| ReplayTheorems.RawTokensCountConversation | headroom/benchmarks/claude_session_mode_benchmark.py:1159-1164 | the running raw count is the size of the whole conversation when the session has one model |
| RewriteShape.RewriteScopeMeans | headroom/benchmarks/claude_session_mode_benchmark.py:659-677 | a request is a retroactive rewrite exactly when it no longer starts with the conversation before the latest turn |
| RewriteShape.BaselineExactlyWhenIdle | headroom/benchmarks/claude_session_mode_benchmark.py:843-862 | cache mode has the baseline's summary if and only if the compressor changes no turn's input |
| RewriteShape.ScopeOfRewrite | headroom/benchmarks/claude_session_mode_benchmark.py:659-677 | with a compressor that keeps the message count, a turn counts as retroactive exactly when the turn before it was rewritten |
| RewriteShape.RewritesFormSuffix | headroom/benchmarks/claude_session_mode_benchmark.py:659-677 | then the rewritten turns are a suffix of the session, its first turn is the only latest-turn-only rewrite and all later ones are retroactive |
| Loader.MaxUsageIsLeastBound | headroom/benchmarks/claude_session_mode_benchmark.py:417-432 | the usage of a run lies below a bound exactly when every event's usage and zero do |
| Loader.FirstsKeepsElements | headroom/benchmarks/claude_session_mode_benchmark.py:412-416 | deduplication keeps every block that occurs |
| Loader.FirstsInOrder | headroom/benchmarks/claude_session_mode_benchmark.py:412-416 | and keeps them in the order of first occurrence, each once |
| Loader.GroupHoldsRun | headroom/benchmarks/claude_session_mode_benchmark.py:401-432 | the group built event by event holds the run's first occurrences and its fieldwise maximum |
| Loader.RunsAreTheMaximalRuns | headroom/benchmarks/claude_session_mode_benchmark.py:379-411 | the segments are exactly the maximal runs of events of one request with nothing between them |
| Loader.TurnsFollowRuns | headroom/benchmarks/claude_session_mode_benchmark.py:306-336 | there is one turn per run, the k-th for the k-th run in order, with the user message directly before the run or none |
| Loader.AddBlocks | headroom/benchmarks/claude_session_mode_benchmark.py:412-416 | the block loop keeps what had not been seen |
| Loader.TakeUser | headroom/benchmarks/claude_session_mode_benchmark.py:361-377 | a user message closes the open group and becomes the input of the next one |
| Loader.StartGroup | headroom/benchmarks/claude_session_mode_benchmark.py:389-432 | an assistant event of a new request closes the open group and starts its own; the user message stays only if no group was open |
| Loader.JoinGroup | headroom/benchmarks/claude_session_mode_benchmark.py:389-432 | an assistant event of the open request joins its group |
| Loader.StreamLines | headroom/benchmarks/claude_session_mode_benchmark.py:339-434 | the loop stops exactly at a line it does not survive, and otherwise has streamed the signals of all lines |
| Loader.LoadSession | headroom/benchmarks/claude_session_mode_benchmark.py:339-452 | a transcript makes the loader raise, has no replay, or has one turn per maximal run of its signals; a read error gives no replay, a line or text that cannot be read raises, and each exactly then |
| Merging.MergeOrderIrrelevant | headroom/benchmarks/claude_session_mode_benchmark.py:1016-1038 | merging the same parts in any order gives the same result |
| Checkpoints.Merge | headroom/benchmarks/claude_session_mode_benchmark.py:1016-1038 | merging adds every counter of the source to the target |
| Checkpoints.AddSwaps | headroom/benchmarks/claude_session_mode_benchmark.py:1016-1038 | summaries may be merged in either order |
| Checkpoints.SimulateFile | headroom/benchmarks/claude_session_mode_benchmark.py:1270-1286 | a session file yields the summary of its recent turns, or an empty summary when it has no replay |
| Checkpoints.WriteKeepsSound | headroom/benchmarks/claude_session_mode_benchmark.py:1101-1108 | writing a file's own summary, or dying while writing it, leaves every readable checkpoint the summary of a file with its session id |
| Checkpoints.SimulateSequentially | headroom/benchmarks/claude_session_mode_benchmark.py:1439-1472 | whatever the checkpoints and the session ids, a sequential run sums what each file finds when its turn comes: the checkpoint it began with, the first earlier file with the same id that left one, or itself; a killed one leaves the directory sound |
| Checkpoints.Submit | headroom/benchmarks/claude_session_mode_benchmark.py:1402-1426 | every file is either merged from its checkpoint or handed to the workers, and those are counted for themselves |
| Checkpoints.Collect | headroom/benchmarks/claude_session_mode_benchmark.py:1427-1437 | results merged in any order of completion give the sum over all files |
| Checkpoints.SimulateSessionFiles | headroom/benchmarks/claude_session_mode_benchmark.py:1375-1474 | a finished run reports, for every mode, the sum that the checkpoints it found determine, although the modes share the directory |
| Checkpoints.Resume | headroom/benchmarks/claude_session_mode_benchmark.py:1375-1474 | however often runs are killed, resumed and given other worker counts, every run that finishes counts each file once, by the summary of a file with its session id; with distinct ids that is the report of one undisturbed run; a run left alone finishes, and the first one reports what an empty directory determines |
| Checkpoints.CountedStandIn | headroom/benchmarks/claude_session_mode_benchmark.py:1375-1474 | in a sound directory, with workers or without, the summaries a run adds up are those of files that stand in for all files, each with the same session id |
| Checkpoints.OrderCountsOwnExactlyWhen | headroom/benchmarks/claude_session_mode_benchmark.py:1439-1472 | from an empty directory a single process counts every file for itself if and only if no earlier file with a replay has the same session id and another summary |
| Checkpoints.PoolCountsOwn | headroom/benchmarks/claude_session_mode_benchmark.py:1402-1437 | from an empty directory a pool counts every file for itself |
| Checkpoints.WorkersMatterExactlyWhen | headroom/benchmarks/claude_session_mode_benchmark.py:1375-1474 | two files with one session id, the first with a replay, give one report with one worker and with two if and only if their summaries are equal |
| RunTheorems.ReportAccounts | headroom/benchmarks/claude_session_mode_benchmark.py:1016-1038 | the merged report of any run conserves tokens, its rewrites split by reach and by outcome, and eligible and expired turns are all requests but the first of each session |
| RunTheorems.ReportNeverBusts | headroom/benchmarks/claude_session_mode_benchmark.py:1016-1038 | over any sessions and with any compressor, cache mode and the baseline report no cache bust and no busting rewrite |
| RunTheorems.ReportNeverCostsMore | headroom/benchmarks/claude_session_mode_benchmark.py:1016-1038 | in every mode, for any write multiplier up to 1.9, a run over sessions of one model each never costs more input than all its forwarded tokens at full price |
| RunTheorems.TranscriptAccounts | headroom/benchmarks/claude_session_mode_benchmark.py:339-452 | whatever lines the transcripts hold, the loaded sessions merge into a report whose accounts are in order |
| RunTheorems.RunOver | headroom/benchmarks/claude_session_mode_benchmark.py:1375-1474 | from transcripts to reports: loaded by the streaming loader, killed and resumed any number of times, every report counts each file once, conserves tokens and counters, has no bust outside token mode, and with one priced model per session and a multiplier up to 1.9 costs no more input than at full price; a transcript that raises leaves no report |
| Events.FirstDifferenceIsLeast | headroom/benchmarks/cache_bust_trace_report.py:55-61 | an index is reported exactly when the requests agree before it and differ at it, or one of them ends there |
| Events.BreakIsInside | headroom/benchmarks/cache_bust_trace_report.py:55-61 | when the current request does not extend the previous one, the index lies strictly inside the previous one |
| Events.FirstDiffIndex | headroom/benchmarks/cache_bust_trace_report.py:55-61 | the loop finds the first difference, or none for equal requests |
| Events.ScanOne | headroom/benchmarks/cache_validation_bundle.py:249-251 | recording one event keeps the list a prefix of all events, and stopping at the cap gives the capped list |
| Collector.MakeEvent | headroom/benchmarks/cache_validation_bundle.py:183-235 | an event has the origin, flags and message tails that the window of the request determines, and there is none without a rewrite |
| Collector.CollectSession | headroom/benchmarks/cache_validation_bundle.py:157-274 | one session yields the first of its rewrite events, as many as there is room for |
| Collector.CollectMode | headroom/benchmarks/cache_validation_bundle.py:153-276 | a mode yields the first events over all sessions up to the cap; without a positive cap, at most one, of the first session that can be replayed |
| Collector.CollectEvents | headroom/benchmarks/cache_validation_bundle.py:141-277 | token mode's events, then cache mode's, each with its own cap |
| Collector.EventMatchesCounters | headroom/benchmarks/cache_validation_bundle.py:183-235 | a turn leaves an event exactly when the simulator counts a rewrite, with the same outcome and reach |
| Collector.EventsCountTheRewrites | headroom/benchmarks/cache_validation_bundle.py:153-277 | over all sessions the flags of the events add up to the simulator's stable, busting and non-eligible rewrites and to their reach |
| Collector.CollectorAgrees | headroom/benchmarks/cache_validation_bundle.py:153-277 | with a positive cap there are min(cap, rewrites) events, the first ones, and when the cap is not exceeded their flags add up to the simulator's counters |
| Collector.NoCapCollectsExactlyWhen | headroom/benchmarks/cache_validation_bundle.py:249-276 | with a cap of zero or less there is one event exactly when the simulator counts a rewrite in the first session that can be replayed, and none otherwise |
| Collector.ZeroCapYieldsOne | headroom/benchmarks/cache_validation_bundle.py:249-276 | a cap of zero lets an event through |
| Collector.ZeroCapYieldsNone | headroom/benchmarks/cache_validation_bundle.py:249-276 | and stops at a quiet first session although a later one has an event |
| BustTracer.TracePending | headroom/benchmarks/cache_bust_trace_report.py:149-177 | an event is recorded exactly when the pending request breaks a live prefix, with its origin, the place of the break, and the ends of the conversation and of the forwarded context the loop has by then |
| BustTracer.TraceMode | headroom/benchmarks/cache_bust_trace_report.py:119-206 | the loop returns the first breaks over all sessions up to the cap, but at least one |
| BustTracer.SiteOfBreak | headroom/benchmarks/cache_bust_trace_report.py:155-176 | the recorded index is the least differing one, lies strictly inside the previous request, and the two recorded messages are the ones that differ |
| BustTracer.TailEndsInAnswer | headroom/benchmarks/cache_bust_trace_report.py:160-176 | what an event shows as the previous tail ends with the answer to the broken request itself |
| BustTracer.SessionBusts | headroom/benchmarks/cache_bust_trace_report.py:137-206 | of the simulator's cache busts in a session the tracer records all but one on the last turn |
| BustTracer.TracerAgrees | headroom/benchmarks/cache_bust_trace_report.py:119-206 | over all sessions the number of events is the simulator's busts less the sessions that end in one, up to the cap |
| BustTracer.NothingToTrace | headroom/benchmarks/cache_bust_trace_report.py:119-206 | outside token mode there is nothing to trace, for any sessions and any compressor |
| BustTracer.TwoTurnsLeaveNoTrace | headroom/benchmarks/cache_bust_trace_report.py:137-206 | a session of two turns never leaves an event |
| BustTracer.LastBustIsMissed | headroom/benchmarks/cache_bust_trace_report.py:137-206 | a session of two turns whose proxy rewrites its messages has one cache bust in the simulator and an empty trace |
| Delta.ExtractSuffix | headroom/benchmarks/claude_session_mode_benchmark.py:698-759 | a split exists exactly when only the last message grew, by appended content, and all three last messages have one role and one kind of content |
| Delta.MergeAppended | headroom/benchmarks/claude_session_mode_benchmark.py:762-783 | a merge exists exactly when nothing was appended or role and kind of content agree |
| Delta.SplitOf | headroom/benchmarks/claude_session_mode_benchmark.py:718-758 | the split holds the forwarded messages and a delta that carries exactly the appended content, or none if nothing was appended |
| Delta.RebuiltExtendsForwarded | headroom/benchmarks/claude_session_mode_benchmark.py:762-783 | whatever the compressor does, the rebuilt request is the last one as forwarded with content appended to its last message |
| Delta.RebuildsExactlyWhen | headroom/benchmarks/claude_session_mode_benchmark.py:698-783 | split, compress and merge succeed exactly when the last message grew and the compressor keeps role and kind of the delta |
| Delta.UnchangedDeltaMerges | headroom/benchmarks/claude_session_mode_benchmark.py:698-783 | an unchanged delta always merges, and appends to the forwarded content what was appended to the original |
| Delta.ContentRestoredExactlyWhen | headroom/benchmarks/claude_session_mode_benchmark.py:698-783 | the merged content is the current one if and only if the previous content had been forwarded unmodified |
| Delta.RequestRestoredExactlyWhen | headroom/benchmarks/claude_session_mode_benchmark.py:698-783 | the rebuilt request is the current one if and only if also the earlier messages were unmodified and the last message's other fields agree |
| Delta.RunKeepsWhatWasSent | headroom/benchmarks/claude_session_mode_benchmark.py:698-783 | over any run of rebuilt requests, with any compressor, a later request keeps everything an earlier one sent |
| Delta.RunRestoresExactlyWhen | headroom/benchmarks/claude_session_mode_benchmark.py:698-783 | a run with unchanged deltas sends every request as it is if and only if its first one was, and the last message changes nothing but its content |
| ModeBenchmark.BuildConversation | headroom/benchmarks/proxy_mode_benchmark.py:77-118 | the loop builds the completed rounds and an open one |
| ModeBenchmark.ConversationGrows | headroom/benchmarks/proxy_mode_benchmark.py:77-118 | the conversation of a turn is a strict prefix of the next one's |
| ModeBenchmark.ModeBenchmarkResult.AddBaselineTurn | headroom/benchmarks/proxy_mode_benchmark.py:160-171 | a baseline turn sends its conversation, claims no savings and no writes |
| ModeBenchmark.ModeBenchmarkResult.AddTurn | headroom/benchmarks/proxy_mode_benchmark.py:209-226 | any other turn is measured against what was forwarded before it |
| ModeBenchmark.SimulateMode | headroom/benchmarks/proxy_mode_benchmark.py:154-228 | the totals are the sums over the turns, for arbitrary forwarded lists |
| ModeBenchmark.ReadsAndUncachedAreSent | headroom/benchmarks/proxy_mode_benchmark.py:158-226 | in every mode reads and uncached tokens add up to the tokens sent, and outside the baseline the writes equal the uncached tokens |
| ModeBenchmark.BaselineUncachedTelescopes | headroom/benchmarks/proxy_mode_benchmark.py:158-172 | the uncached tokens of a baseline run are the size of the final conversation and one reply overhead per turn |
| ModeBenchmark.SavedIsTheDifferenceExactlyWhen | headroom/benchmarks/proxy_mode_benchmark.py:213-215 | the reported savings are the difference between conversation and sent tokens if and only if no turn got larger |
| ModeBenchmark.HitRateIsTheShareExactlyWhen | headroom/benchmarks/proxy_mode_benchmark.py:50-59 | the reported hit rate never exceeds the share of sent tokens that was read, and equals it exactly when nothing was read or everything was |
| ModeBenchmark.HitRateBelowShare | headroom/benchmarks/proxy_mode_benchmark.py:50-59 | over two turns or more that forward the conversation unchanged, the reported hit rate is below the share of sent tokens that was read, for any tokenizer and anything that is said |
| ModeBenchmark.GrowthIsNotCharged | headroom/benchmarks/proxy_mode_benchmark.py:213-215 | one turn that sends a token more than its conversation reports no savings, not a loss |
| ModeBenchmark.CompressionIsTheShareExactlyWhen | headroom/benchmarks/proxy_mode_benchmark.py:44-48 | the reported compression is the share of the conversation that was not sent if and only if no turn got larger |
| TtlAnalysis.SortedIsOrdered | headroom/claude_analysis_ttl.py:77-78 | turns are sorted by time |
| TtlAnalysis.SortedIsPermutation | headroom/claude_analysis_ttl.py:77-78 | sorting keeps every turn |
| TtlAnalysis.SortedIsStable | headroom/claude_analysis_ttl.py:77-78 | sorting keeps the order of turns at one time |
| TtlAnalysis.TurnsOf | headroom/claude_analysis_ttl.py:45-78 | a file contributes its records whose id is new, sorted; one that fails contributes none, yet its ids stay seen |
| TtlAnalysis.SeenExactly | headroom/claude_analysis_ttl.py:67-71 | an id is seen exactly when some earlier record bears it |
| TtlAnalysis.NoMessageTwice | headroom/claude_analysis_ttl.py:67-71 | over all files no two kept records share an id, and every id that occurs is kept once |
| TtlAnalysis.Tally.AddTurn | headroom/claude_analysis_ttl.py:116-124 | a turn is charged to the bucket of the gap before it; sorted turns have no negative gap, so none is skipped |
| TtlAnalysis.Analyze | headroom/claude_analysis_ttl.py:98-124 | after all files the dictionaries hold exactly the entries of the sessions with two turns or more |
| TtlAnalysis.Credit | headroom/claude_analysis_ttl.py:208-215 | adding a dictionary of counts to a category changes just that category, whatever the order of its items |
| TtlAnalysis.AggregateByModel | headroom/claude_analysis_ttl.py:204-220 | each category of a model is the sum of its buckets, first turns counting as unavoidable |
| TtlAnalysis.CategoryHolds | headroom/claude_analysis_ttl.py:104-220 | whatever dictionaries hold the entries, each category adds up the turns it is meant for: gaps below five minutes, from five to sixty, and all others with the first turns |
| TtlAnalysis.TokensConserved | headroom/claude_analysis_ttl.py:104-220 | in-window, avoidable and unavoidable tokens of a model add up to all its cache-creation tokens in sessions |
| TtlAnalysis.Report | headroom/claude_analysis_ttl.py:98-220 | from files to totals: each total of a model holds exactly the tokens of the turns with such gaps, and together they hold those of all deduplicated records in files that do not fail and hold two or more |
| TtlCosts.FirstRow | headroom/claude_analysis_ttl.py:31-34 | price lookup takes the first matching row in table order |
| TtlCosts.PricesAreProportional | headroom/claude_analysis_ttl.py:15-36 | every model is charged by a row of the price table, and all rows have the same proportions |
| TtlCosts.ExtraCost | headroom/claude_analysis_ttl.py:225-236 | the difference between the two strategies, in proportion to the price of a write |
| TtlCosts.CheaperExactlyWhen | headroom/claude_analysis_ttl.py:225-236 | for every model one-hour caching is cheaper if and only if 23 times the avoidable tokens exceed 15 times the others, and equal exactly when these are |
| TtlCosts.VerdictIgnoresModel | headroom/claude_analysis_ttl.py:299-304 | a token mix has the same verdict whichever model it is priced as |
| TtlCosts.TotalCheaperExactlyWhen | headroom/claude_analysis_ttl.py:221-239 | over several models one-hour caching is cheaper in total if and only if 23 times the avoidable tokens less 15 times the others is positive, summed with each model's price of a write as weight |
| TtlCosts.PriceModels | headroom/claude_analysis_ttl.py:221-239 | every model gets one row with its own costs, whatever the order of the dictionary, and the totals are the sums of the rows |
| TtlCosts.Compare | headroom/claude_analysis_ttl.py:98-239 | from files to the verdict: the totals are those of the categories' turns, and one-hour caching is cheaper exactly when their weighed balance is positive |
| TtlCosts.StatsDescribe | headroom/claude_analysis_ttl.py:126-141 | a bucket has statistics unless it is empty; percentiles are in order, all values and the mean lie between the extremes, count and total are those of the unsorted bucket |
| PlanEngine.UnmetDeps | voly/plan/engine.py:118-127 | nothing is unmet exactly when every dependency is verified |
| PlanEngine.LoadedPlan.CollectUnmet | voly/plan/engine.py:118-127 | the loop collects exactly the unmet dependencies |
| PlanEngine.LoadedPlan.Transition | voly/plan/engine.py:151-226 | a legal transition, a permitted skip or a forced one changes one step and recomputes the plan's status; a refused one changes nothing |
| PlanEngine.TransitionKeepsGate | voly/plan/engine.py:182-190 | for any plan and any transition that is not forced, permitted skips included, a step that has started has all its dependencies verified |
| PlanEngine.GateHoldsForever | voly/plan/engine.py:151-226 | the same over any sequence of requested transitions without a forced one |
| PlanEngine.TerminalForever | voly/plan/types.py:29-41 | a plan whose steps are all verified or skipped never changes again, whatever transitions are requested, short of forced ones and `abort` |
| PlanEngine.CompletedIsFinal | voly/plan/engine.py:264-283 | a transition that completes a plan, forced or not, makes it final, short of later forced ones and `abort` |
| PlanEngine.ForceBreaksGate | voly/plan/engine.py:182-190 | a forced transition starts a step whose dependency is not verified, so the gate needs requests without force |
| Decisions.DecisionService.CreatePlan | voly/decisions.py:90-131 | an existing plan is returned as it is; otherwise a new one is saved |
| Decisions.DecisionService.DecidePlan | voly/decisions.py:133-159 | the call replies with the error, the recorded decision or the new one, and does the first part of its effects that the process lives to see |
| Decisions.DecisionService.ExecutePlan | voly/decisions.py:164-204 | the same for execution: saved as running, run, saved as finished, then reported |
| DecisionTheorems.ScriptAllowed | voly/decisions.py:90-204 | on any reachable store every effect of every call keeps to the protocol, and the engine refuses no transition |
| DecisionTheorems.ApplyKeepsInv | voly/decisions.py:90-204 | each such effect, taken alone, keeps the invariant, so a crash may follow any of them |
| DecisionTheorems.AlwaysCoherent | voly/decisions.py:95-199 | over any calls, cut short anywhere, a stored business plan is in one of six combinations of decision, execution, plan status and step statuses |
| DecisionTheorems.AtMostOnce | voly/decisions.py:164-204 | an action runs at most once per plan, and only after the plan was stored as approved and running |
| DecisionTheorems.ReportedAtMostOnce | voly/decisions.py:157-202 | a plan emits at most one task event and one evidence record, evidence only if the action ran, an event either for a rejection or for a run with its evidence |
| DecisionTheorems.ReportsAreTrue | voly/decisions.py:212-261 | every evidence record and task event shows the decision and outcome the plan is stored with, when it is made and ever after |
| DecisionTheorems.AlwaysForward | voly/decisions.py:139-199 | from any point of a run to any later one a recorded decision stays, a finished execution does not reopen, and the action is not swapped |
| DecisionTheorems.NeverIllegal | voly/decisions.py:145-194 | no call on a reachable store ever meets a refused transition |
| DecisionTheorems.SettledForever | voly/decisions.py:140-174 | once a plan is refused, interrupted while running or finished, no later call does anything for it: a run or report cut short is never made up for |
| DecisionTheorems.ExecutionReportedExactlyWhen | voly/decisions.py:180-204 | a started execution runs, leaves evidence and emits its event, then or later, exactly when the starting call lives for two, four or five effects, the last two only with a configuration |
| DecisionTheorems.RejectionReportedExactlyWhen | voly/decisions.py:153-158 | a rejected plan gets its task event, then or later, exactly when the rejecting call has a configuration and lives past the lesson |
| DecisionTheorems.Serve | voly/decisions.py:84-204 | processes that come and go on one store compute exactly the runs the theorems are about |
| DecisionLimits.LateCallStartsExactlyWhen | voly/decisions.py:164-186 | an execution that loads the plan after another one has performed k effects starts if and only if k is zero; otherwise it does nothing |
| DecisionLimits.OverlapRunsTwiceExactlyWhen | voly/decisions.py:164-186 | in every interleaving of two executions, wherever they die, the action runs twice if and only if the second loads before the first has saved anything and both live for two effects |
| DecisionLimits.OverlapRunsTwice | voly/decisions.py:164-186 | from an empty store, a plan is created and approved and two overlapping executions run its action twice, in every schedule |
| DecisionLimits.LateDecisionConflictsExactlyWhen | voly/decisions.py:133-159 | a contrary decision on a plan that was loaded after another one has performed k effects goes through if and only if k is zero; otherwise it is a conflict |
| DecisionLimits.OverlapOverwritesExactlyWhen | voly/decisions.py:133-159 | in every interleaving of two contrary decisions, wherever they die, one is recorded over the other if and only if the second loads before the first has saved and both live to save |
| DecisionLimits.OverlapOverwrites | voly/decisions.py:133-159 | from an empty store, a plan is created, and an overlapping approval and rejection are both recorded, in every schedule |
| DecisionLimits.ApprovalReachesStart | voly/decisions.py:90-174 | a created and approved plan is one that an execution starts, so the theorems about started executions are about something |
| DecisionLimits.RunWithoutReport | voly/decisions.py:180-204 | an execution without a configuration runs its action, and whatever follows it never leaves evidence or an event |
| DecisionLimits.RunWithoutEvent | voly/decisions.py:180-204 | one with a configuration whose process dies after the evidence never gets its event |

## Left out

- Overlaps other than those of two executions or two decisions of one plan: nothing locks load, check and save, and all other theorems take calls one after the other.
- Executor choice by capability matching, comments, timestamps, ranking fields and the report text of a plan: they steer nothing in the protocol.
- Topological order, structural validation and `abort` of the plan engine: the decision service uses none of them. Duplicate step ids are covered by the transition function and excluded only where the gate is proved.
- PlanEngine.LoadedPlan.Transition: does not model error texts and start times, which steer nothing.
- PlanEngine.TransitionKeepsGate: does not hold of forced transitions, as `PlanEngine.ForceBreaksGate` shows.
- PlanEngine.GateHoldsForever: does not hold of forced transitions; `abort` is not among the requests, it changes no step.
- PlanEngine.TerminalForever: does not hold of forced transitions and of `abort`, which are there to override it.
- PlanEngine.CompletedIsFinal: does not hold of later forced transitions and of `abort`.
- Collector.MakeEvent: leaves out the shortening of the messages an event shows, and their redaction, which are formatting.
- Tokenizers that count a message list as a whole: chat templates (`headroom/headroom/tokenizers/huggingface.py:223-248`), and Mistral's, which also gives 0 for an empty list (`headroom/headroom/tokenizers/mistral.py:166-178`).
- The compression pipeline, `CompressionCache`, `PrefixCacheTracker` and real tokenizers are not part of this model: they are the arbitrary functions `Proxy` and `Setup` carry. The collector and the tracer share one proxy between sessions; the model takes its answer to depend on the session alone.
- Image compression and the older cache branch without delta replay (`headroom/benchmarks/claude_session_mode_benchmark.py:822-841`, `headroom/benchmarks/claude_session_mode_benchmark.py:866-881`).
- Floating-point rounding: costs are reals. In floats merging in another order may differ in the last digits, and the 95th percentile index is taken as 19n/20 exactly.
- The checkpoint directory name omits the write multiplier (`headroom/benchmarks/claude_session_mode_benchmark.py:468-479`): all runs over one directory are taken to share it, as they do the files.
- Unreadable checkpoint files, other than those cut short by a crash, and runs without a checkpoint directory are not modelled separately.
- Block identity in the loader is JSON equality, which stands for equality of the canonical JSON text. Python's identification of `1`, `1.0` and `True` is not modelled.
- Message ids that are not strings, and zone-less timestamps beyond the fact that they cannot be compared with zoned ones, in the lifetime analysis.
- Cache-marker injection (`headroom/benchmarks/prefix_cache_benchmark.py:399-512`), which places a few markers in a request.
- Reports, console output, command lines, file discovery, git worktrees and process pools as such: input and output. A pool is an arbitrary order of completion.
- The other benchmarks, routers, policies and telemetry: drivers around libraries, keyword tables or single-branch choices.
