# MediaVault backend: a verified model

MediaVault ingests RTSP cameras by running one FFmpeg process per stream, publishes them through
Wowza, watches them over a WebSocket gateway, and keeps evidence, an audit log, alerts and
sessions around that. This project models the parts of it whose behaviour comes from the
interplay of calls, handlers and clocks, and proves what they keep over every run.

**The ingestion supervisor** (`Ingestion*.dfy`). A *generation* is one accepted start: the state
object and configuration that its process handlers close over. A *token* of a generation is a
process of it that has not closed or a reconnect timer that has not fired. `IngestionModel` is the
state machine over start, stop, restart, process error, process close and timer firing, in any
order; `IngestionServices` is the object with its three maps and shared state objects, and each of
its methods is proved to take exactly the step of the machine. Results:

- every interleaving: a generation owns at most one token; entries of the maps describe their own
  stream; stop is final and failures are absorbing until the next accepted start;
- which starts are accepted is told by the last probe, the maps, the timers and the arguments; a
  stream that waits to reconnect is started again;
- a start keeps its stream to one process exactly if the stream had drained. The code accepts
  others, and restarts straight after a stop, so the condition is the caller's:
  `RestartDoublesProcesses` and `SecondStartDoublesProcesses` give runs that leave two processes;
- a process that ends by itself with code 0 or by a signal leaves its stream listed as RUNNING with
  nothing to run, and start is refused until a stop or a restart: exactly these exits do;
- the spawns of a generation are bounded exactly if its maximum is positive, and then an explicit
  measure makes it drain, whatever other generations do; the delays back off as documented exactly
  if the base is not negative.

**Its clients** (`Streams*.dfy`, `Gateway*.dfy`). Stream rows are frozen while their stream is
ingested, so the row of a running stream says what is streamed; where calls overlap, the exact
condition under which it keeps saying so is proved. The gateway's overlapping polls tell both
rooms exactly the changes between neighbouring observations.

**Timed state** (`Alerts*.dfy`, `RedisCache.dfy`, `Blacklist.dfy`). The alert cooldown as a rate
bound, met exactly; cache-aside with bounded staleness; revoked tokens stay out. Triggers and
updates of an alert rule read the row, wait, and write the whole row back: which overlaps and
failures are harmless and which settings survive is proved exactly, and so is when a deleted cache
key stays fresh and when a revocation or a logout ends a session for good.

**Data with a meaning to keep** (`Audit*.dfy`, `RoleSeed.dfy`, `Custody.dfy`, `Listing.dfy`).
The CSV printer against a reader of section 2 of RFC 4180, the de-duplication of roles, the
custody of evidence files, paging, and counting of connections.

Conventions: the process table, clocks, random jitter, SQL query results and Wowza's answers are
parameters; a thrown exception is a `Reply` value; times are integers in milliseconds except the
timer delays, which are reals.

## Model

| member | source | states |
|---|---|---|
| `IngestionModel.Step` | src/modules/ingestion/ingestion.service.ts:98-256 | whatever event comes next, `processes` has its keys among those of `states`, which are those of `configs`, and nothing refers to a generation, process or timer that does not exist |
| `IngestionInvariants.InvStep` | src/modules/ingestion/ingestion.service.ts:98-256 | every event keeps: map entries describe their own stream and its stored configuration; statuses in the map are RUNNING, RECONNECTING, ERROR or MAX_RETRIES, the last two only off `processes`; one token per generation; attempts at most the maximum plus one |
| `IngestionInvariants.InvRun` | src/modules/ingestion/ingestion.service.ts:98-256 | the same over every run, in any interleaving of calls, handlers and timers |
| `IngestionInvariants.InvDrop` | src/modules/ingestion/ingestion.service.ts:172-209 | a process that closes or a timer that fires leaves its generation without any token, so at most one takes its place |
| `IngestionInvariants.RestartIsStopThenStart` | src/modules/ingestion/ingestion.service.ts:249-256 | a restart does what a stop and a start with the stored configuration do, so runs with the two apart cover whatever happens between its halves |
| `IngestionSafety.TokensAtMostStarts` | src/modules/ingestion/ingestion.service.ts:138-211 | un-closed processes plus pending timers of a stream never exceed its accepted starts |
| `IngestionSafety.SummaryAddsUp` | src/modules/ingestion/ingestion.service.ts:266-277 | in every reachable state total = running + reconnecting + error |
| `IngestionSafety.StopFindsState` | src/modules/ingestion/ingestion.service.ts:213-225 | in every reachable state a listed stream has its state object and configuration and counts as running, so stop's unchecked lookup finds it |
| `IngestionSafety.StopIsFinal` | src/modules/ingestion/ingestion.service.ts:213-240 | after a stop, no late error, close or timer spawns a process of the stream or puts it back in a map until the next accepted start; its state object reads STOPPED at once, and STOPPED or ERROR until then |
| `IngestionSafety.FailureIsAbsorbing` | src/modules/ingestion/ingestion.service.ts:164-194 | ERROR and MAX_RETRIES of the current generation stay until the next accepted start |
| `IngestionExclusive.StartIsSafeIffDrained` | src/modules/ingestion/ingestion.service.ts:98-136 | an accepted start keeps its stream well behaved (one process, live process listed, running iff listed, RECONNECTING iff a timer is pending) up to the next accepted start, exactly if every earlier process had closed and every timer fired |
| `IngestionExclusive.RestartIsSafeIffDrained` | src/modules/ingestion/ingestion.service.ts:249-256 | the same of a restart: its own stop drains nothing |
| `IngestionExclusive.RestartDoublesProcesses` | src/modules/ingestion/ingestion.service.ts:254-255 | for every configuration with safe arguments, a start and a restart leave two un-closed processes of one stream |
| `IngestionExclusive.StartBesideTimer` | src/modules/ingestion/ingestion.service.ts:105-112 | a start accepted while a timer of the stream is pending leads to two processes when the timer fires |
| `IngestionExclusive.OneProcessPerStream` | src/modules/ingestion/ingestion.service.ts:98-285 | in every run where starts of the stream wait for it to drain, one process at most, any live process is the listed one, running iff listed, RECONNECTING iff a timer is pending |
| `IngestionExclusive.StuckIffCleanExit` | src/modules/ingestion/ingestion.service.ts:172-181 | for a stream whose processes and timers all belong to its current start, the close of the listed process leaves the stream listed and RUNNING with nothing of it left to run, exactly if the code is 0 or absent |
| `IngestionExclusive.StuckUntilStopped` | src/modules/ingestion/ingestion.service.ts:105-112 | such a stream stays so, with every start of it refused, through every run without a stop or restart of it |
| `IngestionExclusive.RestartIsSafeIffStuck` | src/modules/ingestion/ingestion.service.ts:249-256 | for a stream whose processes and timers all belong to its current start, an accepted restart is safe exactly if the stream is stuck in that way: restarting one that works or waits to reconnect is not |
| `IngestionAcceptance.StartRepliesAre` | src/modules/ingestion/ingestion.service.ts:98-116 | for a stream whose processes and timers all belong to its current start: unavailable if FFmpeg is not there; else conflict exactly if its process is listed and no timer of it is pending; else bad request exactly for unsafe arguments; else accepted, a stream waiting to reconnect included |
| `IngestionAcceptance.StartIsAcceptedIff` | src/modules/ingestion/ingestion.service.ts:98-136 | in every run where starts of the stream wait for it to drain, a start makes a generation exactly if the last probe found FFmpeg, the stream is not listed or waits for a timer, and no argument is unsafe |
| `IngestionAcceptance.UnknownStreamIsStarted` | src/modules/ingestion/ingestion.service.ts:105-133 | whatever the interleaving, a stream without a state is started if FFmpeg is there and the arguments are safe |
| `IngestionAcceptance.AcceptedAddsGeneration` | src/modules/ingestion/ingestion.service.ts:123-149 | an accepted start adds one generation with its configuration, running and with no attempts; a refused one changes nothing |
| `IngestionAcceptance.RestartIsAcceptedIff` | src/modules/ingestion/ingestion.service.ts:249-256 | a restart makes a generation exactly if the stream is listed, FFmpeg is there and the stored arguments are safe |
| `IngestionAcceptance.UnsafeArgsIff` | src/modules/ingestion/ingestion.service.ts:64-73 | arguments are unsafe exactly if one begins with `-filter_complex` and has shell, exec or system somewhere, each letter in either case |
| `IngestionAcceptance.AvailableIffLastProbe` | src/modules/ingestion/ingestion.service.ts:99-103 | after any run FFmpeg counts as available exactly if the last probe said so |
| `IngestionAcceptance.SecondStartDoublesProcesses` | src/modules/ingestion/ingestion.service.ts:105-112 | for every configuration with safe arguments: start, fail, start again, and the timer leaves two un-closed processes of the stream |
| `IngestionRetries.SpawnsBounded` | src/modules/ingestion/ingestion.service.ts:184-211 | in every run, with m the configured maximum, or ten where none is given: for m > 0 one start counts at most m + 1 failures, waits at most m times and spawns at most m + 1 times, and it has given up only after exactly m waits; for m <= 0 it never gives up |
| `IngestionRetries.SpawnsBoundedIffMaximum` | src/modules/ingestion/ingestion.service.ts:187-195 | over all runs the spawns of a start are bounded exactly if that maximum m is positive; m + 1 is then a bound |
| `IngestionRetries.LedgerRun` | src/modules/ingestion/ingestion.service.ts:184-211 | every generation armed one timer per counted round, each with the backoff of its attempt plus jitter, and spawned no more than once per round and once at the start |
| `IngestionDraining.MeasureStep` | src/modules/ingestion/ingestion.service.ts:172-211 | the measure of a generation drops on its own close and timer events and is untouched by every other event |
| `IngestionDraining.MeasureZeroIffIdle` | src/modules/ingestion/ingestion.service.ts:172-211 | the measure is never negative, and zero exactly when the generation owns no token |
| `IngestionDraining.DrainsAfterBoundedEvents` | src/modules/ingestion/ingestion.service.ts:172-211 | a start with that maximum m > 0 sees at most 2m + 1 events of its own in any run, and owns nothing once it has seen that many |
| `IngestionBackoff.BackoffDoubles` | src/modules/ingestion/ingestion.service.ts:197-198 | delays double until the 60 s cap, and stay there |
| `IngestionBackoff.BackoffMonotoneIffBase` | src/modules/ingestion/ingestion.service.ts:197-198 | delays never shrink exactly if the base delay is not negative |
| `IngestionBackoff.UnsaturatedSum` | src/modules/ingestion/ingestion.service.ts:197-198 | the first k uncapped delays sum to base times 2^k - 1 |
| `IngestionBackoff.TotalWait` | src/modules/ingestion/ingestion.service.ts:198-200 | k waits lie between the sum of their delays and that sum plus k seconds, and below 61 s times k |
| `IngestionBackoff.WaitIsDelayPlusJitter` | src/modules/ingestion/ingestion.service.ts:197-210 | a failure that is retried arms one timer, of the delay of its attempt plus the jitter drawn |
| `IngestionBackoff.WaitsBeforeGivingUp` | src/modules/ingestion/ingestion.service.ts:187-210 | in every run, a generation that gave up waited exactly as often as its configured maximum, or ten times where none is given; with the defaults between 393 and 403 seconds together |
| `IngestionServices.IngestionService.ValidateExtraArgs` | src/modules/ingestion/ingestion.service.ts:64-73 | the loop accepts exactly the argument lists with no `-filter_complex` argument that contains shell, exec or system in any letter case |
| `IngestionServices.IngestionService.StartIngestion` | src/modules/ingestion/ingestion.service.ts:98-136 | the object takes the start step: same reply, same maps, a fresh state object exactly if accepted |
| `IngestionServices.IngestionService.SpawnFFmpeg` | src/modules/ingestion/ingestion.service.ts:138-149 | lists the new process under the stream and marks the captured state object RUNNING, others untouched |
| `IngestionServices.IngestionService.OnError` | src/modules/ingestion/ingestion.service.ts:164-170 | the handler's effect on maps and on the captured object is the error step |
| `IngestionServices.IngestionService.OnClose` | src/modules/ingestion/ingestion.service.ts:172-181 | the handler's effect is the close step, including both ways of doing nothing |
| `IngestionServices.IngestionService.ScheduleReconnect` | src/modules/ingestion/ingestion.service.ts:184-211 | counts the attempt, then gives up or arms one timer |
| `IngestionServices.IngestionService.OnTimer` | src/modules/ingestion/ingestion.service.ts:207-210 | respawns for the captured generation if the stream is listed at all |
| `IngestionServices.IngestionService.StopIngestion` | src/modules/ingestion/ingestion.service.ts:213-242 | takes the stop step, or replies not found and changes nothing |
| `IngestionServices.IngestionService.BeginRestart` | src/modules/ingestion/ingestion.service.ts:249-254 | takes the stop step and hands on the configuration that was stored, if the stream was listed; the start that follows is `StartIngestion` with it |
| `IngestionServices.IngestionService.RestartIngestion` | src/modules/ingestion/ingestion.service.ts:249-256 | with nothing between its halves, takes the restart step; if the start is refused the stop stays done |
| `IngestionServices.IngestionService.StopAll` | src/modules/ingestion/ingestion.service.ts:244-247 | lists nothing afterwards, by stopping exactly the listed streams in some order |
| `IngestionServices.IngestionService.GetStatus` | src/modules/ingestion/ingestion.service.ts:258-264 | the live state object of the current generation, or none |
| `IngestionServices.IngestionService.IsRunning` | src/modules/ingestion/ingestion.service.ts:279-285 | true exactly for a current generation that is RUNNING or RECONNECTING |
| `IngestionServices.IngestionService.GetSummary` | src/modules/ingestion/ingestion.service.ts:266-277 | each count is the number of entries with those statuses |
| `StreamsSafety.RowsAgree` | src/modules/streams/streams.service.ts:182-247 | in every run where starts come through the stream service and its calls do not overlap, the stored configuration of a running stream has its row's source URL, application and stream name |
| `StreamsSafety.OverlappingRowsAgreeIff` | src/modules/streams/streams.service.ts:176-343 | however the calls of the service overlap, this holds throughout a run exactly if each late step in it is harmless: a save or a start of a row read earlier, or a delete, as the next three rows say |
| `StreamsSafety.LateSaveIsSafeIff` | src/modules/streams/streams.service.ts:192-193 | saving a row that was read earlier keeps it exactly if the stream is not running, or the copy has the source URL, application and stream name of the row |
| `StreamsSafety.LateStartIsSafeIff` | src/modules/streams/streams.service.ts:220-247 | a start made of a row that was read earlier keeps it exactly if it is refused, or the row is still there with the same source URL, application and stream name |
| `StreamsSafety.LateDeleteIsSafeIff` | src/modules/streams/streams.service.ts:211-215 | the delete at the end of a removal keeps it exactly if the stream is not running by then |
| `StreamsSafety.InUseIsFrozen` | src/modules/streams/streams.service.ts:182-193 | where calls do not overlap: through every run in which the stream is active, connecting or running whenever a call begins, its row keeps all but its status, or is removed |
| `StreamsRows.UpdateTakesIff` | src/modules/streams/streams.service.ts:176-193 | an update of a stream not in use gives each named column its value and keeps the others; of one in use, or of none, it is refused and changes nothing |
| `StreamsRows.CreateKeepsNamesUnique` | src/modules/streams/streams.service.ts:48-71 | while no two rows share application and stream name, a new row is accepted exactly if that stays so, and starts out inactive |
| `StreamsRows.RemoveTakesIff` | src/modules/streams/streams.service.ts:205-215 | a removal takes the row, its stream then not running, exactly if the row is there and its stream, if it ran, was listed; otherwise it replies not found |
| `StreamsRows.UpdateKeepsNamesUniqueIff` | src/modules/streams/streams.service.ts:192-193 | an update, which checks no names, keeps them unique exactly if no other row has the new one |
| `StreamsRows.SyncTellsTheTimer` | src/modules/streams/streams.service.ts:317-341 | in every run where starts of the stream wait for it to drain, a sync makes the row active if Wowza has the stream, else connecting exactly if it is listed with a timer pending, else inactive |
| `StreamsRows.StartAndStopSetTheStatus` | src/modules/streams/streams.service.ts:247-271 | a start that makes a generation leaves the row connecting, one that does not leaves it alone; a stop of a listed stream leaves it inactive |
| `StreamsRows.ServiceStartsIff` | src/modules/streams/streams.service.ts:219-247 | in such runs the service starts a stream exactly if its row is RTSP with a source URL that is not empty, the last probe found FFmpeg, and it is not listed or waits for a timer |
| `StreamsRows.ServiceReplies` | src/modules/streams/streams.service.ts:219-247 | not found exactly without a row, bad request exactly for a row that is not RTSP or has no source URL, accepted exactly if the supervisor gets a generation |
| `StreamsRows.ServiceStreamsGiveUpAfterTen` | src/modules/streams/streams.service.ts:237-245 | in every run where the service is the only starter, a start spawns at most eleven times and gives up, if ever, after ten waits of 393 to 403 seconds together |
| `StreamsSafety.RunningOnlyByStart` | src/modules/ingestion/ingestion.service.ts:98-285 | only an accepted start makes a stream run or changes its stored configuration; leftover handlers and timers of older generations do not |
| `StreamsSafety.RestartKeepsConfig` | src/modules/ingestion/ingestion.service.ts:249-256 | an accepted restart continues a running stream with the configuration it had |
| `StreamsSafety.RunIsRunOfEvents` | src/modules/streams/streams.service.ts:205-282 | a run of service calls acts on the supervisor as the run of the events they cause, so every result about the supervisor holds beside the rows |
| `StreamsSafety.RemoveSucceeds` | src/modules/streams/streams.service.ts:205-217 | where starts wait for the stream to drain, removing succeeds exactly if the row exists: its stop call never reports not found |
| `StreamsServices.StreamsService.Create` | src/modules/streams/streams.service.ts:48-71 | refuses a second row of the same application and stream name, else adds an inactive row |
| `StreamsServices.StreamsService.Update` | src/modules/streams/streams.service.ts:176-193 | refuses while the row is active or connecting or the stream is running, and then changes nothing |
| `StreamsServices.StreamsService.Remove` | src/modules/streams/streams.service.ts:205-217 | stops a running stream first; if that fails the row stays |
| `StreamsServices.StreamsService.StartIngestion` | src/modules/streams/streams.service.ts:219-250 | hands the supervisor a configuration made of the row, and marks the row connecting exactly if accepted |
| `StreamsServices.StreamsService.StopIngestion` | src/modules/streams/streams.service.ts:265-271 | stops, then marks the row, if there is one, inactive |
| `StreamsServices.StreamsService.SyncStatusFromWowza` | src/modules/streams/streams.service.ts:317-343 | active if Wowza has it, else connecting exactly while the supervisor is reconnecting it |
| `GatewaySafety.PollTellsTheChanges` | src/modules/gateway/streaming.gateway.ts:212-235 | under any interleaving of polls, each of the two rooms is told exactly the pairs of neighbouring observed statuses that differ, and the last known status is the last one observed |
| `GatewaySafety.StatusNoticesChain` | src/modules/gateway/streaming.gateway.ts:216-235 | each notification has previous unequal to current, starts where the one before ended, and the last ends at the last known status |
| `GatewaySafety.ChangesChain` | src/modules/gateway/streaming.gateway.ts:216-235 | the changes run from the first value seen to the last, and there are none only if all values are equal |
| `GatewaySafety.PollTellsTheNews` | src/modules/gateway/streaming.gateway.ts:237-257 | the ingestion notices of a stream are exactly the running statuses that do not repeat the observation right before |
| `GatewaySafety.NoticesOfStretchDiffer` | src/modules/gateway/streaming.gateway.ts:239-256 | over polls that all see the stream running, consecutive notices sent to its room differ, and the last tells the last known ingestion status |
| `GatewayRuns.PollsTellTheRun` | src/modules/gateway/streaming.gateway.ts:237-257 | in every run of the supervisor, wherever in it the polls fall, the room of a stream is told exactly the RUNNING or RECONNECTING of its current generation at those polls that find either, but for repeats of the poll before |
| `GatewayRuns.PollReportsLiveStatuses` | src/modules/gateway/streaming.gateway.ts:237-251 | in every such run the poll only ever reports RUNNING or RECONNECTING |
| `GatewayRuns.LastKnownIsTrue` | src/modules/gateway/streaming.gateway.ts:237-257 | where starts of the stream wait for it to drain, its last known ingestion status after a poll is RECONNECTING exactly if it is listed with a timer pending, RUNNING if listed without one, and forgotten otherwise |
| `GatewayRuns.RoomsAreTheirOwn` | src/modules/gateway/streaming.gateway.ts:227-248 | each ingestion notice of the poll goes to the room of its stream only, each change to that room and the common one only |
| `Gateways.StreamingGateway.AfterSync` | src/modules/gateway/streaming.gateway.ts:215-257 | the block after one sync does what one observation of the stream does |
| `AuditCsv.ExportReadsBackIffClean` | src/modules/audit/audit.service.ts:168-183 | the exported text reads back as the header and exactly the printed rows, metadata of any content included, if and only if the other seven fields hold no comma, quote or line break |
| `AuditDecode.ExportDecodes` | src/modules/audit/audit.service.ts:162-183 | up to 10000 clean rows are exported, and looking each value up under the name of its column in the text that was read gives exactly the rows; more are refused |
| `AuditCsv.QuotedRoundTrip` | src/modules/audit/audit.service.ts:170-179 | a quoted field with doubled quotes reads back character for character |
| `AuditCsv.UncleanIsMisread` | src/modules/audit/audit.service.ts:171-180 | an unquoted field with a comma, quote or line break never reads back as itself |
| `AuditCsv.SameTextIffSameFields` | src/modules/audit/audit.service.ts:168-183 | two exports of clean rows are the same text exactly if their rows print the same fields, an absent one counting as empty |
| `AuditDecode.ExportInjective` | src/modules/audit/audit.service.ts:162-183 | two exports of clean rows with the same text come from the same rows |
| `AlertsSafety.EventsKeepTheCooldown` | src/modules/alerts/alerts.service.ts:77-163 | where triggers of a rule that go on overlap neither each other nor its updates, and none fails between saving its event and its rule, any two of its events are at least the cooldown in force at the later one's check apart, whatever updates, deletions, other failures and other rules do in between |
| `AlertsSafety.CheckIsSafeIffAlone` | src/modules/alerts/alerts.service.ts:138-163 | for a rule with a cooldown above zero, a check that lets an event through keeps its events spaced, whatever follows, exactly if no other trigger and no update of the rule is between its read and its write |
| `AlertsSafety.UpdateIsSafeIffNoTrigger` | src/modules/alerts/alerts.service.ts:77-93 | an update may read its rule exactly if no trigger of it is in flight: otherwise it writes back the trigger time it read and the rule forgets an event; updates may overlap each other |
| `AlertsSafety.StampFailureIsSafeIff` | src/modules/alerts/alerts.service.ts:160-163 | a trigger that fails after saving its event, before its rule is saved, keeps later events spaced exactly if the rule is gone or already has a trigger time that late |
| `AlertsSafety.StaleUpdateBreaksSpacing` | src/modules/alerts/alerts.service.ts:77-93 | the run: an update read before a trigger and saved after it lets a rule with a cooldown of 60 s fire twice within a millisecond |
| `AlertsSafety.UpdateSurvivesIffCopiesAgree` | src/modules/alerts/alerts.service.ts:88-163 | saved settings stay until the next update or deletion exactly if every trigger and update of the rule still in flight has read the same ones, since each writes its whole copy back |
| `AlertsSafety.RateBound` | src/modules/alerts/alerts.service.ts:141-163 | under the same condition, with cooldowns of at least c > 0 seconds a closed window of L ms holds at most floor(L / 1000c) + 1 events of the rule |
| `AlertsSafety.RateBoundIsMet` | src/modules/alerts/alerts.service.ts:141-163 | for every c and every count some run has that many: no smaller bound would do |
| `AlertsSettings.UpdateTakes` | src/modules/alerts/alerts.service.ts:77-93 | with no other call on the rule between its reading and its saving, an update gives each named setting its value and keeps the others and the last trigger time |
| `AlertsSettings.EventsWereChecked` | src/modules/alerts/alerts.service.ts:137-163 | in every run each event goes back to a check no later than it, at which its rule was stored, enabled, with the cooldown the event carries, and that cooldown had passed |
| `AlertsSettings.CheckGoesOn` | src/modules/alerts/alerts.service.ts:137-163 | a check of such a rule does go on to one event and a new last trigger time |
| `AlertsSettings.DisabledIsSilent` | src/modules/alerts/alerts.service.ts:138-139 | while a rule is disabled, no trigger of it is in flight and no copy in flight would enable it, no event of it is added, whatever happens, until an update asks to enable it |
| `AlertsSettings.DisablingSilences` | src/modules/alerts/alerts.service.ts:88-92 | an update to disabled, with no other call on the rule in flight, brings this about |
| `AlertsSettings.DeletingIsFinal` | src/modules/alerts/alerts.service.ts:95-98 | a rule deleted with no call on it in flight never comes back and never fires |
| `AlertsSettings.FailuresChangeNothing` | src/modules/alerts/alerts.service.ts:92-163 | a trigger that fails on its event and an update that fails leave rules and events alone; one that fails on its rule leaves its event only |
| `AlertsServices.AlertsService.CheckTrigger` | src/modules/alerts/alerts.service.ts:137-148 | goes on exactly if the rule exists, is enabled and the cooldown since its last trigger has passed |
| `AlertsServices.AlertsService.CommitTrigger` | src/modules/alerts/alerts.service.ts:150-163 | saves the event, then writes back the rule as it was read, with the new time; if a save fails, what comes after it does not happen |
| `AlertsServices.AlertsService.ReadForUpdate` | src/modules/alerts/alerts.service.ts:77-90 | reads the rule and changes the named fields of the copy only, the last trigger time staying as read; or reports that there is none |
| `AlertsServices.AlertsService.SaveUpdate` | src/modules/alerts/alerts.service.ts:92 | writes the whole copy back over whatever the row has become, or fails and changes nothing |
| `CacheSafety.KeysInjective` | src/modules/wowza/wowza.service.ts:162-254 | different (server, kind, application) never share a key, server ids being free of colons |
| `CacheSafety.OtherPrefixes` | src/modules/auth/strategies/jwt.strategy.ts:34 | keys of the other users of Redis are never keys of this cache |
| `CacheSafety.HitsAreRecent` | src/modules/redis/redis.service.ts:87-106 | in every run a cached answer was produced by the loader of that very query and written less than 30 s ago for applications, 5 s for streams, 10 s for connections and 15 s for the server status |
| `CacheSafety.WrittenIsFoundWhileYoung` | src/modules/wowza/wowza.service.ts:162-254 | and an answer that has been written is found exactly as long as that |
| `CacheSafety.AnswerIsCached` | src/modules/redis/redis.service.ts:87-103 | a call that finds nothing while Redis is there has its answer cached for that long, counted from the end of the write |
| `CacheSafety.LoaderRunsIff` | src/modules/redis/redis.service.ts:88-105 | a call runs its loader exactly if Redis is not there, has no live key, or cannot be read |
| `CacheSafety.DeleteForcesFreshIffNoneLoading` | src/modules/wowza/wowza.service.ts:205-221 | after a connect or disconnect whose delete succeeds, every cached list comes from a later call, exactly if no loader of that list was under way and no answer of one on its way to Redis |
| `CacheSafety.DownIsForGood` | src/modules/redis/redis.service.ts:25-30 | once `available` is false it stays so and nothing is answered from the cache |
| `CacheSafety.ErrorBringsDown` | src/modules/redis/redis.service.ts:25-30 | one error of the client is enough, whatever comes after it |
| `CacheSafety.DownIsJustTheLoader` | src/modules/redis/redis.service.ts:87-106 | through every run from there, however calls overlap, each call begun gets its answer from its own loader, and none of them ever changes what Redis holds |
| `RedisServices.RedisService.BeginGetOrSet` | src/modules/redis/redis.service.ts:87-97 | answers from the cache exactly on a live, readable key while available, else runs the loader |
| `RedisServices.RedisService.FinishGetOrSet` | src/modules/redis/redis.service.ts:97-105 | the loader's answer goes on to be written exactly if Redis was there when the call began |
| `RedisServices.RedisService.WriteGetOrSet` | src/modules/redis/redis.service.ts:98-103 | stores the answer with its ttl if the write works, and else changes nothing |
| `BlacklistSafety.RoundingDownCovers` | src/modules/auth/auth.service.ts:160-166 | the floor in logout's TTL leaves no gap before `exp` and adds less than a second, and no key is written only if the token is already over |
| `BlacklistSafety.RoundingUpCovers` | src/modules/security/security.service.ts:92-95 | the ceiling in a revocation's TTL covers the whole session and adds less than a second |
| `BlacklistSafety.WrittenKeysCover` | src/modules/security/security.service.ts:123-130 | the keys written for the sessions found cover each of their tokens and shorten no earlier cover below an `exp` |
| `BlacklistSafety.RevocationIsFinalIffTokensAreShort` | src/modules/auth/auth.service.ts:107-171 | no revoked token is accepted again in any run, exactly if access tokens live at most the eight hours of a session (the default of `src/config/jwt.config.ts:5` is 15 minutes) |
| `BlacklistSafety.ValidatesIffNeitherExpiredNorRevoked` | src/modules/auth/strategies/jwt.strategy.ts:30-45 | with such tokens, in every run a token is accepted exactly if the clock is before its `exp` and it has not been revoked |
| `BlacklistSafety.LogoutTakesEffect` | src/modules/auth/auth.service.ts:158-173 | from a logout on, its token is rejected in every later state |
| `BlacklistSafety.RevocationTakesEffect` | src/modules/security/security.service.ts:84-97 | from a revocation on, the login token of the session is rejected in every later state |
| `BlacklistSafety.LoginServesItsUser` | src/modules/auth/auth.service.ts:91-156 | login issues a token of the configured life and a session; a refresh of that session issues another, of the same life, exactly for the user who logged in and up to eight hours after |
| `BlacklistSafety.SessionEndsIff` | src/modules/security/security.service.ts:97-134 | a session ends exactly by its own logout or revocation, by a sweep of its user that found some, or by a deletion, and is otherwise unchanged |
| `BlacklistSafety.IssuingEndsIff` | src/modules/auth/auth.service.ts:136-153 | once a session is deleted no token is ever signed in it again, exactly if no refresh that had read it, unexpired as yet, is still to sign |
| `BlacklistSafety.RevocationEndsSessionIff` | src/modules/security/security.service.ts:84-97 | from a revocation on every access token of the session is refused for good, exactly if no such refresh is in flight (token lifetimes being positive) and every token that refresh signed in it has expired or been logged out; no token is taken to be logged out before it was signed |
| `BlacklistSafety.LogoutEndsSessionIff` | src/modules/auth/auth.service.ts:158-173 | the same of a logout, for the tokens of its session other than the one presented, the token of its login included |
| `BlacklistSafety.SweepRefusesIffFound` | src/modules/security/security.service.ts:118-134 | a revocation of all sessions of a user that found some deletes every one there is at its end; the login token of each is refused exactly if the query found it, or it has expired or was revoked before |
| `BlacklistSafety.SweepFindsUnexpired` | src/modules/security/security.service.ts:118-121 | a sweep finds exactly the tokens of the sessions of its user that have time left |
| `BlacklistSafety.RefreshedTokensSurvive` | src/modules/auth/auth.service.ts:148-155 | right after a revocation, a token that refresh issued in the session and nobody logged out is accepted exactly until it expires |
| `TokenServices.AuthService.Login` | src/modules/auth/auth.service.ts:91-117 | issues a token and stores a session of eight hours for it |
| `TokenServices.AuthService.ReadForRefresh` | src/modules/auth/auth.service.ts:136-140 | finds the session exactly if it is there and the user's |
| `TokenServices.AuthService.SignRefresh` | src/modules/auth/auth.service.ts:142-155 | signs a token exactly if the session as it was read has not expired, whether or not it is still there |
| `TokenServices.AuthService.Logout` | src/modules/auth/auth.service.ts:158-173 | writes the key if time is left and deletes the session |
| `TokenServices.SecurityService.RevokeSession` | src/modules/security/security.service.ts:84-97 | writes the key of the session's token and deletes the session, or reports that there is none |
| `TokenServices.SecurityService.FindUserSessions` | src/modules/security/security.service.ts:118-121 | takes the sessions the query returned, as they are then |
| `TokenServices.SecurityService.RevokeFoundSessions` | src/modules/security/security.service.ts:123-145 | the loop writes one key per session found that has time left; then all sessions of the user are gone if any was found |
| `TokenServices.JwtStrategy.Validate` | src/modules/auth/strategies/jwt.strategy.ts:30-45 | rejects exactly expired tokens and tokens whose key is live |
| `RoleSeedSafety.SeedPreserves` | src/database/seeds/run-seeds.ts:38-65 | every user keeps a role of the same name, none is left dangling, other roles and their users are untouched, and each system name has exactly one row, with the default permissions |
| `RoleSeedSafety.SeedTwiceIsSeedOnce` | src/database/seeds/run-seeds.ts:38-65 | running the seed again changes nothing |
| `RoleSeedSafety.SeedGrants` | src/modules/users/interfaces/role-permissions.interface.ts:12-62 | after the seed all four roles may view streams, all but the viewer manage devices, admin and supervisor view evidence, and the other five permissions are the admin's |
| `RoleSeedSafety.KeptComesFirst` | src/database/seeds/run-seeds.ts:41-45 | of the rows of a name, one with null permissions is kept before one with some, that before an empty object, and among equals the least id |
| `RoleSeedSafety.UpsertDescribes` | src/database/seeds/run-seeds.ts:31-64 | a missing system role is created under its name with its description; descriptions of the others stay |
| `RoleSeedSafety.DedupeStep` | src/database/seeds/run-seeds.ts:48-54 | de-duplicating one name keeps users' role names and other roles, and leaves at most one row of the name |
| `RoleSeeds.Database.RunSeeds` | src/database/seeds/run-seeds.ts:38-65 | the loops, with the ids to keep chosen before any change, compute the seed name by name |
| `RoleSeeds.Database.SelectFirst` | src/database/seeds/run-seeds.ts:41-45 | the row the query's order puts first, or none |
| `CustodySafety.HexRoundTrip` | src/modules/evidences/evidences-integrity.service.ts:32-42 | decoding the hexadecimal text of a hash gives the hash |
| `CustodySafety.HexTextIs` | src/modules/evidences/evidences-integrity.service.ts:32-34 | the text of a hash has two lower-case hexadecimal digits per byte, the higher first |
| `CustodySafety.SameHashIsEquality` | src/modules/evidences/evidences-integrity.service.ts:40-47 | the comparison of decoded hashes is equality of hashes |
| `CustodySafety.PathTellsId` | src/modules/evidences/evidences-storage.service.ts:22-46 | the id can be read off a stored path, so different evidences have different files, whatever date and type |
| `CustodySafety.PathsDiffer` | src/modules/evidences/evidences-storage.service.ts:33-46 | equal paths are those of the same directory, id and extension |
| `CustodySafety.EvidenceStaysValid` | src/modules/evidences/evidences.service.ts:87-110 | after any run, an evidence verifies as valid exactly if it is there and not deleted, and its file holds the bytes uploaded |
| `CustodySafety.FoundIffPresent` | src/modules/evidences/evidences.service.ts:390-396 | after any run an evidence is there exactly if it has been created and not removed since |
| `CustodySafety.VerifiesIffSameHash` | src/modules/evidences/evidences.service.ts:312-317 | if others change the disk, an evidence verifies exactly if its file still has the hash of the upload |
| `EvidencesServices.EvidencesService.Create` | src/modules/evidences/evidences.service.ts:87-110 | hashes the upload, saves it under a path of the new id and stores the row |
| `EvidencesServices.EvidencesService.Remove` | src/modules/evidences/evidences.service.ts:390-396 | marks the row deleted and leaves the file |
| `EvidencesServices.EvidencesService.VerifyIntegrity` | src/modules/evidences/evidences.service.ts:312-339 | tells whether the file's hash equals the stored one, or that there is nothing to read |
| `Paging.PagingLosesNothing` | src/modules/streams/streams.service.ts:93-131 | pages 1 to totalPages concatenate to the whole list; all but the last are full, later ones empty, none has more than 100 rows whatever limit is asked |
| `Paging.LimitIs` | src/modules/streams/streams.service.ts:93-95 | a limit from 1 to 100 is the one used, 20 if none is asked, and the nearer end otherwise |
| `Paging.PageIs` | src/modules/streams/streams.service.ts:93-101 | page p holds the rows numbered from (p - 1) times the limit, in their order; no page or one below 1 is the first |
| `Connections.GetConnections` | src/modules/wowza/wowza.service.ts:230-237 | each entry of both records is the number of connections with that key, and each record's values sum to the total |
| `Connections.BumpAddsOne` | src/modules/wowza/wowza.service.ts:234-235 | one increment adds exactly one to the sum of a record |

## Left out

Ingestion and its clients

- The command line, URL sanitising, transport and codec options, `pid`, `startedAt`, `lastError` and the stderr matching: they never decide a transition.
- The SIGKILL sent three seconds after a stop: it only makes a close come sooner.
- `spawn` is taken not to throw, each process to close once, and errors to come only from a process that has not closed.
- IngestionServices.IngestionService.RestartIngestion: stop and start in one step; `BeginRestart` and `RestartIsStopThenStart` make runs with other events in between part of the results about the supervisor.
- StreamsSafety.RowsAgree: starts through the ingestion controller, whose configuration need not match a row, are excluded.
- StreamsSafety.OverlappingRowsAgreeIff: the copies that late steps carry are arbitrary rows, not tied to the call that read them.
- StreamsSafety.InUseIsFrozen: the guard of an update and its save are one step; a save that comes late can change a row in use.
- StreamsServices.StreamsService.Create: other columns than application, stream name, source URL, protocol and status, audit rows and playback URLs are not modelled, here and in the other calls.
- Gateways.StreamingGateway.AfterSync: the notices that the stream service itself sends on start and stop, server status, subscriptions and the tick counter are not modelled; the read of a status and its notification are one block, as in the source.

Timed state

- AlertsSafety.EventsKeepTheCooldown: a trigger reads its rule at the instant of its check, and its event and its rule appear in one step; an event is saved even for a rule deleted meanwhile, which the foreign key refuses, and the log outlives its rule; the emission of alerts is not modelled.
- AlertsSafety.CheckIsSafeIffAlone: rules with a cooldown of zero are left out, since no two of their events are too close.
- CacheSafety.HitsAreRecent: values survive JSON unchanged.
- BlacklistSafety.RevocationIsFinalIffTokensAreShort: Redis stays available, tokens are distinct, hashes do not collide (the key is the token itself), and all clocks are one.
- BlacklistSafety.SweepRefusesIffFound: the writes of a sweep and its delete are one step, after its query; so are the read, the write and the delete of a single revocation, and the write and the delete of a logout, each taken at the instant of its delete.
- The anomaly report, device lists and session listing of the security service: the database does the work.

Data

- AuditCsv.ExportReadsBackIffClean: the filters and the query are not modelled; the line break is LF as printed, where RFC 4180 has CRLF.
- AuditDecode.ExportInjective: absent and empty text print alike, so rows are taken to store no empty text in the optional columns.
- RoleSeedSafety.SeedPreserves: each statement is one step on the tables; the admin account seeded afterwards is not modelled.
- CustodySafety.EvidenceStaysValid: only evidences made by upload; DVR clips store no file. SHA-256 is an arbitrary function; lookups of stream and event, audit rows and download tokens are not modelled, the directory of the date and the type is a parameter, and joining path segments is taken to leave them as they are.
- Connections.GetConnections: keys that every JavaScript object inherits, such as `constructor`, are not treated apart.
- Paging.PagingLosesNothing: the rows keep one order from page to page; the filters are the database's.
- Users, roles, devices, events, organisation units, Wowza servers, controllers, guards, DTO validation and migrations: their claims follow from reading one method.
