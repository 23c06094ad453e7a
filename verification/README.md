# yarddog, verified

yarddog is a watchdog that cron starts every few minutes. Each pass probes the
internet, writes what it saw into one SQLite file, and may reboot the router. A
daemon reads the same file. Processes are short, they crash, and the wall clock
steps backward between them, so what the program promises is about whole
histories of that file and not about one run.

This project models the parts that carry those promises and proves them:

- **Ids** (`Uuid.dfy`, `Generator.dfy`). The UUIDv7 layout of RFC 9562
  sections 5.7 and 6.2: packing, text order, decoding, the counter that borrows
  a millisecond, entropy failures, seeding from eight tables, and the id floor
  of history queries.
- **Store** (`Tables.dfy`, `Store.dfy`, `History.dfy`). Five hot tables and
  their archive twins; rollover and prune as ordered statements, each
  re-reading its subquery; transactions that roll back at any driver call; and
  histories of opens, mints on three goroutines, writes, maintenance and
  crashes.
- **Watchdog** (`Verdicts.dfy`, `Watchdog.dfy`, `Passes.dfy`, `Endings.dfy`,
  `Probes.dfy`, `Guards.dfy`, `WatchHistory.dfy`, `Notices.dfy`,
  `LostAction.dfy`). The verdict, every flow of a pass, its run row, the decision
  table of how it ends, the probes it records, the queries of the guards over
  the hot runs table, passes running over the store's own histories and what
  they tell the operator, and a reachable store that breaks the cooldown.
- **Credential probe** (`SingleFlight.dfy`). The shared login as interleaved
  steps of any number of callers.
- **Overview** (`Outages.dfy`, `Buckets.dfy`). Loss rounding, outage episodes,
  time buckets and series assembly.
- **Outbox and quarantine** (`Outbox.dfy`, `Quarantine.dfy`). Reliable delivery
  and the three renames, with a crash possible between any two steps.

`Instants.dfy`, `Options.dfy` and `Runs.dfy` hold what they share. Instants are
whole nanoseconds; a stored timestamp keeps the whole second and an id the
millisecond. Failures the program cannot predict (store writes, sends, entropy,
probes, the clock, a crash) are inputs: a `World`, a function `fails`, a number
`failAt` that names the driver call that fails first, or the point where a list
of calls stops. Every statement ranges over all of them unless it says
otherwise.

## How the parts fit

`Watchdog.Runner.Execute` ties the methods of a pass to the function
`FullPass`. `Passes` proves what that function promises and what it leaves in
the run row, complete or cut short, `Endings` gives for every condition the end
of the row, the exit code, the messages and the flushes, and `Probes` the checks
rows and what stands between them. `WatchHistory` runs such passes over the
store: the run insert and every run update of a history are calls of a pass, and
each pass asks its queries of the hot table the history has reached.
`WatchHistory.WatchIsHistory` shows that this is a history of the store, so
`History.MintedIdSortsLast` and the other results hold of it. From them follows
that a new run's id is above every stored one. `Guards.QueryHasOneAnswer` says
what the guards' query returns on any table, `Guards.OwnRowIsInvisible` and
`WatchHistory.AnswersHold` that it does not matter when in the pass the query is
made, and `WatchHistory.CooldownSpacing` and `WatchHistory.GuardSafety` what
follows for the hot runs of every reachable store.

## What the proofs found

- The id floor wraps for a `since` before 1970 and then hides real rows. It is
  safe exactly from 1970 on, or when the wrapped milliseconds happen to be zero
  (`Generator.FloorSafety`, `Generator.FloorBeforeEpochDropsRows`).
- `infrastructure/store.go:451-455` and `infrastructure/uuid.go:180-182` call
  the id condition slightly less restrictive than `ts >= ?`. The `ts` column
  keeps whole seconds, so from 1970 on that is so exactly when `since` falls on
  the first millisecond of a second (`Generator.FloorAgainstSeconds`); otherwise
  the id condition hides rows of the second of `since` that `ts >= ?` keeps
  (`Generator.FloorHidesSameSecond`), and no other row
  (`History.SinceFilterMeaning`).
- Cooldown spacing needs the action and the start time of a reboot in one row.
  With rebooting on and the streak down, every next soft reboot keeps the
  cooldown from every stored time if and only if each stored time is at or below
  that of a row with both (`Guards.SpacingNeedsTheRecord`), and nothing else
  holds a reboot back (`Guards.OnlyRecordedRebootsHoldBack`). So a reboot whose
  stamp was lost, or whose pass died before it, is not waited for
  (`Guards.UnstampedRebootIsForgotten`), and when the action write is lost two
  stored soft reboots can be a second apart under an hour's cooldown
  (`LostAction.LostActionLosesCooldown`).
- A prune equals plain retention just when no hot run is past the cutoff
  (`History.PruneIsRetention`). Both maintenance calls of a start share one
  clock reading (`cmd/yarddog/main.go:110-122`), so for a positive
  RETENTION_DAYS they amount to plain retention on every store if and only if
  HOT_WINDOW_DAYS is no larger (`History.MaintenanceIsRetention`).
  `infrastructure/config.go:284-304` clamps the two independently and accepts
  the rest.
- A pass that could not read the last reboot ends as skipped too, so when the
  next pass is held back by the cooldown it sends no notice of that
  (`Notices.OneNoticeAnEpisode`).
- Decoding an id reads only its first sixteen digits and takes a plus sign for
  the first of them (`Uuid.DecodeAccepts`).
- Bucket starts round towards zero, so before 1970 a bucket covers its sample
  only when the sample falls on a bucket's start (`Buckets.BucketCovers`).
- `services/orchestrator.go:302-304` says gateway times are written only the
  first time. The code overwrites them on every edge
  (`Passes.TicksRow`, `Passes.DownTimeIsOverwritten`).
- `infrastructure/check.go:63` still describes the old verdict, where all
  failed domain targets meant down. The model follows `domain/check.go`.

## Model

| member | source | states |
|---|---|---|
| Uuid.TextOrder | infrastructure/uuid.go:58-78 | Canonical ids compare as text exactly as (ms, counter, rand_b) compare, and equal texts mean equal fields. |
| Uuid.DecodeText | infrastructure/uuid.go:203-223 | Decoding the text of an id gives back its millisecond and counter. |
| Uuid.DecodeAccepts | infrastructure/uuid.go:203-223 | An id decodes if and only if 32 characters are left without its dashes and the first sixteen are hexadecimal digits of either case, where the first may be a plus sign; otherwise the error names the first of length, timestamp and counter that fails. |
| Uuid.FormatShape | infrastructure/uuid.go:77 | The text has 36 characters, dashes at the four canonical places and lower-case hexadecimal digits everywhere else. |
| Uuid.ShiftBytesAreBigEndian | infrastructure/uuid.go:64-68 | The six shifted timestamp bytes are the big-endian form of the millisecond modulo 2^48. |
| Generator.AdvanceRises | infrastructure/uuid.go:105-130 | A minted pair is strictly above the old watermark and never before its row's millisecond; the mark ends at the later of its own and the row's millisecond, one more only when the counter is used up; within a millisecond the next count needs no draw; a failed draw only raises the watermark. |
| Generator.MarkStaysNear | infrastructure/uuid.go:36-41 | Over any run of mints the mark is never behind the latest millisecond seeded or asked for, and ahead of it by at most the times a counter was used up. |
| Generator.Seed | infrastructure/uuid.go:161-171 | Seeding yields the larger of the two watermarks and never lowers it. |
| Generator.SeedAllIsMaximum | infrastructure/store.go:2107-2138 | Seeding over all tables gives the least watermark that covers the starting one and every table's newest id. |
| Generator.SeedAllStops | infrastructure/store.go:2107-2138 | An id that does not decode ends the seeding with what the tables before it gave. |
| Generator.IdSource.constructor | infrastructure/uuid.go:80-104 | A fresh process starts with a blank watermark. |
| Generator.IdSource.Next | infrastructure/uuid.go:105-130 | At or before the mark's millisecond with room in the counter, the pair is the next count whatever the draw; a later row moves the mark to its own millisecond and a used-up counter to the next one, and there the counter is the low twelve bits drawn, or the pair is lost and the counter kept. |
| Generator.IdSource.NewId | infrastructure/uuid.go:58-78 | The bytes written are the canonical text of the minted pair; a failed second read loses the id and keeps the raised state. |
| Generator.IdSource.SeedWatermark | infrastructure/uuid.go:161-171 | The in-place update is Seed. |
| Generator.IdSource.SeedFromStore | infrastructure/store.go:2107-2138 | The loop succeeds exactly when every query answers and every newest id decodes; it leaves the watermark seeded with every id before the first that fails either way. |
| Generator.FreshLayout | infrastructure/uuid.go:64-75 | Version and variant bits are fixed and the rest of the bytes carry the three fields. |
| Generator.FloorAsksForMillis | infrastructure/uuid.go:183-195 | An id passes the floor exactly when its millisecond has reached that of `since`, modulo 2^48. |
| Generator.FloorSafety | infrastructure/uuid.go:183-195 | The floor hides no row at or after `since` if and only if `since` is not before 1970 or its milliseconds wrap to zero. |
| Generator.FloorAgainstSeconds | infrastructure/uuid.go:173-182 | Beside `ts >= ?` on whole seconds the id condition hides no row if and only if the floor's millisecond is at most the first of the second of `since`; from 1970 on and below 2^48 milliseconds, if and only if `since` is in the first millisecond of a second. |
| Generator.FloorHidesSameSecond | infrastructure/store.go:451-457 | With `since` at 1.5 s, a row of the start of that second passes `ts >= ?` and is hidden by the id condition. |
| Generator.FloorBeforeEpochDropsRows | infrastructure/uuid.go:183-195 | One second before 1970 the floor hides the id of the first millisecond of 1970. |
| Tables.RolloverIsPartition | infrastructure/store.go:1060-1098 | The ten statements, run one by one with the aged-run subquery read anew each time, equal one atomic partition by started_at. |
| Tables.PruneIsForget | infrastructure/store.go:946-990 | The five prune statements remove exactly the expired archived runs with all their children. |
| Tables.RolloverGoesByAge | infrastructure/store.go:1060-1098 | After the partition a run is hot if and only if it was and started at or after the cutoff, the others are archived with the same row, and every child is in the tier of its run, unchanged. |
| Tables.PruneGoesByAge | infrastructure/store.go:946-990 | After a prune an archived run is there if and only if it was and started at or after the cutoff, with its row and exactly its children. |
| Tables.MaintenanceKeepsBoundary | infrastructure/store.go:1036-1047 | Rollover and prune keep every run in one tier together with all its children. |
| Tables.RolloverConserves | infrastructure/store.go:1060-1098 | For each of the five tables the rows of hot and archive together are the same multiset before and after; nothing is stranded. |
| Store.Store.InsertRun | infrastructure/store.go:309-325 | Succeeds exactly for a minted, unused id and a working store; then the hot runs gain one row with the start to the second, the mode, the verdict and every other column empty, otherwise nothing changes. |
| Store.Store.UpdateRun | infrastructure/store.go:1219-1231 | Each given column of a hot run holds the given value, a time to the second, and every other column and row is as it was; an empty update touches nothing, a failed one changes nothing. |
| Store.Store.InsertCheck | infrastructure/store.go:286-304 | Adds exactly the one row, or nothing when the mint, the key or the store fails. |
| Store.Store.SaveMetrics | infrastructure/store.go:1144-1177 | Stores the host row and all samples, or rolls back to the old state whichever driver call or mint fails. |
| Store.Store.SavePings | infrastructure/store.go:1189-1213 | Stores all results of a round, or none. |
| Store.InsertMeaning | infrastructure/store.go:1158-1171 | A snapshot's inserts succeed if and only if every id was minted, is new and differs from the others; the table then holds its old rows and the snapshot's. |
| Store.Store.ExecuteEach | infrastructure/store.go:1085-1097 | Succeeds only with all statements run in order; otherwise the tables are as after the statements before the one that failed. |
| Store.Store.Transact | infrastructure/store.go:1054-1102 | Commits all statements or restores the old state, and reports what the last one removed. |
| Store.Store.RolloverToArchive | infrastructure/store.go:1048-1103 | A hot run of either mode stays if and only if it started no earlier than that many days, to the second, before now; the others are archived with all their children and counted; or nothing changes. |
| Store.Store.PruneArchive | infrastructure/store.go:946-990 | An archived run stays if and only if it started no earlier than that many days before now; the others go with all their children and are counted; or nothing changes; zero days keeps the archive. |
| Store.RolloverCountsAged | infrastructure/store.go:1091-1097 | The affected rows of the last DELETE are the aged runs. |
| Store.PruneCountsExpired | infrastructure/store.go:946-990 | The affected rows of the last DELETE are the expired archived runs. |
| History.SeedCoversTable | infrastructure/store.go:2107-2138 | After opening, the watermark covers every id of each of the eight tables. |
| History.MintAdds | infrastructure/uuid.go:58-78 | A mint moves the mark even when its random tail is lost, queues an id exactly when the counter had room or a seed was drawn and the tail was read, and touches no table. |
| History.MaxTextIsGreatest | infrastructure/store.go:2107-2138 | The id that seeds a table's mark is stored and no stored id is after it as text. |
| History.HistoryKeeps | infrastructure/store.go:2083-2106 | Every state of every history keeps the tier, watermark, log and time invariants. |
| History.MintedIdSortsLast | infrastructure/uuid.go:105-130 | In every history a minted id sorts, as text too, above every id then stored in any of the eight tables and every id minted earlier in its process. |
| History.RunsAreStoredInOrder | infrastructure/store.go:991-998 | In every history a run's id, when it is stored, is above every run in either tier. |
| History.TiersAnswerAsOne | infrastructure/store.go:388-437 | RunByID and ListChecksByRun answer as one untiered store: one tier per run, no check twice, checks in insertion order. |
| History.RunAnswer | infrastructure/store.go:1112-1131 | The union over both tiers finds a run exactly when the untiered store has it, with the same row. |
| History.WritesLand | infrastructure/store.go:286-325 | A minted id never meets a taken key: every insert of a history adds exactly its rows, a run as a blank row, a check with its own run and time, a snapshot all its samples; an update sets its columns; rollovers and prunes go by age; no other step changes a table. |
| History.PruneIsRetention | infrastructure/store.go:932-945 | Pruning the archive leaves the runs and children that dropping every run past the cutoff would if and only if no hot run is past it. |
| History.RolloverClearsWindow | infrastructure/store.go:1035-1047 | A rollover at the same clock reading makes that so for every store if and only if the hot window is no longer than the retention. |
| History.MaintenanceIsRetention | cmd/yarddog/main.go:110-122 | With retention on, the rollover and prune of a start leave what retention alone would, for every store, if and only if the hot window is no longer than the retention. |
| History.SinceFilterKeepsRows | infrastructure/store.go:451-457 | In every history, with `since` from 1970 on, the id condition hides no hot row at or after `since` and no kept row is from an earlier second. |
| History.SinceFilterMeaning | infrastructure/store.go:451-457 | A row is kept if and only if its second has reached that of `since` and its id the millisecond; a row the seconds alone keep is hidden exactly in the second of `since` with a smaller millisecond in its id. |
| History.SinceFilterIsMillisecond | infrastructure/uuid.go:173-182 | For a row whose id carries its own millisecond the two conditions together compare milliseconds. |
| Instants.TruncationKeepsSpacing | infrastructure/store.go:1475-1479 | Truncating a later time to seconds keeps a lower bound counted from a stored second. |
| Instants.StoredTimesAreFloors | infrastructure/store.go:1475-1479 | A stored time is the last whole second not past the instant, and an id's time the last millisecond. |
| Verdicts.AllFailed | domain/check.go:91-101 | True exactly for a non-empty group in which nothing answered. |
| Verdicts.Verdict | domain/check.go:38-60 | Down if and only if every ip target failed, or there are none and every domain target failed; degraded if and only if some ip target answered while every domain target, of at least one, failed. |
| Verdicts.MoreAnswersNeverWorse | domain/check.go:25-37 | When at least the same targets answer, the verdict is no worse. |
| Watchdog.Runner.PersistChecks | services/orchestrator.go:413-418 | One check per target, in order. |
| Watchdog.Runner.ConfirmDown | services/orchestrator.go:167-188 | Stops at the first sample that is not down, stores every round, and corrects internet_ok exactly when the verdict was cleared. |
| Watchdog.Runner.OutageSustained | services/orchestrator.go:372-393 | True exactly when no streak is asked for, or enough earlier runs were read and each says down. |
| Watchdog.Runner.ShouldAnnounce | services/orchestrator.go:498-508 | True exactly when the read failed, there is no earlier run, or it ended otherwise. |
| Watchdog.Runner.HandleGatewayTransition | services/orchestrator.go:311-324 | `alive` becomes the latest observation; a time is written on an edge and only then. |
| Watchdog.LastTick | services/orchestrator.go:457-478 | The loop ends at the first tick whose sample is not down or that reaches the timeout. |
| Watchdog.Runner.RecoveryLoop | services/orchestrator.go:454-479 | The loop makes exactly the attempts of its ticks and then those of its end. |
| Watchdog.Runner.RebootSequence | services/orchestrator.go:424-446 | Flush, action, notice and reboot in that order; the start time is written only after a reboot that succeeded. |
| Watchdog.Runner.HardFlow | services/orchestrator.go:330-343 | The hard flow makes exactly the attempts of HardPass. |
| Watchdog.Runner.SoftFlow | services/orchestrator.go:555-600 | The soft flow makes exactly the attempts of SoftPass. |
| Watchdog.Runner.Execute | services/orchestrator.go:482-489 | Whatever writes, notices and snapshots fail, the attempts and the exit code of a pass are functions of its settings and of what it learnt, and every failure is logged. |
| Watchdog.FailuresChangeNothing | services/orchestrator.go:345-362 | Two passes in one world with different failures give the same exit code, reboots and messages, and each logs exactly the calls that failed. |
| Passes.DecisiveMeaning | services/orchestrator.go:167-188 | The sample the flow decides on is down if and only if the first sample and every confirmation were. |
| Passes.SoftRebootIsGuarded | services/orchestrator.go:555-600 | A soft pass asks for one reboot if and only if its row was inserted, rebooting is on, the outage was confirmed and sustained, and the cooldown was read and is over; otherwise for none. |
| Passes.HardRebootIsSwitched | services/orchestrator.go:330-343 | A hard pass asks for one reboot if and only if its row was inserted and rebooting is on. |
| Passes.PassIsOrdered | services/orchestrator.go:420-446 | In every pass the insert comes first, a reboot follows right after one flush, the recorded action and the notice, its start is stamped right after it, and the last attempt alone sets outcome and finish. |
| Passes.RecoveryTerminates | services/orchestrator.go:448-479 | At most max(1, ceil(timeout / interval)) ticks. |
| Passes.RecoveryEndsRight | services/orchestrator.go:454-479 | The loop ends well if and only if some sample answers before a tick uses up the timeout, and then at the first that does; otherwise every sample was down and only the last tick is at or past the timeout. |
| Passes.EdgesTellLiveness | services/orchestrator.go:311-324 | The gateway counts as up if and only if it has no down edge or an up edge since; an up edge is never without a down edge. |
| Passes.EdgesAlternate | services/orchestrator.go:311-324 | Between two edges of one kind lies one of the other. |
| Passes.TicksRow | services/orchestrator.go:311-324 | After any number of ticks the row holds the times of the latest edges. |
| Passes.DownTimeIsOverwritten | services/orchestrator.go:311-324 | When the gateway goes down, up and down again, the row ends with the second down time. |
| Passes.GatewayTimesAreOrdered | services/orchestrator.go:454-479 | Gateway times lie between reboot and end, an up time comes with a down time, and restored equals finished exactly when the outcome is ok. |
| Passes.SoftPassIsRecorded | services/orchestrator.go:14-18 | A finished soft pass leaves an outcome that determines its exit code, internet_ok as the confirmed verdict, and reboot columns exactly when the router was asked. |
| Passes.HardPassIsRecorded | services/orchestrator.go:326-343 | The same for a hard pass, with internet_ok left empty. |
| Passes.DegradedConcludes | services/orchestrator.go:197-211 | The row ends degraded, the exit code is the one of that outcome, the message is sent only when it is news, and the outbox is drained right before the one closing update. |
| Passes.NoOutageConcludes | services/orchestrator.go:219-229 | The row ends with the given outcome, the exit code is the one of that outcome, no message is sent and nothing is drained. |
| Passes.DisabledConcludes | services/orchestrator.go:238-251 | The row ends as skipped because disabled, with that outcome's exit code, one message, and the outbox drained right before the closing update. |
| Passes.RebootFailedConcludes | services/orchestrator.go:256-266 | The row ends with the reboot's error, with that outcome's exit code and one message carrying the same error. |
| Passes.RestoredConcludes | services/orchestrator.go:274-285 | The row ends fine, restored and finished at the same second, with one message, and the outbox drained right before the closing update. |
| Passes.TimeoutConcludes | services/orchestrator.go:289-300 | The row ends timed out, with that outcome's exit code, one message naming the timeout, and the outbox drained right before the closing update. |
| Passes.CooldownConcludes | services/orchestrator.go:515-527 | The row ends skipped with no error, and the message with the age is sent only when it is news. |
| Passes.CooldownUnknownConcludes | services/orchestrator.go:536-547 | The row ends skipped with the query's error, and a message with the same error is always sent. |
| Endings.SoftPassEnds | services/orchestrator.go:555-600 | The decision table of a soft pass: for every verdict, setting, streak, cooldown answer, router answer and recovery, the outcome, action, error, exit code, messages in order, final flush and number of requests to the router. |
| Endings.HardPassEnds | services/orchestrator.go:326-343 | The same table for a hard pass. |
| Endings.FailedInsertEndsThePass | services/orchestrator.go:330-335 | A pass whose row cannot be inserted makes that one call and exits 1. |
| Endings.MessagesMatchRow | services/orchestrator.go:14-18 | The messages of a finished pass follow from the row it leaves; so does whether the outbox is drained right before the closing update and after every message, beside exactly one flush when the router was asked. |
| Probes.RoundsStop | services/orchestrator.go:167-188 | One number of confirmation rounds stops at the first sample that is not down or at the configured count, and it is the number run. |
| Probes.SoftPassChecks | services/orchestrator.go:395-418 | The checks rows of a soft pass are the first sample, the confirmation rounds run, and every gateway and target probe of a recovery, each under its phase, in order, and no other. |
| Probes.HardPassChecks | services/orchestrator.go:326-343 | A hard pass records exactly the probes of its recovery. |
| Probes.EdgesFollowProbes | services/orchestrator.go:454-466 | A gateway time is written only on an edge, right after the probe that saw it, with the time of its tick. |
| Probes.CorrectionFollowsProbes | services/orchestrator.go:176-186 | internet_ok is only ever corrected to true, and after the last probe. |
| Probes.SoftPassBegins | services/orchestrator.go:555-566 | A soft pass inserts its row with the first verdict, records the first sample, and takes its snapshots once, right after that. |
| Probes.HardPassBegins | services/orchestrator.go:330-337 | A hard pass inserts its row without a verdict and takes its snapshots once, right after that. |
| Passes.PartialRecordsAreHonest | services/orchestrator.go:436-445 | Cut short anywhere and with any writes lost, a row says down only for a soft pass whose first sample was down, and holds a reboot time only for a reboot the guards let through. |
| Guards.QueryHasOneAnswer | infrastructure/store.go:991-1033 | On any table the query for the runs before an id has exactly one answer: the newest rows under it, newest first, as many as asked for or there are. |
| Guards.OwnRowIsInvisible | services/orchestrator.go:372-393 | Until it records a reboot, a pass's own row changes none of the answers its guards get. |
| Guards.CooldownIsOverAll | infrastructure/store.go:219-243 | Asking for the latest recorded reboot decides for all of them: the pass holds back if and only if some recorded hot reboot is within the cooldown. |
| Guards.OnlyRecordedRebootsHoldBack | services/orchestrator.go:580-599 | With rebooting on and the streak down, the next soft pass can stamp a reboot at a moment if and only if no row with both action and time is within the cooldown then. |
| Guards.SpacingNeedsTheRecord | services/orchestrator.go:429-443 | With rebooting on and the streak down, every next soft reboot keeps the cooldown from every stored time if and only if each stored time is at or below that of a row with both action and time. |
| Guards.UnstampedRebootIsForgotten | services/orchestrator.go:436-443 | With rebooting on and the streak down but no time stored, whatever actions are on record, the next soft pass can reboot at any moment. |
| WatchHistory.WatchIsHistory | infrastructure/store.go:2083-2106 | Passes running over the store make a history of the store, so whatever every history keeps holds of every watch. |
| WatchHistory.WatchKeeps | services/orchestrator.go:555-600 | In every reachable store each run, in either tier, is the row its pass wrote, hot reboots are spaced, the running pass has the newest id, and its answers are those of the table. |
| WatchHistory.CooldownSpacing | infrastructure/store.go:219-243 | In every reachable store a hot soft reboot is stored at least the whole-second cooldown after every reboot recorded under a smaller id and still hot, whatever the clocks, lost writes and crashes between. |
| LostAction.LostActionLosesCooldown | services/orchestrator.go:429-443 | A reachable store in which the action write was lost and two hot soft reboots are stored one second apart under an hour's cooldown. |
| WatchHistory.AnswersHold | services/orchestrator.go:364-393 | In every reachable store the answers a running pass holds are those its queries would get now, until it records a reboot of its own. |
| WatchHistory.GuardSafety | services/orchestrator.go:364-393 | In every reachable store the next call of a soft pass is a reboot only with rebooting on, this pass confirmed down, and before it as many hot runs as the streak asks for, each soft and down, and confirmed down if it finished. |
| WatchHistory.GuardIsExact | services/orchestrator.go:580-599 | With its reads answered and the runs before it finished, a pass asks for a reboot if and only if those conditions hold and no recorded hot reboot is within the cooldown. |
| Notices.OneNoticeAnEpisode | services/orchestrator.go:491-527 | With reads answered, passes finished and the previous run still hot, the notices of lost name resolution, and those of a reboot held back, are as many as the passes that end so where the pass before ended otherwise. |
| Notices.FailedReadTells | services/orchestrator.go:498-503 | A pass in either state whose history query failed sends its notice whatever came before. |
| SingleFlight.RunKeeps | gateway/router/credential_probe.go:57-89 | Every reachable state keeps the lock, slot and call invariants. |
| SingleFlight.OneLoginAtATime | gateway/router/credential_probe.go:48-56 | At most one CheckCredentials runs at a time. |
| SingleFlight.SlotFollowsLeader | gateway/router/credential_probe.go:72-85 | The slot holds a call if and only if its leader is between opening and clearing it. |
| SingleFlight.LeaderClearsItsOwn | gateway/router/credential_probe.go:82-84 | Clearing finds the leader's own call in the slot and leaves it empty. |
| SingleFlight.WaiterGetsTheLogin | gateway/router/credential_probe.go:59-71 | A waiter released by the closed channel returns exactly what the login of the call it joined came to, panics included. |
| SingleFlight.LeaderGetsTheLogin | gateway/router/credential_probe.go:76-88 | So does the leader. |
| SingleFlight.EveryAnswerIsExplained | gateway/router/credential_probe.go:57-89 | Whatever a caller returns is the reason its own context ended for while it waited, or what the login of the call it joined or led came to. |
| SingleFlight.NilMeansLogin | gateway/router/credential_probe.go:65-71 | A caller reports health only for a login that returned without an error, of the call it joined or led. |
| SingleFlight.OneLoginACall | gateway/router/credential_probe.go:72-88 | A call has one login at most. |
| SingleFlight.LeaderCanClose | gateway/router/credential_probe.go:76-81 | From any reachable state the leader alone can close the channel, whoever holds the mutex, so no waiter is stuck. |
| SingleFlight.NoDeadlock | gateway/router/credential_probe.go:57-89 | While a caller that is not waiting is inside CheckUP, some step other than a cancellation is open. |
| Outages.LossIsNearest | domain/overview.go:75-85 | The percentage is the integer nearest to the exact loss, ties away from zero, and zero when nothing was sent. |
| Outages.LossFollowsRatio | domain/overview.go:75-85 | A lower share of replies never reads as less loss. |
| Outages.LossEnds | domain/overview.go:75-85 | Between 0 and 100, and 100 when nothing came back. |
| Outages.SpansAreEpisodes | services/query.go:232-242 | Each reported span is a maximal run of adjacent degraded samples of its host. |
| Outages.EpisodesAreSpans | services/query.go:232-242 | Each maximal run is reported. |
| Outages.EachLossOnce | services/query.go:232-242 | A sample lies in an episode if and only if it is degraded, in one only, and in one of its own host. |
| Outages.EpisodesAreApart | services/query.go:235-239 | With samples grouped by host, two episodes of a host have a healthy sample of it between them. |
| Outages.WorstIsLeastRatio | domain/overview.go:43-54 | The worst loss is that of the sample with the least share of replies; unreachable means some sample had none and then it reads 100. |
| Outages.CollapseOutages | services/query.go:243-283 | The loop returns for every host one report for each maximal run of its degraded samples, in order and no other: from the time of the first to that of the last, with the worst loss among them and whether one had no reply; no entry for a host without one. |
| Buckets.ClampedWidths | services/query.go:199-215 | An unset width becomes an hour, a width already between a minute and a day is kept, and any other becomes the nearer end. |
| Buckets.Seconds | infrastructure/store.go:1430-1436 | A width in whole seconds, rounded down, and one second for any width below. |
| Buckets.BucketCovers | infrastructure/store.go:1430-1436 | A sample's bucket covers it if and only if it is from 1970 on or falls on a bucket's start. |
| Buckets.BucketIsUnique | infrastructure/store.go:1430-1436 | From 1970 on no other multiple of the width starts a bucket that covers it. |
| Buckets.Assemble | infrastructure/store.go:800-832 | One series for each key with the unit of its first row; series after series, their buckets are the rows in order, none lost or moved. |
| Buckets.Attach | services/query.go:128-131 | Each series gets the outages of its own host and is otherwise unchanged. |
| Buckets.PingOverview | services/query.go:107-140 | The ping half of the overview: one series a host with its buckets and one report for each maximal run of degraded samples of that host, in order. |
| Buckets.NoOutageUnattached | services/query.go:116-131 | When both queries select the same samples, every host with an episode has a series to carry it. |
| Buckets.SeriesConservePoints | infrastructure/store.go:779-904 | Whatever a column sums, a series' buckets add up to the samples of its key. |
| Buckets.BucketsAreAligned | infrastructure/store.go:1430-1436 | Bucket starts are multiples of the width, and a bucket counts exactly the samples of its key that it covers. |
| Buckets.StartsRise | infrastructure/store.go:780-792 | Bucket starts rise strictly within a series. |
| Buckets.SeriesCoverPoints | infrastructure/store.go:813-819 | A key has a series if and only if it has a sample. |
| Buckets.MetricSeriesAreSound | infrastructure/store.go:779-833 | Counts add up to the samples, and each average lies between its bucket's extremes. |
| Buckets.PingSeriesAreSound | infrastructure/store.go:847-904 | Sent, received and sample counts add up to those of the host. |
| Buckets.PingAverageIsBelow | infrastructure/store.go:840-855 | A bucket's average round trip is at most its longest. |
| Outbox.CrashIsDisciplined | services/outbox.go:57-63 | A history stopped anywhere is a history of the same kind. |
| Outbox.StoredOnly | infrastructure/store.go:177-196 | The queue never shrinks, texts never change, and sent stays sent. |
| Outbox.NothingIsLost | services/outbox.go:64-99 | Every stored message is there with its text and time, is unsent until a stored mark says otherwise and then has the time of the last one, and counts exactly its recorded failures, with the reason of the last. |
| Outbox.SentWasAccepted | services/outbox.go:86-99 | A message marked sent was accepted by the sender, with its own text. |
| Outbox.NoteTellsTheTime | services/outbox.go:73-75 | The note of a late message reads as the hour and minute of the UTC day it was stored in. |
| Outbox.Service.AttemptSend | services/outbox.go:86-99 | One send and one record of its outcome, with the time the clock gave for a mark; an error means only that the record failed; other rows are untouched. |
| Outbox.Service.Notify | services/outbox.go:64-71 | The message is stored before its one send, and nothing is sent when storing fails. |
| Outbox.Service.Flush | services/outbox.go:40-55 | Each listed row is tried exactly once in listed order whatever fails; the error carries the last row whose outcome was not stored; a failed listing does nothing; when nothing fails, no message is left unsent. |
| Quarantine.Disk.QuarantineFile | infrastructure/store.go:1900-1911 | The renames happen in order, -wal, -shm, then the file; missing files are passed over, and another error stops at the file it names. |
| Quarantine.GoneAfter | infrastructure/store.go:1902-1909 | After n renames a name is taken if and only if its turn has not come and its file was there. |
| Quarantine.MovedAfter | infrastructure/store.go:1900-1911 | A file whose turn came is under its name with the suffix with its content, over whatever was there, and the others under their own. |
| Quarantine.SidecarsGoFirst | infrastructure/store.go:1882-1893 | Wherever an attempt stopped, a missing main file means both sidecars are gone from their names. |
| Quarantine.RerunFinishes | infrastructure/store.go:1889-1899 | A later attempt, under any suffix, frees all three names. |
| Quarantine.NoContentLost | infrastructure/store.go:1900-1911 | After any attempts, each stopped anywhere, with the target names free at first, all three contents are under their name or a target and every other file is untouched. |

## Left out

- SQL engine, drivers, pragmas, VACUUM, schema migration and file modes: tables are maps by id and a statement is an update of them.
- Text order of stored timestamps: fixed-width UTC strings of RFC 3339 section 5.1 are taken to sort by time, so a column is a whole number of seconds.
- Ids at or past 2^48 milliseconds: outside the histories, which also have one writing process at a time, as the program's file lock arranges.
- Foreign keys: a child row is written only under a run that is still hot, since the pass that inserted the run writes it; the tables do not enforce it.
- Overflow of the maintenance cutoff: day counts are at most 100000, which configuration loading guarantees.
- Execute: it needs a positive RECOVERY_INTERVAL and a clock that does not go back within a pass, because the loop's end rests on time passing.
- Lines on standard error: every failed call of a pass is logged as failed, in order; nothing is stated of the other remarks.
- Telemetry: the two snapshots of a pass are one attempt that may fail, and the clock readings of check rows are not part of a pass.
- Check, metric and ping rows in a watch history: they are steps of the store that may come at any time while it is open, and are not matched with the calls of the running pass; no guard reads them.
- Failed inserts in a watch history: such a pass ends before anything else and adds no step.
- A pass that died between its first row and its confirmation: it still reads as down, so it corroborates on its first sample alone.
- Floating point: loss is an exact fraction and an average a real number.
- GROUP BY and ORDER BY: what they return is a contract on the rows; an average over no sample stays empty where the program reports 0.
- Buckets.PingOverview: the rows and the samples are separate inputs, since the program reads them with two statements and a row may be stored between them; Buckets.NoOutageUnattached joins them when they select the same samples.
- The outbox listing query: any list that holds exactly the unsent rows, oldest first with ties in any order.
- A new database created between two quarantine attempts.
- HTTP, TLS, Telegram, ping execution, collectors, configuration parsing, DTO mapping and the dashboard: input and output around the model.
