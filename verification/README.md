# Verified model of a honeypot telemetry pipeline

Sensors append JSON lines to log files. The ingestor tails those files, queues the records and writes them to Postgres
and Redis; the enrichment worker looks the source addresses up; the analytics engine correlates events and keeps
behavioural profiles; heartbeats let a watchdog replace a process that hangs. This project models the four stateful parts
and proves what they guarantee over whole runs, under any interleaving, with faults and hard kills between any two
effects.

`dafny verify dfyconfig.toml` checks everything.

## How the models are built

Each concurrent component is a state machine: a datatype `Action`, a total function `Next` (an action that is not enabled
changes nothing) and `Run`, the state after a sequence of actions. Invariants are proved step by step and then hold in
every run. `Ingest.Projection` shows that each tail inside the process goes through a run of its own, so what is proved
about the runs of one tail holds there too. Fields marked as history are read by no step; they exist to state what
happened. The imperative code is modelled as classes and loops whose contracts tie them to the machines: `Tailer.Tail` and `Handler.Consumer` replay
`_tail_once` and `_consume_one` as steps of `Tails` and `Ingest`, `Correlator.Engine` replays `handle_event` and
`gc_state` as steps of `Windows`, and `Flusher.Store` replays `flush_profiles` as steps of `Profiles`.

| file | component |
|---|---|
| Tail.dfy, Restarts.dfy, Tailer.dfy | one sensor's tail: checkpoints, rotation, all its lifetimes |
| Ingest.dfy, Handler.dfy, Records.dfy | tails, bounded queue, consumers and their four separately committed effects |
| Delivery.dfy | the enrichment queue: consumer group, re-adds, reclaim |
| Budget.dfy, Quota.dfy, Pacing.dfy | AbuseIPDB's and VirusTotal's daily budgets, VirusTotal's pacing |
| Providers.dfy | whether a lookup of GreyNoise, AbuseIPDB or VirusTotal sends a request, and what it answers |
| Merge.dfy, Tiered.dfy | merging of provider answers, the two-tier provider, what it spends, its deferred retry |
| Feeds.dfy | indicator feeds: table and in-memory index |
| Detectors.dfy, Windows.dfy, Engine.dfy, Correlator.dfy | detectors, sliding windows, caps and eviction |
| Profiles.dfy, Flusher.dfy, Escalation.dfy | profiles, their batched persistence, rows that only escalate |
| Heartbeat.dfy | beats and watchdog |
| Shortfalls.dfy | runs in which the code does less than it promises |

Assumptions throughout: appends are whole lines, inodes are never reused, clocks do not run backwards, name-based UUIDs
(section 5.5 of RFC 9562) do not collide, and single SQL statements and transactions are atomic.

## What the code does not do

Where comments or documentation promise more than the code does, the model follows the code. Each entry names the exact
condition and a run in which the promise fails.

- `pipeline/ingestor.py:783-788` says no checkpoint passes a queued record. Checkpoints record what was read and
  enqueued (`Shortfalls.CheckpointPassesQueued`). A kill loses a queued or held record, and the restart skips it, if and
  only if its file is no longer the one at the path, no checkpoint is on disk, or it lies below the checkpoint
  (`Ingest.KillLosesIff`, `Ingest.KillThenOpenSkipsIff`): never more than the queue's capacity plus one per consumer
  (`Ingest.KillLosesAtMost`), and none when the drain completes (`Ingest.DrainedShutdownLosesNothing`).
- A tail restarted without a checkpoint begins at end of file (`Restarts.RestartCanSkip`). Over any number of restarts a
  file is read without a gap if and only if each restart on it found a checkpoint, or nothing parseable unread
  (`Restarts.NoGapAcrossRestarts`).
- A replayed line is recognised if and only if its timestamp parses or the clock repeats itself, because the key includes
  the timestamp and an unparseable one becomes the current time (`Ingest.ReplayCollapsesIff`,
  `Shortfalls.ReplayDuplicates`).
- Reclaim takes over whatever has been idle long enough, also a message that waits in a busy loop's batch
  (`enrichment/worker.py:291-308`), which is then handled twice (`Shortfalls.ReclaimHandlesTwice`). In every reachable
  state a reclaim makes one more repeated handling possible if and only if its entry has been decided or some loop is
  still going to decide about it (`Delivery.ReclaimRepeatsIff`), and handlings are repeated at most once per such
  reclaim (`Delivery.RepeatsAtMostReclaims`).
- The AbuseIPDB budget is checked before a request and charged after it, so k overlapping callers can spend
  quota + k - 1 in a day, and no more (`Budget.DailyBudgetHolds`, `Budget.BudgetBoundIsReached`).
- VirusTotal's callers wait between check and request for a lock and for the pause since the last answer, maybe past
  midnight. Each caller that carried an admission over midnight can add one more request to AbuseIPDB's bound
  (`Quota.SendsPerDay`), for every number of callers and carriers up to quota + 2k - 1 in all, as long as the day has
  room for the pauses: with 480 requests and 15.5 s, for up to 2500 callers (`Quota.SendsBoundIsReached`). On a day
  whose requests were all admitted on it the smaller bound holds (`Quota.PromptSendsPerDay`).
- `enrichment/providers.py:710-711` says feed-listed addresses spend no Tier-2 quota. A listed address spends none under
  the same condition as any other: it is inactive, GreyNoise has a verdict in its cache, or GreyNoise has an unknown
  there or is in a cooldown and, should the address be hot, every paid provider has a cached answer, no key, no budget
  left or a cooldown (`Tiered.ListedSpendsNothingIff`). With providers just started an active one always
  spends (`Tiered.ListedAddressSpends`).
- A feed's table stores parsed addresses, its index the feed's own spelling (`Shortfalls.SpellingHides`), and a failed
  load after a restart leaves the index empty (`Shortfalls.FailedLoadHides`). `Feeds.AgreesIff` says exactly when lookups
  answer as the table would, in every state.
- `analytics/engine.py:150-155` says an evicted profile has already been persisted. Eviction also discards a pending
  update (`Shortfalls.EvictionLoses`). For an address of which no update was thrown away before, an eviction loses
  nothing if and only if the row and the write being awaited cover the profile (`Profiles.EvictionHarmlessIff`). As long
  as none is thrown away the row ends up complete, whatever is evicted (`Profiles.QuiescentRowsAreComplete`).

## Model

| member | source | states |
|---|---|---|
| Tails.ResumeIs | pipeline/ingestor.py:295-331 | the checkpointed file is entered where it was left, a shortened or any other file from the start, and without a checkpoint at the end |
| Tails.CoveredStep | pipeline/ingestor.py:395-461 | every step of a tail keeps: all parseable lines inside the read spans were enqueued, and the checkpoint and read position lie inside the span of their file |
| Tails.InOrderStep | pipeline/ingestor.py:402-451 | every step keeps the output of a lifetime in file order, file after file, without gap or repeat |
| Tails.TightStep | pipeline/ingestor.py:401-423 | while no checkpoint write failed, the checkpoint trails the furthest line read by at most CHECKPOINT_EVERY_LINES; no bound is claimed for a rotated file while it is read out, which saves nothing, and until the next file is opened |
| Tails.FilesGrow | pipeline/ingestor.py:402-417 | no step of the tail shortens a file, and only a completed put enqueues a line |
| Tails.RunKeeps | pipeline/ingestor.py:366-463 | all three invariants hold in every state any run of appends, rotations, reads, saves, failures and restarts can reach |
| Tails.RestartLeavesNoGapIff | pipeline/ingestor.py:295-331 | a restart leaves no gap in a file it had already read if and only if a checkpoint is on disk or nothing was written since |
| Tails.RestartRepeatsAtMost | pipeline/ingestor.py:247-269 | if saves succeed, a restart leaves no gap and repeats at most CHECKPOINT_EVERY_LINES lines |
| Tails.LifetimeOutput | pipeline/ingestor.py:402-451 | one lifetime enqueues exactly the parseable lines of whole stretches, file after file, every file after the first from its start |
| Tails.RotationDrainsOldFile | pipeline/ingestor.py:426-461 | across a live rotation everything the old file holds at the drain's last empty read is enqueued, in order, before anything of the new file, which is then read from offset 0 |
| Restarts.MarksStep | pipeline/ingestor.py:295-331 | every step keeps: a checkpoint never lies beyond the reading position, a file opened after the checkpointed one was entered at 0, and a tail without a checkpoint repeats nothing |
| Restarts.PastStep | pipeline/ingestor.py:366-463 | every step keeps, per file since its first entry ever: its lines were enqueued or passed over by a restart, never both, and reach the queue in file order |
| Restarts.FirstStartStands | pipeline/ingestor.py:335-363 | whatever fails, where a file was first entered stands for good and the furthest line read is never taken back |
| Restarts.SkipsIff | pipeline/ingestor.py:305-311 | a run passes over a parseable line of a file iff some restart on it found no checkpoint and a parseable line unread |
| Restarts.NoGapAcrossRestarts | pipeline/ingestor.py:295-331 | across any kills, restarts and failing saves, everything parseable from the first entry to the furthest line read was enqueued iff no restart was of that kind |
| Restarts.InOrderAcrossRestarts | pipeline/ingestor.py:366-463 | a file's lines first reach the queue in file order, once each: exactly the parseable ones from the first entry on, but for those a restart passed over |
| Restarts.CheckpointNeverPassesUnread | pipeline/ingestor.py:395-423 | at every moment a parseable line from the first entry up to the saved offset has been enqueued iff no restart passed it over |
| Restarts.AheadStep | pipeline/ingestor.py:402-417 | a line still to be read stays so until it is enqueued, its tail dies, or the path goes while the tail is dead |
| Restarts.AheadEnds | pipeline/ingestor.py:309-315 | dying, or losing the path while dead, leaves such a line unread only if the path names another file by then |
| Restarts.BehindStep | pipeline/ingestor.py:295-331 | a line that neither the tail nor a restart would read is never read again |
| Restarts.RestartSkipsIff | pipeline/ingestor.py:295-331 | a kill and a restart leave an enqueued line unread iff its file is not the newest, there is no checkpoint, or it lies below the checkpoint |
| Restarts.RestartCanSkip | pipeline/ingestor.py:305-311 | a run whose restart passes over a line nobody enqueued and then checkpoints beyond it |
| Tailer.RunStaysInOrder | pipeline/ingestor.py:366-463 | coverage and order survive any run from any state that has them |
| Tailer.Tail.constructor | pipeline/ingestor.py:366-380 | a tail starts with no open file and with whatever its two volumes hold |
| Tailer.Tail.OpenAndResume | pipeline/ingestor.py:378-401 | opening, seeking and saving the start position is the machine's opening step |
| Tailer.Tail.ReadLine | pipeline/ingestor.py:403-405 | readline returns the next line of the file, or nothing exactly at its end, and moves the offset by that line |
| Tailer.Tail.CompletePut | pipeline/ingestor.py:406-407 | the completed put enqueues the line just read |
| Tailer.Tail.CountLine | pipeline/ingestor.py:413-416 | a counted line saves the position every CHECKPOINT_EVERY_LINES lines |
| Tailer.Tail.CatchUp | pipeline/ingestor.py:421-425 | at end of file the position is saved if any line is unsaved |
| Tailer.Tail.CheckRotation | pipeline/ingestor.py:427-428 | a rotation is seen exactly when the path names another file; a missing path is not one |
| Tailer.Tail.Drain | pipeline/ingestor.py:431-438 | the rotated file is read until a read comes back empty |
| Tailer.Tail.EndDrain | pipeline/ingestor.py:433-439 | the empty read closes the rotated file |
| Tailer.Tail.OpenNext | pipeline/ingestor.py:445-451 | the new file is entered at offset 0, which is saved at once |
| Tailer.Tail.FollowRotation | pipeline/ingestor.py:431-461 | after a rotation the tail reads the old file out, waits for the new one and goes on at its start |
| Tailer.Tail.TakeLine | pipeline/ingestor.py:404-417 | a line read is enqueued if it parses, and counted |
| Tailer.Tail.Round | pipeline/ingestor.py:402-461 | one turn of the loop is a run of the machine's steps, whatever other processes do while it awaits |
| Tailer.Tail.TailOnce | pipeline/ingestor.py:366-463 | the whole loop is a run of the machine, and what it has enqueued is exactly the parseable lines read, in order |
| Ingest.CommitRows | pipeline/ingestor.py:620-638 | an insert adds one row under a free key or none, and either way the record is stored afterwards |
| Ingest.CommitMoves | pipeline/ingestor.py:620-651 | one committed effect changes each column of the books of an address by exactly what the handler run stops or starts owing |
| Ingest.LedgerStep | pipeline/ingestor.py:611-651 | rows, event_count, published and queued balance after every step, counting runs cut off and runs under way |
| Ingest.StoreStep | pipeline/ingestor.py:565-651 | every step keeps: rows carry the right key, a run past its insert has its record stored, and a transient give-up used all attempts |
| Ingest.AccountedStep | pipeline/ingestor.py:538-583 | a line that is resolved, queued, held or lost stays so; only a kill takes it out of the process, and then it is lost or read again |
| Ingest.TracedStep | pipeline/ingestor.py:335-363 | no step loses sight of an enqueued line: it is resolved, on its way, lost, to be read again, or was to be when its file was rotated away |
| Ingest.LossStep | pipeline/ingestor.py:783-797 | what is lost is in no queue or hand and is never read again, in every step |
| Ingest.TailsStep | pipeline/ingestor.py:335-363 | every step of the whole process keeps every tail covered, and no log file ever shrinks or changes a line |
| Ingest.FlowStep | pipeline/ingestor.py:538-562 | every step keeps the queue within its capacity, the unfinished counter equal to queued plus held, and every line ever enqueued traced |
| Ingest.RunKeeps | pipeline/ingestor.py:748-800 | all of this holds in every state any interleaving of tails, consumers, faults, kills and shutdowns can reach |
| Ingest.Projection | pipeline/ingestor.py:763-768 | inside the process each tail goes through a run of its own |
| Ingest.EveryLineAccountedFor | pipeline/ingestor.py:395-423 | each parseable line from the first entry of the checkpointed file up to the saved offset is stored, discarded by rule, given up, queued, held, or lost with a killed process, unless a restart passed it over; none was if every restart found a checkpoint or nothing unread |
| Ingest.KillLosesIff | pipeline/ingestor.py:783-788 | a kill loses a line iff it is queued or held, unresolved, and its file is not at the path, no checkpoint is on disk, or it lies below the checkpoint |
| Ingest.KillThenOpenSkipsIff | pipeline/ingestor.py:783-788 | a kill followed by a restart skips a queued or held line iff it lies there, and otherwise reads it again |
| Ingest.LostForGood | pipeline/ingestor.py:783-788 | a lost line is in no queue or hand, and no tail or restart reads it again |
| Ingest.KillLosesAtMost | pipeline/ingestor.py:87-88 | a kill loses at most QUEUE_MAX + CONSUMERS lines and undoes nothing that is resolved |
| Ingest.DrainedShutdownLosesNothing | pipeline/ingestor.py:783-797 | a shutdown whose drain completes loses no line and cuts no handler run off; everything enqueued is resolved, but for what earlier kills lost or left to be read again |
| Ingest.AtMostOneRow | db/init.sql:24 | a record with a parseable timestamp has at most one events row and is published at most once, under any interleaving, replay, retry and fault |
| Records.IdIsUnique | pipeline/ingestor.py:514-526 | an event id belongs to one record of one sensor |
| Ingest.LawfulStep | pipeline/ingestor.py:589-638 | every step keeps: rows, bus and handlers past their first decisions hold wanted events only, under their canonical addresses |
| Ingest.OnlyWantedIsStored | pipeline/ingestor.py:589-612 | in every reachable state each row is of an event whose address parses, is none of our own and not private where private ones are dropped, under its canonical address and own timestamp; every address counted, published or queued has such a row; a line counted as discarded was neither stored nor published |
| Ingest.CountsLag | pipeline/ingestor.py:639-648 | per address published <= event_count <= stored rows, each gap equal to the handler runs cut off, or still running, between the two effects |
| Ingest.QueuedOnce | pipeline/ingestor.py:649-651 | an address is queued for enrichment at most once, and is missing from the queue exactly when the run that created its row was cut off or is still under way |
| Ingest.ReplayCollapsesIff | pipeline/ingestor.py:688-694 | in every reachable state, inserting a stored record again adds nothing iff its timestamp parses or the clock reads what an earlier insert of it read |
| Handler.Consumer.constructor | pipeline/ingestor.py:538-557 | a consumer starts from any state of the whole process |
| Handler.Consumer.InsertEvent | pipeline/ingestor.py:614-638 | the insert commits or fails as the machine's step does; unless it failed before its commit the record is stored |
| Handler.Consumer.CountEvent | pipeline/ingestor.py:666-683 | one more event for the address, the first creating its row |
| Handler.Consumer.UpsertIp | pipeline/ingestor.py:663-685 | counts the event and reports the address as new exactly when the machine does |
| Handler.Consumer.PublishEvent | pipeline/ingestor.py:646-648 | one entry on the events stream, then on to the enrichment queue only for a new address |
| Handler.Consumer.QueueAddress | pipeline/ingestor.py:649-651 | one entry on the enrichment queue, and the handler is done |
| Handler.Consumer.Decide | pipeline/ingestor.py:589-612 | before the database is touched: a raising normalizer is a permanent failure, an unwanted record is dropped, and a wanted event goes on under its canonical address |
| Handler.Consumer.Announce | pipeline/ingestor.py:639-651 | undisturbed, a stored event is counted once, published once, and its address queued if it is new |
| Handler.Consumer.Handle | pipeline/ingestor.py:586-651 | undisturbed, a wanted event whose key is free adds exactly one row under its canonical address and own timestamp, one count, one publication, and for a new address one enrichment request; an unwanted one changes nothing; returning means discarded by rule or stored, raising that the retry decision of `_consume_one` applies |
| Handler.Consumer.ConsumeOne | pipeline/ingestor.py:565-583 | after at most ITEM_MAX_ATTEMPTS attempts the consumer is free and the record is stored, discarded or given up, all by steps of the machine |
| Delivery.SecuredStep | enrichment/worker.py:205-247 | a request that is resolved or has a live later entry stays so in every step |
| Delivery.DecisionSecures | enrichment/worker.py:218-239 | a handler turns to acknowledging only after resolving the request or handing it to a younger entry, or losing the re-add |
| Delivery.AttemptsStep | enrichment/worker.py:219-227 | an entry's attempt number counts transient failures that did happen, and giving up means all attempts failed |
| Delivery.RunKeeps | enrichment/worker.py:250-312 | these hold in every state reachable by deliveries, handlings, reclaims, failed acknowledgements and hard kills |
| Delivery.NoRequestForgotten | enrichment/worker.py:187-247 | a queued address stays undelivered or pending until enriched, found fresh, failed permanently, or given up after MAX_ATTEMPTS transient failures, unless a re-add failed |
| Delivery.ForcedIsLookedUp | enrichment/worker.py:193-194 | a forced request is never dismissed as fresh, however often it is re-added |
| Delivery.EveryRequestCanEnd | enrichment/worker.py:250-312 | from every reachable state, also with messages in the hands of killed loops, some continuation leaves nothing unacknowledged and ends every request, unless a re-add of it had failed |
| Delivery.AttemptsBelowLimit | enrichment/worker.py:221-227 | no attempt number on the stream reaches MAX_ATTEMPTS |
| Delivery.BudgetStep | enrichment/worker.py:205-247 | handlings done plus handlings still possible grow only by new requests and by repeated handlings |
| Delivery.HandlingsBounded | enrichment/worker.py:205-247 | in every run, first decisions and what they can still lead to are bounded by MAX_ATTEMPTS per request and per repeated decision |
| Delivery.ExcessStep | enrichment/worker.py:287-312 | decisions taken and due beyond the first per entry grow only by a reclaim of an entry that is decided or in some loop's hands, one each |
| Delivery.RepeatsAtMostReclaims | enrichment/worker.py:287-312 | in every run, with any kills and failures, decisions are repeated at most once per such reclaim |
| Delivery.DecisionsBounded | enrichment/worker.py:205-312 | all decisions of a run: MAX_ATTEMPTS per request and MAX_ATTEMPTS + 1 per such reclaim |
| Delivery.MostRepeats | enrichment/worker.py:287-312 | from any state, repeated decisions without another reclaim come to at most the decisions taken and due beyond the first per entry, and some continuation reaches that number |
| Delivery.ReclaimRepeatsIff | enrichment/worker.py:287-312 | in every reachable state a reclaim makes one more repeated decision possible iff its entry has been decided or some loop is still going to decide about it, and none otherwise |
| Delivery.OrderlyHandlings | enrichment/worker.py:205-312 | as long as reclaim takes over abandoned entries only, with any kills and failed acknowledgements, no entry is decided twice and n requests finish in at most MAX_ATTEMPTS * n handlings |
| Delivery.HandledIsRun | enrichment/worker.py:205-247 | taking one message from delivery to acknowledgement leaves the stream with the entry decided and, after a retryable failure, one entry an attempt older |
| Delivery.HandledSpends | enrichment/worker.py:221-247 | the sum of attempts left strictly decreases with every handled message |
| Delivery.Stream.HandleMessage | enrichment/worker.py:205-247 | `handle_message` leaves the stream as the machine's steps do and lowers that sum, whatever fails |
| Budget.NextMidnightIsNext | enrichment/providers.py:140-145 | the reset time is the least multiple of 86400 above the current time |
| Budget.CheckStep | enrichment/providers.py:160-173 | the budget check of any caller keeps the bound on requests of the day |
| Budget.ReturnStep | enrichment/providers.py:175-189 | an answer or a failure keeps it, also when it arrives after the day has changed |
| Budget.DailyBudgetHolds | enrichment/providers.py:147-189 | with k concurrent callers, requests started in one UTC day that are answered or in flight never exceed quota + k - 1 |
| Budget.BudgetBoundIsReached | enrichment/providers.py:160-179 | that bound is reached for every k and quota |
| Quota.CallersStep | enrichment/providers.py:353-362 | a caller's outstanding request was admitted no later than sent, and answered leftovers of an earlier day are followed by admissions of that day or later |
| Quota.AnswersStep | enrichment/providers.py:361-362 | answers to requests sent on a day exceed those admitted on it by at most one per caller |
| Quota.SendsPerDay | enrichment/providers.py:319-362 | VirusTotal requests sent in one UTC day that are answered or in flight exceed quota + k - 1 at most by the number of callers that carried an admission over midnight, hence never exceed quota + 2k - 1 |
| Quota.PromptSendsPerDay | enrichment/providers.py:319-362 | they never exceed quota + k - 1 on a day whose requests were all admitted on it |
| Quota.SendsBoundIsReached | enrichment/providers.py:339-362 | for every k, every number m <= k of carriers and every quota, quota + k - 1 + m is reached under the lock and with the pauses kept, if the day has room for quota + 2k pauses |
| Budget.AbuseIpdb.constructor | enrichment/providers.py:122-131 | cache and meter start empty |
| Budget.AbuseIpdb.Begin | enrichment/providers.py:147-172 | only an answer younger than the ttl avoids the meter, and a request goes out exactly when the rolled meter admits it |
| Budget.AbuseIpdb.Finish | enrichment/providers.py:174-206 | any answer is charged and a failed request is not; a 429 sets the cooldown and is not cached |
| Budget.AbuseIpdb.CachePut | enrichment/providers.py:133-138 | the cache keeps its cap, holds the new answer, and gives up at most one entry, the oldest |
| Budget.PutCapped | enrichment/providers.py:133-138 | a full cache drops the entry written longest ago, and none otherwise |
| Budget.Oldest | enrichment/providers.py:135-135 | the key with the least timestamp |
| Pacing.InvStep | enrichment/providers.py:354-362 | one caller holds the lock, and none sends before 15.5 s have passed since the last answer |
| Pacing.StretchIsLong | enrichment/providers.py:354-362 | n answers take at least (n - 1) * 15.5 s |
| Pacing.FourPerMinute | enrichment/providers.py:354-362 | any 60 seconds contain at most four answered VirusTotal requests, for any number of callers and any failures |
| Pacing.AnswersCanGoOn | enrichment/providers.py:354-362 | any number of lookups can be answered, one every 15.5 s |
| Pacing.FourInAMinute | enrichment/providers.py:354-362 | four answers in a closed minute are possible |
| Merge.MergeEnrichments | enrichment/providers.py:640-675 | the merging loop computes the fold whose laws follow |
| Merge.VerdictIs | enrichment/providers.py:637-656 | malicious iff some source says so, else suspicious iff some source says so, else unknown; never clean |
| Merge.PlaceIs | enrichment/providers.py:664-669 | country, AS and organisation are each those of the first answer that has one, None iff none has |
| Merge.ConfidenceIs | enrichment/providers.py:658-662 | the confidence is the greatest of 0 and all given, the attacker flag is set iff some answer sets it |
| Merge.CategoriesAre | enrichment/providers.py:671-673 | the categories are the non-empty ones of all answers, each once |
| Merge.AuditIs | enrichment/providers.py:640-656 | each source is kept with the reputation it gave last, or as failed |
| Merge.OrderDoesNotMatter | enrichment/providers.py:645-673 | verdict, confidence, attacker flag and category set are the same for every order of the answers |
| Merge.MergeOfHalves | enrichment/providers.py:640-675 | merging a concatenation equals merging the two merged halves, on all fields and even category order |
| Merge.MetadataIsNeutral | enrichment/providers.py:655-673 | a metadata-only answer changes no verdict, wherever it comes in |
| Providers.GreyNoise.constructor | enrichment/providers.py:224-231 | nothing cached and no cooldown |
| Providers.GreyNoise.Begin | enrichment/providers.py:240-252 | a request goes out iff the address has no cached answer younger than an hour and no cooldown is on; otherwise the cached answer or a stub is given |
| Providers.GreyNoise.Finish | enrichment/providers.py:254-284 | a 429 starts a cooldown counted from the lookup's start and is not cached, everything else is, failures too |
| Providers.GreyNoise.Enrich | enrichment/providers.py:240-284 | one request is all that is sent for the address until the ttl has passed, or for any address until the cooldown has |
| Providers.AskAbuseIpdb | enrichment/providers.py:147-206 | a lookup is charged once if its request was answered, by a 429 too, and then sends nothing more until the ttl, or the cooldown, has passed |
| Tiered.PaidAnswers | enrichment/providers.py:147-206 | a paid provider answers from its cache, without a key, with a stub that counts as deferred, or with what its request met with, of which only a 429 counts as deferred |
| Tiered.GreyNoiseAnswers | enrichment/providers.py:240-284 | likewise GreyNoise |
| Tiered.Tier1At | enrichment/providers.py:760-771 | every feed that does not miss is recorded with its answer or failure, right after those consulted before it |
| Tiered.Tier1Size | enrichment/providers.py:760-771 | and nothing else is recorded |
| Tiered.BookedAt | enrichment/providers.py:786-813 | each provider asked is booked in order, as deferred if it answered with a stub and as run otherwise |
| Tiered.BookedOnce | enrichment/providers.py:786-813 | and once |
| Tiered.GeoIsMerged | enrichment/providers.py:773-779 | country and AS of the feed named as `geo_source` are the merged ones, where it has them |
| Tiered.ConsultFeeds | enrichment/providers.py:760-771 | every feed is consulted in order, raising ones recorded, and flagged means some answer is suspicious or worse |
| Tiered.GeoSource | enrichment/providers.py:777-779 | the first answer with a country or an AS, or none |
| Tiered.AskTier2 | enrichment/providers.py:795-813 | nobody is asked about an inactive address, the paid providers only about a hot one on which GreyNoise raised or gave unknown; each one asked is booked once, as run or as deferred |
| Tiered.Enrich | enrichment/providers.py:759-822 | the result is the merge of all answers in consultation order, with the report that belongs to it; the feed it names as source of the geo data is the one whose country and AS were kept |
| Tiered.TurnsAreTier2 | enrichment/providers.py:795-813 | the lookups counted below are those the tiered provider makes, in its order and with its answers |
| Tiered.SpendsNothingIff | enrichment/providers.py:781-813 | whatever the answers would be, a lookup sends no request iff the address is inactive, GreyNoise has a verdict in its cache, or it is cached as unknown or in a cooldown and, if the address is hot, each paid provider has it cached, lacks a key, has spent its budget or is in a cooldown |
| Tiered.ListedSpendsNothingIff | enrichment/providers.py:710-711 | the same condition decides for an address whose verdict a feed listing has settled |
| Tiered.ListedAddressSpends | enrichment/providers.py:710-711 | with providers just started a listed, active address spends one GreyNoise request whatever comes back, and a hot one without a GreyNoise verdict one of each paid provider besides |
| Tiered.UnknownIsQuiet | enrichment/providers.py:652-653 | the verdict is unknown if and only if no source reached suspicious |
| Tiered.DeferredRetryIff | enrichment/worker.py:127-135 | a stored result is due for the deferred retry after six hours, whatever its last_seen, iff some Tier-2 provider was deferred and no source reached suspicious or worse |
| Tiered.SelectedIff | enrichment/worker.py:127-135 | the hourly selection takes addresses without a row, those seen within a day whose row is stale, and those deferred six hours ago without a verdict |
| Feeds.ExecuteMany | enrichment/feeds.py:71-73 | a batch of inserts leaves earlier rows alone |
| Feeds.Store | enrichment/feeds.py:76-95 | for every chunk size, streaming in batches replaces the source's rows by the parseable ones |
| Feeds.ReplacedHas | enrichment/feeds.py:83-95 | the table holds exactly the addresses some row names |
| Feeds.ReplacedFirst | enrichment/feeds.py:71-73 | each address is stored with the data of the first row naming it |
| Feeds.RefreshAgreesIff | enrichment/feeds.py:121-149 | after a refresh, lookups of canonical addresses answer as the table would if and only if the download spells each address canonically with the data first given for it |
| Feeds.UnmadeIff | enrichment/feeds.py:112-119 | the index has not been made iff no load or committed refresh came through since the last restart |
| Feeds.MadeFrom | enrichment/feeds.py:116-149 | otherwise it is what the last of them made it: the stored rows, or the download |
| Feeds.LoadAgrees | enrichment/feeds.py:116-119 | after any run, a load that goes through makes lookups answer as the table |
| Feeds.RefreshReplaces | enrichment/feeds.py:121-149 | after any run, a committed refresh leaves the index with just the spellings of the download and the table with just the addresses it names, each with the data first given |
| Feeds.AgreesIff | enrichment/feeds.py:116-149 | in every state of every run, lookups of canonical addresses answer as the table would iff: nothing is stored (index never made); the content is unchanged since (loaded); the download mirrors what is stored (refreshed) |
| Feeds.LookupsAnswerAsTable | enrichment/feeds.py:164-210 | as long as no restart, further load or refresh that goes through, or commit with lost reply has followed, they do iff the last of these events was a load or a well-spelled download |
| Feeds.TableIsCanonical | enrichment/feeds.py:98-102 | a table only ever holds canonical spellings |
| Feeds.FailedLoadAgreesIff | enrichment/feeds.py:116-119 | a restart whose load fails agrees with the table if and only if the table is empty |
| Feeds.Feed.constructor | enrichment/feeds.py:112-114 | the index starts empty |
| Feeds.Feed.LoadRows | enrichment/feeds.py:116-119 | a load makes the index the stored rows, a failing one changes nothing |
| Feeds.Feed.RefreshFrom | enrichment/feeds.py:226-259 | a refresh that fails before its commit changes neither copy; one that commits replaces both |
| Detectors.ScanDetector.OnEvent | analytics/correlation/scan_detector.py:16-35 | the detector's code does what ScanStepIs says |
| Detectors.ScanStepIs | analytics/correlation/scan_detector.py:16-35 | one finding iff the events no older than the window show enough distinct positive ports and none was reported within it; with just those ports and services, a sweep from three services on; and then the address is marked |
| Detectors.ScanDetector.Prune | analytics/correlation/scan_detector.py:37-40 | forgets exactly what was reported more than two windows ago |
| Detectors.AttackDetector.OnEvent | analytics/correlation/attack_detector.py:19-59 | the detector's code does what AttackStepIs says, in the source's order |
| Detectors.AttackStepIs | analytics/correlation/attack_detector.py:19-59 | brute force iff a login makes enough logins in the window and none was reported within it, with their number, users and services, as credential stuffing from four users on; one command finding per window; exploit signatures always |
| Detectors.AttackDetector.IsDup | analytics/correlation/attack_detector.py:61-66 | a key is marked exactly when it was not a duplicate |
| Detectors.AttackDetector.Prune | analytics/correlation/attack_detector.py:68-71 | forgets exactly what was reported more than two windows ago |
| Detectors.ForgetOld | analytics/correlation/attack_detector.py:68-71 | deleting stale entries one by one leaves exactly the others |
| Windows.SlideCovers | analytics/engine.py:118-124 | appending and trimming keeps the window an end piece of the history, with nothing recent before it |
| Windows.TrimIs | analytics/engine.py:122-124 | trimming drops the events before the first recent one, and no other |
| Windows.CoversRecent | analytics/correlation/scan_detector.py:18-18 | such a window and the whole history contain the same recent events |
| Windows.PruneRemembers | analytics/correlation/attack_detector.py:68-71 | pruning never changes what counts as a duplicate now or later |
| Windows.ArriveMatches | analytics/engine.py:108-124 | taking in an event keeps bounded and unbounded engine in step |
| Windows.DetectMatches | analytics/engine.py:126-131 | each detector reports the same findings in both |
| Windows.CollectMatches | analytics/engine.py:337-355 | collecting garbage at any moment, also while an event is handled, keeps them in step |
| Windows.EvictMatches | analytics/engine.py:140-148 | evicting a window without an event of the last WINDOW_KEEP_S keeps them in step |
| Windows.SameFindings | analytics/engine.py:108-131 | for every gc schedule, with at most WINDOW_MAX_EVENTS events per address in WINDOW_KEEP_S, no eviction of a window still in use and detector windows within WINDOW_KEEP_S, the engine reports what one that never forgets reports |
| Windows.ReportsAreSpaced | analytics/correlation/scan_detector.py:24-27 | in every run, whatever is collected or evicted, scans of one address lie at least a window apart, and so do brute-force and command findings |
| Windows.ScanReportedIff | analytics/correlation/scan_detector.py:16-35 | in every reachable state the next scan finding is there iff the window fans out and none was reported for the address within the last window, and is exactly that fan-out |
| Windows.WindowShowsHistory | analytics/engine.py:118-124 | under the conditions of SameFindings the window shows the same recent events as everything the address ever sent |
| Windows.FanOutReportedIff | analytics/correlation/scan_detector.py:16-35 | so a scan is reported iff the address, by all it ever sent, fanned out within the last window, and none was reported in it |
| Windows.AttackReportedIff | analytics/correlation/attack_detector.py:19-59 | in every reachable state the attack findings of an event are exactly those due, given what was reported within the last window |
| Correlator.Engine.constructor | analytics/engine.py:94-105 | windows, profiles and detector memories start empty |
| Correlator.Engine.Arrive | analytics/engine.py:112-124 | the event enters its window as the machine's step does, after evicting windows if a new address meets the cap |
| Correlator.Engine.Persist | analytics/engine.py:127-131 | a detector's findings are persisted in order until one fails, the rest of them being dropped |
| Correlator.Engine.RunScan | analytics/engine.py:126-131 | the scan detector's findings are reported as the machine's step does |
| Correlator.Engine.RunAttack | analytics/engine.py:126-131 | likewise the attack detector's |
| Correlator.Engine.Detect | analytics/engine.py:126-131 | the detectors run one after the other on the same window, with collection in between at will |
| Correlator.Engine.CollectGarbage | analytics/engine.py:337-355 | `gc_state` is the machine's collection step and leaves the event under way alone |
| Correlator.Engine.Track | analytics/engine.py:133-138 | the profile takes in the event and is marked dirty without touching correlation |
| Correlator.Engine.HandleEvent | analytics/engine.py:108-138 | handling one event is the machine's eviction, arrival, scan, optional collection and attack steps, and the profile is marked |
| Correlator.Engine.ReportedAsIfNothingWereForgotten | analytics/engine.py:108-131 | everything the engine object's detectors have reported is what they would report in an engine that never forgets |
| Engine.Coldest | analytics/engine.py:145-146 | the least recently seen entry |
| Engine.EvictColdest | analytics/engine.py:145-148 | exactly n entries go, and each was seen no later than every one kept |
| Engine.Put | analytics/engine.py:113-118 | a new source always gets in and the cap holds; others go only when the cap is reached, and then exactly the coldest tenth, one at least |
| Engine.Slid | analytics/engine.py:119-124 | the deque takes in the event, within its maximum length, and begins with no event that is too old |
| Engine.Memory.constructor | analytics/engine.py:101-104 | empty memory within its caps |
| Engine.Memory.SlideWindow | analytics/engine.py:113-124 | caps on windows and on events per window hold, the source is admitted, evicted sources were seen no later than kept ones, all other windows are untouched |
| Engine.Memory.TrackProfile | analytics/engine.py:133-138 | the same for profiles; an evicted profile loses its dirty mark, the updated one gains it |
| Engine.Memory.Collect | analytics/engine.py:337-352 | exactly the stale windows and profiles go, dirty marks stay |
| Profiles.UpdateRises | analytics/behavioral/profiler.py:59-104 | an event never lowers anything a profile's snapshot shows |
| Profiles.ToldCounts | analytics/behavioral/profiler.py:73-80 | after any history of events the logins are the number of login events, and services and sessions exactly the non-empty ones named |
| Profiles.ToldHints | analytics/behavioral/profiler.py:84-104 | the hints are exactly the signs of some command or signature |
| Profiles.ToldCommands | analytics/behavioral/profiler.py:87-94 | the commands kept are the first 200 new ones, cut to 300 characters |
| Profiles.ToldTactics | analytics/behavioral/profiler.py:76-104 | each tactic is there iff one of its causes is: a sign mapped to it, five logins, a successful login |
| Profiles.ToldLast | analytics/behavioral/profiler.py:70-71 | the profile was last seen at its last event |
| Profiles.SnapshotTells | analytics/behavioral/profiler.py:106-144 | score, class and every other column in terms of the events |
| Profiles.ScoreBounds | analytics/behavioral/profiler.py:106-118 | the score lies within 0 .. 100 |
| Profiles.ScoreRises | analytics/behavioral/profiler.py:106-118 | the score grows with services, commands, tooling and logins |
| Profiles.ClassRises | analytics/behavioral/profiler.py:120-130 | the class never falls in rank as a profile grows |
| Profiles.MergeIsLeast | analytics/engine.py:196-225 | the profile upsert is the least row dominating both the old row and the snapshot |
| Profiles.FitsStep | analytics/engine.py:241-257 | for every address, every step keeps row, lists, awaited write and everything ever shown in step, unless an update was thrown away |
| Profiles.QuiescentRowsCoverProfiles | analytics/engine.py:235-257 | once nothing is dirty, listed or being written, every profile in memory is dominated by its row, whatever was evicted or collected, unless a write since its last event was permanently rejected uncommitted or aborted |
| Profiles.QuiescentRowsAreComplete | analytics/engine.py:235-257 | and the row of an address of which no update was thrown away equals the merge of everything its profiles ever showed |
| Profiles.RowTellsEvents | analytics/engine.py:196-225 | that row is the least that dominates the row at the start and what the events of each of the address's profiles come to |
| Profiles.RowShowsEvents | analytics/engine.py:196-225 | for a new address whose profile was never discarded it shows exactly its events: sessions, logins, signs, tactics, score and class |
| Profiles.FlushComesThrough | analytics/engine.py:235-257 | from any state two undisturbed flushes leave nothing to be written and throw nothing away |
| Profiles.EvictionHarmlessIff | analytics/engine.py:150-160 | a discarded profile loses nothing iff the row and the awaited write cover it |
| Profiles.NothingLost | analytics/engine.py:133-160 | a run throws no update away iff no listed profile is discarded, no write comes to nothing whose profile is gone or unlisted, and nothing listed is dropped by a stop |
| Flusher.Store.constructor | analytics/engine.py:103-104 | nothing in memory and nothing dirty, whatever the table holds |
| Flusher.Store.Interfere | analytics/engine.py:133-160 | an event or an eviction during a flush is the machine's step |
| Flusher.Store.EndWrite | analytics/engine.py:247-256 | a write that ends updates the row if it committed and re-queues the address exactly after a transient failure |
| Flusher.Store.FlushOne | analytics/engine.py:243-256 | one address off the list: a missing profile is skipped, another is written as it stood when taken up |
| Flusher.Store.FlushProfiles | analytics/engine.py:241-257 | a flush empties its list, and if nothing is dirty afterwards each row dominates its profile, unless a write since its last event was rejected uncommitted or aborted |
| Escalation.RankIsPosition | analytics/engine.py:85-90 | rank is the position in CLASS_RANK, 0 for anything else |
| Escalation.RowIsMaximum | analytics/engine.py:162-186 | over all writers an existing ips row ends as the maximum, in score and in rank, of its start and everything written |
| Escalation.WritersRaise | analytics/engine.py:162-186 | what each writer makes sure of: 30 and scanner for a scan, 45 to 85 by kind of attack, 60 for a known attacker, a profile's own score and class |
| Escalation.OrderAndRepeatsDoNotMatter | analytics/engine.py:228-232 | two histories with the same writes, in any order and with any repeats, lead to the same row |
| Escalation.NeverRegresses | enrichment/worker.py:198-202 | no write lowers score or rank, and none creates a row |
| Heartbeat.Monitor.constructor | pipeline/heartbeat.py:61-68 | no beats yet |
| Heartbeat.Monitor.BeatNow | pipeline/heartbeat.py:61-77 | a call within a second of the last one does nothing; a failed write changes only the memory |
| Heartbeat.Monitor.Start | pipeline/heartbeat.py:80-85 | every named loop reads as having just beaten, the others are untouched |
| Heartbeat.Monitor.FirstStale | pipeline/heartbeat.py:96-102 | the first loop past its threshold, or none exactly if there is none; a loop without a beat file is past it |
| Heartbeat.FileFollowsCalls | pipeline/heartbeat.py:61-77 | a beat file is never newer than the last call and less than a second older |
| Heartbeat.PunctualLoopIsNeverStale | pipeline/heartbeat.py:88-102 | a loop calling at most D seconds apart is never declared stale when D + 1 <= its threshold |
| Heartbeat.SilentLoopIsCaught | pipeline/heartbeat.py:117-134 | a loop that stops is caught within its threshold plus one poll period, and the time a sleep may overrun |
| Shortfalls.CheckpointPassesQueued | pipeline/ingestor.py:783-788 | a run in which a queued record lies below the checkpoint and a kill loses it |
| Shortfalls.ReplayDuplicates | pipeline/ingestor.py:688-694 | a run that stores one line with an unparseable timestamp twice |
| Shortfalls.ReclaimHandlesTwice | enrichment/worker.py:287-312 | a run without kill or failed acknowledgement that handles one request twice though it was allowed one attempt |
| Shortfalls.SpellingHides | enrichment/feeds.py:121-149 | a refresh after which a stored address is not found |
| Shortfalls.FailedLoadHides | enrichment/feeds.py:116-119 | a restart whose load fails and which does not find a stored address |
| Shortfalls.EvictionLoses | analytics/engine.py:150-160 | a run in which an evicted profile has never been persisted |

## Left out

- Truncation of a file in place, half-written lines, reused inodes and blank-line handling: a line is parseable or not.
- Rotation while the tail is down: the old file's unread end is never read; `orphans` in Ingest are those of its lines that were to be read a second time, and lines that were never enqueued are not followed.
- Normalizers, NUL stripping, password redaction, address and timestamp parsing: a record carries what they answer.
- Both streams carry an address as the record spells it; the model counts them by canonical address.
- Backoff delays and heartbeats inside the loops: they change no state the properties speak of.
- The `services_hit` and `ports_hit` arrays of an ips row and stream trimming by MAXLEN.
- Cancellation of an enrichment handler, which acknowledges unfinished work (enrichment/worker.py:240-245): only hard kills are modelled.
- Paging of the reclaim cursor, the re-reading loop around stream errors, and idle times: reclaim may take any pending entry.
- Stream entries with a malformed attempt field: producers write numbers only.
- IPinfo, CrowdSec and abuse.ch providers and MultiProvider; how GreyNoise and VirusTotal payloads become verdicts.
- VirusTotal as an object: its lookups are values in Providers, its budget, lock and pause machines in Quota and Pacing.
- Tailer.Tail.TailOnce: runs any finite number of rounds of the endless loop; the reopening wrapper `tail` is the machine's Fail followed by Open.
- Tailer.Tail.Drain: reads any finite number of lines, and says whether it reached the empty read.
- Tailer.Tail.FollowRotation: polls for the new file any finite number of times, and says whether it came.
- Handler.Consumer.ConsumeOne: follows one consumer on its own; interleaving with other consumers, tails and kills is what the Ingest lemmas cover.
- Delivery.Stream.HandleMessage: one undisturbed call; interleaved loops, kills and reclaims are what the Delivery lemmas cover.
- Providers.GreyNoise.Enrich, Providers.AskAbuseIpdb: one undisturbed lookup; lookups of other addresses may come in between request and answer, which Begin and Finish allow.
- Budget.AbuseIpdb.Begin: reads the clock once where the source reads it twice in a row without awaiting.
- GeoLite and IPinfo database feeds, feed downloads and their parsing, and the consultation order of feeds.
- The sample usernames in brute-force findings, and the order in which service names are joined.
- Windows.SameFindings: says nothing about runs in which the address cap evicts a window still in use; findings then may differ.
- `commands_seen` and `avg_session_s` of stored profiles: one is cut by an unordered LIMIT, the other overwritten.
- Flusher.Store.FlushProfiles: ties each step to the machine but keeps no record of the whole run, which Profiles.QuiescentRowsAreComplete covers.
- Floating point: scores and times are exact numbers; the rounding of the score to one decimal changes no multiple of a half.
- Status snapshots, reports, retention, settings and credentials, connection pools, and everything under api/, frontend/, honeypot/, deploy/ and maintenance/.
