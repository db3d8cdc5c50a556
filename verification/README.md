# Trade journal and replay simulators: a verified model

This project models two parts of the auto-trading repository and proves what their comments, checks and
tests promise.

**The journal worker.** It follows a rotating log from a saved cursor, pairs log lines into order rows,
writes the rows and the stop-line events, and compares what it wrote with what the log says. The log
files, the two tables and the saved cursor are durable; everything else is lost when the process dies.

* `Tailer` reads the log; `Pairing` says what lines, snapshots and drains do to the pairer's memory and
  `PairerObject` is the pairer as an object; `JournalDb` holds the tables, changed one atomic statement at a
  time; `Stops` is the stop-line recorder; `Reconcile` compares counts; `Worker` is one rotation and
  `WorkerObject` the worker as an object.
* `PairingPurge`, `PairingMatch` and `Readings` hold the theorems about whole logs; `WorkerRuns`, `WorkerLoss`,
  `WorkerMeasured`, `WorkerOnce`, `WorkerTwice`, `TwiceRecorded`, `WorkerEod`, `WorkerStops` and
  `StopsLag` those about whole runs of the worker.
* Every statement may succeed, fail without effect, or take effect and then raise; the process may die
  between any two statements. Fetches, look-ups in the trade history and the directory listing are inputs.

**The replay simulators.** They are loops over price bars, or over trades, in real arithmetic.

* `Ladder` says what a set of fills costs and risks; `Baseline` is the one-lot exit rule in both its forms;
  `FreeSim` and `Overlay` are the pyramiding ladders; `EtfStops` the two stop machines of the ETF study.
* `Trades`, `Dedup`, `Sleeve` and `Mtm` are the scheduler, the slot allocator and the two drawdowns;
  `Holdings` rebuilds holdings and cost from trades. `Ordering` is a stable sort.

Each loop or object is a method or class proved against a function of its inputs; the theorems are lemmas
about those functions.

What the proofs brought out:

* If the first save of the cursor takes effect but raises, the worker goes on without a cursor while the
  table has one. If the log rotates then, the next rotation begins at the new file and every line between is
  never read (`FirstSaveLoses`). `MayRotateIffTakenUp` says that the log may rotate without any loss to come
  exactly when a saved cursor, if there is one, is taken up by the worker that runs; once it is, it stays so
  (`OnceTakenUp`). Under that condition nothing named is ever lost (`NothingNamedIsLost`).
  Every order so kept stands measured in the table unless a statement writing a row of it got no answer
  (`NamedIsMeasured`).
* A chunk that brings a sell twice, by lines that name it or by a reorder that claims it, can record its exit
  event twice: failed saves and a death make the chunk be read again, and a row that failed at first becomes
  fresh later while the other one's events go out with it. `OneExitIffSafe` says exactly which chunks can do
  this, `FailingRun` gives the run, and `BatchRecordsExactly` counts what one batch records. Where every line
  that can bring the sell names it, the chunks are those that name it twice (`OneExitIffNamedOnce`).
* A line that names its order before its completion is logged leaves that completion free, and the next
  fallback or reorder like it claims the same order again. `ClaimedOnceIffNeverNamedEarly` makes this exact.
  Without any condition each completion line is claimed at most once, and none that a later line has named
  (`ClaimsWithinCompletions`, `NamedIsSpokenFor`).
* A live pairer explains a late buy as one that never forgets does exactly while the newest line is at most the
  keeping time less the window past the buy (`BuySignalsAgreeIff`).
* A restart after 15:30 records the end-of-day row of a holding again (`RestartRepeatsEod`). While the clock
  never goes back and no snapshot shows a holding twice, every run on a schedule of rotations and deaths
  leaves at most one row of the day exactly when at most one life of the process has a rotation at or after
  15:30 of that day, the very first rotation, which can only be a first look, not counted
  (`OneEodIffOneLateLife`). `EodRowsExactly` gives the exact number for every schedule.
* While the clock never goes back, a restarted tracker has the record it had before, and that record stands for
  the row shown, unless an exit row is the holding's latest or an insertion was swallowed
  (`LatestRowIsRecord`, `LatestRowStandsForShown`);
  `SwallowedRowLags` and `ExitRowLeads` are runs in which each of the two makes them differ.
* With substitution on and closing days not counted (`rep_select`, `exit_day_holds=False`), `dedup` can buy
  a ticker back on the day it was sold: a substitute is not checked against the day's sold tickers.
  `NeverRebuysIff` says exactly when it cannot.
* A rotated log file that does not end in a newline is never left (`StaysIffNoLine`).
* Given a positive entry price, a positive step and non-negative ATRs, the guard in `free_sim` marked as
  always true never stops an add (`GuardNeverStopsAnAdd`).

## Model

| member | source | states |
|---|---|---|
| WorkerRuns.NothingNamedIsLost | journal_worker/jw/main.py:219-302 | in every run of appends, log rotations, rotations with failing statements, and deaths between any two statements, in which the log never rotates while a saved cursor is not taken up, each accept, manual or sell-fallback line between the first saved cursor and the present one has had a log line's row offered under its key |
| WorkerMeasured.NamedIsMeasured | journal_worker/jw/main.py:153-180 | in every such run each order named between the first saved cursor and the present one stands measured in the order table, unless a statement that writes a row of it raised or was never sent |
| WorkerLoss.MayRotateIffTakenUp | journal_worker/jw/main.py:293-299 | at any point of a careful run, and for a grammar in which new orders can always be named: the log may rotate without any loss to come, whatever is appended before and whatever careful run follows, exactly when a saved cursor, if there is one, is taken up |
| WorkerLoss.FirstSaveLoses | journal_worker/jw/main.py:293-299 | the run that loses: the first save takes effect but raises, any bytes are appended, the log rotates, and an undisturbed rotation saves a cursor past all of them with no row offered |
| WorkerLoss.OnceTakenUp | journal_worker/jw/main.py:115-117 | once the saved cursor is taken up it stays so through failed saves, deaths, restarts and log rotations; the first saved cursor keeps its place and nothing named is lost |
| WorkerRuns.RotationIsSafe | journal_worker/jw/main.py:219-302 | one rotation, with any faults and with or without a death, keeps both cursors at line boundaries with everything named before them offered or held |
| WorkerRuns.FinishRotates | journal_worker/jw/main.py:254-302 | the saved cursor either stays or becomes the end of the previous chunk with that chunk's orders offered; a living worker that keeps its place has still offered what it held |
| WorkerRuns.FeedAllBrings | journal_worker/jw/pairing.py:123-154 | after feeding lines, every order they name stands among the incoming anchors, and none that stood there is gone |
| WorkerRuns.WriteAllLater | journal_worker/jw/main.py:270-276 | writing a batch offers every row if the process lives, errors of single rows swallowed |
| WorkerRuns.LinesExtend | journal_worker/jw/tailer.py:31-39 | reading on from a line boundary adds exactly the lines read |
| WorkerTwice.OneExitPerSell | journal_worker/jw/main.py:270-286 | in every run, chunks read again included, at most one exit event is recorded per day and sell order, when each chunk read has at most one line that names the order or is a reorder for a ticker and quantity it completes with |
| TwiceRecorded.OneExitIffSafe | journal_worker/jw/main.py:270-286 | for any chunk of lines, reorders included: over all runs that read nothing but these lines, however often and with any snapshots, failures and deaths, every day's exit event of the order is recorded at most once if and only if, however often a pairer that saw every holding reads the lines, no batch holds beside a sell of the order that carries an exit event another sell of it that carries one or is of another day |
| TwiceRecorded.OneExitIffNamedOnce | journal_worker/jw/main.py:270-286 | when every line that can bring the order names it, that is the case if and only if at most one of the lines names it |
| TwiceRecorded.FailingRun | journal_worker/jw/main.py:254-299 | the run, for any two sells of a batch that break the condition: from empty tables the lines are appended, read with every statement failing until the batch is due, one row of it is written and the process dies; then they are read as often again and the batch is written: at least two exit events of the order and day are in the table |
| Readings.ReadsAgain | journal_worker/jw/pairing.py:123-154 | what one more reading of the same lines brings, orders, days and which sells can carry an exit event, depends on the lines and the number of readings alone, whatever snapshots were seen |
| WorkerTwice.BatchRecordsExactly | journal_worker/jw/main.py:271-286 | an undisturbed batch adds, for a key, one exit event for every sell of the key that carries one, if the batch holds a sell of the number whose key was not measured, and none otherwise |
| WorkerTwice.QuietWrites | journal_worker/jw/main.py:153-180 | undisturbed, a batch measures exactly the keys of its measured rows and counts a sell's number fresh exactly when one of its rows was not measured before |
| WorkerTwice.FeedAllGrows | journal_worker/jw/pairing.py:123-154 | a chunk brings at least as many sells of a number as its lines name and at most as many as its lines name or ask for by reorders |
| WorkerOnce.QuietBatchesExitOnce | journal_worker/jw/main.py:270-286 | at most one exit event per day and sell order in every run in which no released batch holds, beside a sell of the number that carries an exit event, another that carries one or is of another day |
| WorkerOnce.FreshCameFrom | journal_worker/jw/main.py:153-180 | a sell counted fresh in a batch turned from not measured to measured in that batch |
| WorkerOnce.ComparisonIsFair | journal_worker/jw/main.py:191-217 | at any point of any run, if the day's completions and rows name the same orders, both side counts agree at every cutoff and the comparison is ok exactly when no kept sell lacks a reason |
| WorkerOnce.RunKeepsDay | journal_worker/jw/main.py:128-180 | completions and rows counted in a day stay unique per order and side, and measured, even when chunks are read again |
| WorkerOnce.LatestIsLastRecorded | journal_worker/jw/db.py:113-120 | while recording times never go back, the latest row per holding is the last one recorded |
| WorkerObject.JournalWorker.RotateOnce | journal_worker/jw/main.py:219-302 | the worker object's rotation changes its fields, the pairer, the tracker and the tables exactly as `Worker.Rotate` says |
| WorkerObject.JournalWorker.GetReady | journal_worker/jw/main.py:219-224 | starts up if need be and rolls the day, as `Worker.Ready` says |
| WorkerObject.JournalWorker.LookAndRead | journal_worker/jw/main.py:237-302 | takes the snapshots and finishes the rotation with the next chunk |
| WorkerObject.JournalWorker.ReadLog | journal_worker/jw/main.py:249-302 | reads the next chunk and finishes the rotation with it, as `Worker.ReadOn` says |
| WorkerObject.JournalWorker.constructor | journal_worker/jw/main.py:94-113 | a new worker has not started up and remembers nothing |
| WorkerObject.JournalWorker.BootUp | journal_worker/jw/main.py:115-123 | starting up takes the saved cursor as both chunk ends and rebuilds the tracker from the latest row of each holding |
| WorkerObject.JournalWorker.Roll | journal_worker/jw/main.py:128-142 | a new day clears the day's counts, once |
| WorkerObject.JournalWorker.CountEvents | journal_worker/jw/main.py:254-268 | completions are counted once per order and side; notices with a division fill rows already written |
| WorkerObject.JournalWorker.StoreRow | journal_worker/jw/main.py:153-171 | insert, or promote the row that is there; reports errors and whether the row is fresh |
| WorkerObject.JournalWorker.NoteRow | journal_worker/jw/main.py:172-180 | a written row is known, and a measured one counted once per order and side |
| WorkerObject.JournalWorker.WriteRows | journal_worker/jw/main.py:270-276 | writes a batch row by row and collects the fresh sells |
| WorkerObject.JournalWorker.WriteExits | journal_worker/jw/main.py:277-286 | records exit events of fresh sells only |
| WorkerObject.JournalWorker.ReleaseRows | journal_worker/jw/main.py:271-286 | drains the pairer and writes what it lets go |
| WorkerObject.JournalWorker.TrackStops | journal_worker/jw/main.py:288-292 | records every event the tracker gives |
| WorkerObject.JournalWorker.CommitChunk | journal_worker/jw/main.py:294-300 | saves the end of the previous chunk; a failed save leaves the worker where it was |
| WorkerObject.JournalWorker.CompareCounts | journal_worker/jw/main.py:207-218 | compares kept completions with kept rows and remembers the result |
| WorkerObject.JournalWorker.ReconcileRows | journal_worker/jw/main.py:191-218 | writes rows missing from the journal and compares, unless the trade history cannot be read |
| PairingPurge.PurgeIsInvisible | journal_worker/jw/pairing.py:102-121 | with line times that never go back, a live pairer lets go the same own-number orders, in order and with the same resolved details and exit events, as one that never forgets |
| PairingPurge.AnswersAgree | journal_worker/jw/pairing.py:261-276 | the exit-reason, status-exit and deferral answers at the newest line agree with those of a pairer that never forgets |
| PairingPurge.BuySignalsAgreeIff | journal_worker/jw/pairing.py:416-430 | over all logs in time order whose last line is at a given time, a live pairer explains a buy as one that never forgets does if and only if that time is at most the keeping time less the window past the buy |
| PairingPurge.CrowdForgets | journal_worker/jw/pairing.py:113-118 | past that bound: a signal at the far end of the window and a crowd of exit reasons, after which the live pairer finds no source and the other does |
| PairingPurge.LatestIsLatest | journal_worker/jw/pairing.py:261-276 | a look-back finds an entry of the window exactly when there is one, and none of the window is later |
| PairingMatch.ClaimedOnceIffNeverNamedEarly | journal_worker/jw/pairing.py:158-197 | with line times that never go back and completions of distinct numbers: no claim ever bears a number borne before, however the log goes on from any point with claiming lines, if and only if no completion is logged after a line that names it |
| PairingMatch.ClaimsWithinCompletions | journal_worker/jw/pairing.py:158-169 | for every log whatever: a number is claimed at most as often as it has completion lines |
| PairingMatch.NamedIsSpokenFor | journal_worker/jw/pairing.py:171-174 | for every memory and every log after a line that names an order: its number is claimed at most as often as completion lines follow |
| PairingMatch.CompletionsAreClaimedOnce | journal_worker/jw/pairing.py:158-174 | if each order completes once and is named only after its completion, each completion is claimed by at most one fallback or reorder, and never one an earlier line named |
| PairingMatch.EarlyNameIsClaimedAgain | journal_worker/jw/pairing.py:171-190 | a line that names its order before the completion leaves it to be claimed again |
| PairingMatch.BestDoneIsNearest | journal_worker/jw/pairing.py:158-169 | a completion is found exactly when one is eligible; it is a time-nearest one, the last of several |
| PairingMatch.ClaimTakesNearest | journal_worker/jw/pairing.py:187-197 | a claiming line takes and marks a nearest eligible completion and brings one anchor with its number, or changes nothing |
| PairerObject.Pairer.constructor | journal_worker/jw/pairing.py:42-65 | a new pairer remembers nothing |
| PairerObject.Pairer.PurgeAt | journal_worker/jw/pairing.py:102-121 | raises the watermark, starts a new day, and sweeps old entries when crowded or on a new day; only for the live log |
| PairerObject.Pairer.FeedEvents | journal_worker/jw/pairing.py:123-154 | purges and then hears each line, as `Pairing.FeedAll` says |
| PairerObject.Pairer.PopMatchingDone | journal_worker/jw/pairing.py:158-169 | marks exactly the best eligible completion, or nothing |
| PairerObject.Pairer.MarkDone | journal_worker/jw/pairing.py:171-174 | marks exactly the completions with the number |
| PairerObject.Pairer.TakeBuyAccept | journal_worker/jw/pairing.py:176-185 | a buy accept names its order, is the last buy of its holding and becomes an anchor |
| PairerObject.Pairer.TakeBuyFallback | journal_worker/jw/pairing.py:187-197 | a buy fallback becomes an anchor with the number of the completion it claims |
| PairerObject.Pairer.TakeOwnSell | journal_worker/jw/pairing.py:199-226 | a sell that names its order becomes an anchor with its reason, lines and exit event resolved at once; all but manual ones are remembered for reorders |
| PairerObject.Pairer.TakeReorder | journal_worker/jw/pairing.py:228-251 | a reorder inherits strategy, reason and parent from the ticker's last resolved sell |
| PairerObject.Pairer.TakeSnapshot | journal_worker/jw/pairing.py:69-76 | snapshots update the rings and the two histories of eight |
| PairerObject.Pairer.UpdateRing | journal_worker/jw/pairing.py:78-100 | recent signals join their rings once per clock time, old ones leave, whatever order the strategies come in |
| PairerObject.Pairer.Drain | journal_worker/jw/pairing.py:482-498 | lets go what the last drain held back, and holds back what came since; a final drain lets all go |
| JournalDb.TableOnlyGains | journal_worker/jw/db.py:30-82 | under any sequence of statements with errors anywhere there is one row per key, and no known column, strategy or measured source ever changes |
| WorkerMeasured.RotationApplies | journal_worker/jw/main.py:219-302 | whatever it meets, a rotation changes the tables by a sequence of single statements |
| WorkerMeasured.RunOnlyGains | journal_worker/jw/main.py:153-180 | from any point of any run on, with failures, deaths and chunks read again, the order table keeps one row per key and forgets or changes nothing it knew |
| JournalDb.FreshAtMostOnce | journal_worker/jw/main.py:153-180 | over any history a row is fresh at most once |
| JournalDb.FreshMeansNewlyMeasured | journal_worker/jw/main.py:153-180 | a fresh write turns a key that was not measured into a measured one |
| JournalDb.PromotionFillsGaps | journal_worker/jw/db.py:48-75 | promotion keeps every known column, fills every missing one the log row knows, takes its source, and touches no other row |
| JournalDb.JournalTables.InsertOrder | journal_worker/jw/db.py:30-46 | insert or nothing, the answer saying which |
| JournalDb.JournalTables.PromoteOrder | journal_worker/jw/db.py:48-75 | promotes only a row of an empty source |
| JournalDb.JournalTables.FillOrderDivision | journal_worker/jw/db.py:77-82 | fills a missing division only |
| JournalDb.JournalTables.InsertStop | journal_worker/jw/db.py:84-95 | appends a stop event |
| JournalDb.JournalTables.Save | journal_worker/jw/db.py:104-111 | replaces the saved cursor |
| Stops.RecordNeverDrifts | journal_worker/jw/stops.py:67-150 | after every processed observation each holding's last record equals the row shown in kind, target, hit and arm price, and its stop is equal or has only risen by less than half a percent |
| Stops.RebuildRestores | journal_worker/jw/stops.py:47-65 | a tracker rebuilt from its own last events has the same last rows and arm prices |
| Stops.OneEodPerDay | journal_worker/jw/stops.py:111-118 | with a clock that never goes back one tracker gives at most one end-of-day event per holding and day |
| WorkerEod.EodRowsExactly | journal_worker/jw/main.py:288-292 | for every schedule of rotation times and deaths: whatever the log, its growth, the snapshots, the lines and the failures, a run leaves at most so many end-of-day rows of a holding and day if and only if the schedule has at most so many chances, a chance being a turn of one life to the day with a rotation at or after 15:30 by which the holding can be known |
| WorkerEod.OneEodIffOneLateLife | journal_worker/jw/main.py:288-292 | while the clock never goes back and no snapshot shows a holding twice: every run on the schedule leaves at most one row of the day if and only if at most one life has a rotation at or after 15:30 of that day, the very first rotation not counted |
| WorkerEod.EodsWithinChances | journal_worker/jw/main.py:288-292 | no run has more end-of-day rows of a holding and day than its schedule has chances |
| WorkerEod.ChancesAreTaken | journal_worker/jw/stops.py:67-150 | for every schedule, the run over an empty log whose every rotation sees the holding and has its statements sent leaves as many rows as the schedule has chances |
| WorkerEod.ForwardChances | journal_worker/jw/stops.py:111-118 | when the clock never goes back the chances are the lives with a late rotation on the day |
| WorkerEod.RestartRepeatsEod | journal_worker/jw/stops.py:111-118 | the run: a first look, the end-of-day row, a death and the row again leave two rows of the day in the table |
| WorkerStops.LatestRowIsRecord | journal_worker/jw/main.py:115-123 | at any point of any run whose clock never goes back: if no insertion of a tracker's row of the holding was swallowed and its latest row is not an exit row, a tracker started from the table has the same record and arm price of the holding as the one that runs |
| WorkerStops.LatestRowStandsForShown | journal_worker/jw/main.py:288-292 | after a rotation of such a run that showed the holding, the latest row of the table stands for the row shown |
| StopsLag.SwallowedRowLags | journal_worker/jw/main.py:288-292 | the run: a stop price is recorded, then a lower one whose insertion is swallowed; the table keeps the old stop, which does not stand for the row shown |
| StopsLag.ExitRowLeads | journal_worker/jw/main.py:277-292 | the run: a stop price is recorded, rises too little to be recorded, and the holding is sold; the exit row is the latest and bears the risen stop, so a restarted tracker has another record than the running one |
| Stops.StopTracker.constructor | journal_worker/jw/stops.py:47-65 | starts from the last row of each holding |
| Stops.StopTracker.Decide | journal_worker/jw/stops.py:100-130 | picks the one event an item gives: first, boot, paused, end of day, change |
| Stops.StopTracker.SeeItem | journal_worker/jw/stops.py:84-149 | updates the maps of one holding and gives its event |
| Stops.StopTracker.See | journal_worker/jw/stops.py:67-150 | ignores, skips or processes an observation by phase |
| Tailer.DeliveryIsExact | journal_worker/jw/tailer.py:42-86 | over any interleaving of appends, rotations and reads the lines delivered are exactly the complete lines of the log from where reading began |
| Tailer.ReadAdvances | journal_worker/jw/tailer.py:42-82 | the lines of one read are exactly the log between the two cursors, across a rotation too |
| Tailer.FirstReadAdvances | journal_worker/jw/tailer.py:46-49 | a first read starts at the beginning of the live file |
| Tailer.StaysIffNoLine | journal_worker/jw/tailer.py:56-82 | a read leaves the cursor in place exactly when no complete line fits the window and the file is not a rotated one read to its end |
| Tailer.WindowYields | journal_worker/jw/tailer.py:31-39 | a window yields newline-free lines that are exactly the bytes passed over |
| Reconcile.CutoffSplit | journal_worker/jw/main.py:39-63 | keeps completions and rows by the later of the two times of their pair |
| Reconcile.PairIsNeverSplit | journal_worker/jw/main.py:39-63 | at every cutoff a completion and its row are both kept or both dropped |
| Reconcile.IdentitiesHold | journal_worker/jw/reconcile.py:13-23 | when both lists name the same orders the side counts agree at every cutoff, and the check is ok exactly when no kept sell lacks a reason |
| Reconcile.RowsFromTradeHistory | journal_worker/jw/reconcile.py:37-57 | exactly the filled, old enough orders missing from the journal become rows of an empty source |
| Ladder.PeakWithinTheory | _workspace/domain_consult/cycle351_pyramid_s0_replay.py:506-512 | fills at least a rung apart never risk more than the theoretical peak, and risk exactly it when all are on their rungs |
| Ladder.RiskWithinRung | _workspace/domain_consult/cycle351_pyramid_s0_replay.py:442-444 | open risk after each fill is at most that rung's risk, and equal on the rungs |
| Ladder.LossWithinTheory | _workspace/domain_consult/cycle351_pyramid_s0_replay.py:499-501 | closing at or above the set's line loses at most the theoretical peak |
| Ladder.LadderAvg | _workspace/domain_consult/cycle351_pyramid_s0_replay.py:438-440 | the average stays between the entry price and the last fill |
| Ladder.TheoPeakIsLargest | _workspace/domain_consult/cycle351_pyramid_s0_replay.py:506-512 | the theoretical peak is the largest rung risk, or zero |
| Ladder.ComputeTheoPeak | _workspace/domain_consult/cycle351_pyramid_s0_replay.py:506-512 | the running maximum over rungs computes the theoretical peak |
| Baseline.BaselineTruncatesSimulation | _workspace/domain_consult/cycle351_pyramid_s0_replay.py:290-320 | the 60-bar rule leaves at the bar and price of the open-ended one whenever that is in time, else at the sixtieth close |
| Baseline.RunBaseline | _workspace/domain_consult/cycle351_pyramid_s0_replay.py:290-320 | the bar loop computes the 60-bar exit, between entry and last bar |
| Baseline.Simulate | _workspace/domain_consult/cycle346_macd_early_entry_paired.py:50-93 | the open-ended simulation, none exactly on the last bar or for a price or ATR that is not positive |
| Baseline.HoldUntilExit | _workspace/domain_consult/cycle346_macd_early_entry_paired.py:67-93 | the holding loop's exit, line name and best excursion |
| Baseline.Sequential | _workspace/domain_consult/cycle346_macd_early_entry_paired.py:107-122 | the scan that re-enters only after an exit |
| Baseline.OnePositionAtATime | _workspace/domain_consult/cycle346_macd_early_entry_paired.py:107-122 | no two trades of the scan overlap |
| Baseline.SignalsAreUsed | _workspace/domain_consult/cycle346_macd_early_entry_paired.py:107-122 | while ATRs are positive no usable signal is passed over except during an open trade |
| FreeSim.PeakIsBounded | _workspace/domain_consult/cycle351_pyramid_s0_replay.py:424-501 | on every price path the observed peak risk is the largest ever carried and never exceeds the theoretical peak; without gaps and with all rungs it equals it |
| FreeSim.StopLossIsBounded | _workspace/domain_consult/cycle351_pyramid_s0_replay.py:459-501 | an exit at a stop line or right after an add loses at most the theoretical peak |
| FreeSim.GuardNeverStopsAnAdd | _workspace/domain_consult/cycle351_pyramid_s0_replay.py:481-482 | with and without the guard every run is the same |
| FreeSim.SingleTrancheIsBaseline | _workspace/domain_consult/cycle351_pyramid_s0_replay.py:424-501 | a run that never adds leaves exactly as the one-lot baseline |
| FreeSim.RunFree | _workspace/domain_consult/cycle351_pyramid_s0_replay.py:424-501 | the bar loop computes the outcome |
| FreeSim.AddRungs | _workspace/domain_consult/cycle351_pyramid_s0_replay.py:474-495 | the adds of one bar, up to the first that stops |
| Overlay.PeakIsBounded | _workspace/domain_consult/cycle351_pyramid_s0_replay.py:328-404 | in both forms the peak risk stays within the theoretical peak on every path |
| Overlay.StopLossIsBounded | _workspace/domain_consult/cycle351_pyramid_s0_replay.py:364-393 | in both forms an exit at a computed line or right after an add loses at most the theoretical peak |
| Overlay.SecondFormIsTighter | _workspace/domain_consult/cycle372_s0_archive_replay.py:136-218 | the second form leaves no later, holds a prefix of the first form's fills and risks no more |
| Overlay.SecondLineDominates | _workspace/domain_consult/cycle372_s0_archive_replay.py:150-164 | at the same position the second form's line is never below the first's |
| Overlay.SecondLineNeverLoosens | _workspace/domain_consult/cycle372_s0_archive_replay.py:150-164 | the second form's line never goes down over a whole run |
| Overlay.RunOverlay | _workspace/domain_consult/cycle351_pyramid_s0_replay.py:328-404 | the first form's loop computes its replay |
| Overlay.RunOverlayV2 | _workspace/domain_consult/cycle372_s0_archive_replay.py:136-218 | the second form's loop computes its replay |
| EtfStops.KojiroIsSafe | _workspace/domain_consult/cycle391_etf_s0_remeasure.py:243-266 | the stop never loosens, and only an open through it or a stage-3 open can lose more than one R |
| EtfStops.DonchianIsSafe | _workspace/domain_consult/cycle391_etf_s0_remeasure.py:269-298 | the stop never loosens, and only an open can lose more than one R |
| EtfStops.SimKojiro | _workspace/domain_consult/cycle391_etf_s0_remeasure.py:243-266 | the bar loop computes the exit |
| EtfStops.SimDonchian | _workspace/domain_consult/cycle391_etf_s0_remeasure.py:269-298 | the bar loop computes the exit |
| Dedup.AcceptedAreConflictFree | _workspace/domain_consult/cycle391_etf_s0_remeasure.py:424-461 | no accepted trade is in the cluster of a trade held when it entered |
| Dedup.AcceptedAreMaximal | _workspace/domain_consult/cycle391_etf_s0_remeasure.py:424-461 | with substitution off every trade is accepted or conflicts with an accepted one that came first |
| Dedup.TickersStayApart | _workspace/domain_consult/cycle391_etf_s0_remeasure.py:424-461 | when closing days count, or substitution is off, no ticker overlaps itself |
| Dedup.NeverRebuysIff | _workspace/domain_consult/cycle391_etf_s0_remeasure.py:433-457 | same-day buy-backs are impossible exactly when closing days count or substitution is off |
| Dedup.RunDedup | _workspace/domain_consult/cycle391_etf_s0_remeasure.py:424-461 | the loop over days with its pruned list computes the accepted trades and the number of substitutes |
| Dedup.PrunedLater | _workspace/domain_consult/cycle391_etf_s0_remeasure.py:432-432 | a held list that equals the filter of all accepted trades on a day does so on every later day |
| Dedup.TakeDay | _workspace/domain_consult/cycle391_etf_s0_remeasure.py:435-459 | the picks of one day, and how many of them are substitutes |
| Dedup.SubstitutesAreTaken | _workspace/domain_consult/cycle391_etf_s0_remeasure.py:446-457 | every substitute counted is a trade taken that day and large enough to trade; without substitution there is none |
| Dedup.Substitute | _workspace/domain_consult/cycle391_etf_s0_remeasure.py:446-457 | the first later candidate of the cluster that is large enough and free of conflicts |
| Trades.PruningIsFiltering | _workspace/domain_consult/cycle391_etf_s0_remeasure.py:432-432 | dropping closed trades day by day is the same as filtering them all at once |
| Sleeve.SlotsNeverExceeded | _workspace/domain_consult/cycle391_etf_s0_remeasure.py:597-607 | for every list and tie order no day is covered by more than four taken trades |
| Sleeve.PassedOverOnlyWhenBlocked | _workspace/domain_consult/cycle391_etf_s0_remeasure.py:636-662 | a trade not taken found all slots full, or a held trade of its cluster |
| Sleeve.IntegratedIsConflictFree | _workspace/domain_consult/cycle391_etf_s0_remeasure.py:636-662 | the integrated form never holds two trades of one cluster |
| Sleeve.RunSleeve | _workspace/domain_consult/cycle391_etf_s0_remeasure.py:601-607 | the loop that keeps exit days only makes the greedy choice |
| Sleeve.RunIntegrated | _workspace/domain_consult/cycle391_etf_s0_remeasure.py:647-662 | so does the integrated loop, for any order within each day |
| Mtm.MtmMdd | _workspace/domain_consult/cycle391_etf_s0_remeasure.py:573-588 | the daily series sums to exactly the profit booked at the exits, and the result is its largest drawdown |
| Mtm.ApproxMdd | _workspace/domain_consult/cycle391_etf_s0_remeasure.py:567-570 | the largest drawdown of the profit booked exit by exit |
| Mtm.DrawdownIsUniqueAndNotPositive | _workspace/domain_consult/cycle391_etf_s0_remeasure.py:567-588 | a drawdown is one number and never positive |
| Mtm.BookedTelescopes | _workspace/domain_consult/cycle391_etf_s0_remeasure.py:580-585 | marking a trade day by day books what its exit books |
| Mtm.WholeBooked | _workspace/domain_consult/cycle391_etf_s0_remeasure.py:576-585 | the marks of one trade sum to its net result at its weight |
| Holdings.BuildTimeline | tools/slot_utilization_review.py:84-184 | the copies made at each close, read after all later changes to the live lots, still show the fold of the events up to their day |
| Holdings.TimelineAt | tools/slot_utilization_review.py:158-172 | entry n is the fold of all events processed by the close of day n |
| Holdings.QuantityIsConserved | tools/slot_utilization_review.py:118-150 | per strategy and ticker, held is bought less really sold, never negative, and really sold is asked less recorded excess |
| Holdings.CostFollowsQuantity | tools/slot_utilization_review.py:122-150 | cost is zero exactly when the lot is empty, and the average lies between the lowest and highest price paid |
| Holdings.SellKeepsAverage | tools/slot_utilization_review.py:145-150 | a sell that does not empty the lot keeps the average cost |
| Holdings.OpenLot.Apply | tools/slot_utilization_review.py:122-150 | one event changes the lot in place and warns exactly on an oversell |
| Holdings.ProcessDay | tools/slot_utilization_review.py:114-172 | one day's events and its close leave earlier snapshots as they were |
| Holdings.CopyLots | tools/slot_utilization_review.py:160-169 | a snapshot is made of new objects with the values of the open lots |
| Holdings.ReconcileWithLive | tools/slot_utilization_review.py:194-208 | the loop computes the differences in the order of the tickers, absent ones counting as zero |
| Holdings.DifferencesAreExact | tools/slot_utilization_review.py:201-208 | over the sorted union of the tickers, the differences come in ticker order, one for exactly the tickers whose quantities differ, and none exactly when both sides agree everywhere |

## Left out

- Parsing of log lines: the line grammar is any function from a line to an event and a time stamp.
- Text decoding: lines are bytes; the catch-up test counts them without replacement characters.
- HTTP fetches, SQL connections and file-system races: their results and failures are inputs. A live log file is always listed during runs.
- Start-up that fails half way: it is repeated in full before anything else is done, so only its final effect is modelled.
- The loop around rotations with its waiting times, log messages, the gap and resolved notices, and the past-log loader.
- Signal times are seconds of the day; clock texts that spell the same second differently are not told apart.
- `file_name` of the cursor, and the raw inputs recorded beside a stop event: no decision depends on them.
- Division and exchange columns under purging: the invisibility result is about the anchors and the answers; a notice older than the keeping time may be forgotten.
- WorkerRuns.NothingNamedIsLost: assumes that at most one log rotation is outstanding, so that the reader's file is still listed. The row offered may be that of another log line with the same key, such as a fallback that claimed the order.
- PairingMatch.CompletionsAreClaimedOnce: goes one way only; `PairingMatch.ClaimedOnceIffNeverNamedEarly` is the exact form.
- WorkerTwice.OneExitPerSell: chunks with two lines that can bring the order are covered over all runs only through `WorkerOnce.QuietBatchesExitOnce`; for one chunk read again and again `TwiceRecorded.OneExitIffSafe` is exact.
- Stops.RebuildRestores: is about one tracker's own events; `WorkerStops.LatestRowIsRecord` says when it holds of the table it shares with exit rows, over whole runs.
- Indicators, stages, correlations, market multipliers and net asset values: any input series, with the signs the claims need.
- Floating-point rounding: prices and risks are real numbers.
- Bootstrap intervals, thresholds, yearly averages, report writing, and the choice of random orders: any order within a day is covered.
- Holdings.BuildTimeline: does not compute the list of buys and the intraday maximum count, which depend on nothing else and on which nothing else depends.
- Entry spacing in the archive replay: small and independent of the rest.
- The trading engine itself, the feature and target builders of the language-model worker, the front end and the probes.
