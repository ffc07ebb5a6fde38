# A model of the image processor's job lifecycle

This project models the durable job lifecycle of the image processor and the threads that drive it, and
proves what they keep over whole runs. One ledger model is shared by everything else.

* **Ledger.** `Lifecycle.dfy` has the states and the two edge tables. `LedgerSpec.dfy` gives every
  transaction as a function from one database value to the next; `Ledger.dfy` is the object whose methods
  are proved to take exactly those steps. `Effects.dfy` tells what each operation leaves in the columns, and when
  publication can be left with nothing to do. `LedgerRuns.dfy` proves what any run of operations keeps, and
  `Paging.dfy` that following cursors is exact.
* **Scheduler.** `Queues.dfy` says where entries may be and who owns a job, as values, with one lemma per
  movement. `Executors.dfy` is the scheduler's view of its cells: recorded sessions, device memory, the
  requests that change either. `Residency.dfy` is admission and eviction. `Scheduler.dfy` is the scheduling
  pass itself, with every exit. `Bystanders.dfy` proves that what everyone else does to the ledger is
  within what the pass allows for. `CellMain.dfy` is the process on the other end.
* **Completion.** `Installing.dfy`, `Bundles.dfy` and `Execution.dfy` give an intent's execution as the
  sequence of file states it passes through. `Crashes.dfy` proves convergence from every one of them, and that
  no evidence is lost in any of them. `Outcomes.dfy` tells what a finished execution leaves on the disk, without
  the steps. `Completion.dfy` is the completer, proved to take just those steps and to leave just that.
  `Planning.dfy` and `Roots.dfy` cover planned paths and the configuration check the proofs rest on.
* **Outbox.** `Cleanup.dfy` joins the two: no file moves before its job's messages are in the broker's log.
  `Gate.dfy` follows committed rows through any interleaving of ledger operations, drains and
  crashes. `Publisher.dfy` has the publish budget, and `Drain.dfy` the drain thread.
* **Cells.** `Cells.dfy` is the pipe handle and the pairing of replies with requests. `Supervisor.dfy` is the
  restart budget.
* **Decisions.** `Decision.dfy` is the short-circuit rule evaluator.

`Sums.dfy` and `Ordering.dfy` hold the arithmetic and ordering facts these share.

Values that come from outside are parameters, or are left arbitrary where they arise: clocks, jitter,
device readings, what a child answers and when it dies, what a copy writes, what a JSONPath matches, what other
threads do between two steps. The step an object takes with other threads around it is one ledger transaction,
one file operation, or one request to a cell.

Some properties turned out to need a condition, and each has a lemma saying exactly when it holds:

* an installation keeps what was at its source exactly when the file is not already where it would settle
  (`Crashes.SelfTargetDestroys`); accepted configurations never plan that, for the target or a suffixed one (`Roots.TargetIsNotSource`);
* a copy cut short by a crash is repaired exactly when it was whole: under `fail` a torn one blocks every later run
  (`Crashes.TornCopyCollides`), under `suffix` it stays and the file goes aside (`Crashes.TornCopyIsLeft`);
* a member installed again is reported in the same place exactly when its target did not hold other content
  (`Crashes.MovedAsideIsMisreported`);
* a deletion can be resumed wherever it stops exactly when the source is not among its own members
  (`Crashes.SelfMemberDiverges`);
* a submission keeps the scheduler clean exactly when its job is not past its claim, or is the ledger's own row
  and held by nobody (`Queues.CleanExactly`); after any other one a failed load can lower durable attempts
  (`Bystanders.StaleCopyLowersAttempts`);
* clearing a request from the flight is safe exactly when the handle is broken or its pipe is empty
  (`Cells.ClearsSafely`, over whole runs `Cells.SoundExactly`), and anything else is misread by the next call
  (`Cells.HarmfulClearMisreads`); a held reply stays the answer to the latest request exactly when the cell is not
  stopped, restarted or sent the next request (`Cells.PairingBreaksExactly`). So a recycle mispairs answers when it
  lands between a read and its return (`Cells.RecycleInTheGap`), or between marking the handle broken and dropping
  the request (`Cells.RecycleInTheFailure`), and any new handle can come to either;
* counting a failure overdraws the publish budget exactly when it is the last allowed one
  (`Publishing.FailureOverdraws`), and giving the job up afterwards is right exactly when the counted row is still
  in the outbox or the job is no longer waiting for publication (`Publishing.ExhaustionIsJust`); a re-inference and
  a new commit in between make it wrong (`Publishing.RecommitIsGivenUp`);
* every job being published keeps a row to publish until an operation reopens the publication of a job that has
  none (`LedgerEffects.StrandsExactly`), which a retry does after a late confirmation (`LedgerEffects.RetryOfNothing`);
* a completion is planned for every job whose intent can be stored, and for one whose publication was given up,
  whose intent never can (`Planning.PlansWhatIsRecordable`);
* a bare transition into a result or past publication keeps results and confirmations in place exactly when the
  ledger refuses it, or every gating row is confirmed (`LedgerRuns.BareCommitLeavesNoResult`);
* every request covers a model's estimate exactly when neither memory factor is below one
  (`Residency.FactorsCoverExactly`);
* folding a path undoes a step down exactly when it is not the first component (`Roots.UpUndoesDown`), and an
  output falls back into its own root exactly as `Roots.FedBackExactly` says, in accepted configurations too
  (`Roots.FedBackHappens`).

One documented behaviour differs from the code, and the model follows the code: `complete_cleanup` is said to
refuse a job without an open intent. It accepts one exactly when the job's input was invalid or its processing was
exhausted (`LedgerRuns.CompletesWithoutIntent`), and such a job is easily come by
(`LedgerRuns.InvalidInputNeedsNoIntent`).

## Model

| member | source | states |
|---|---|---|
| LedgerStore.Ledger.Admit | image_processor/ledger/ledger.py:234-301 | a job and its reservation appear together, only within the budget; a known job or a full budget admits nothing |
| LedgerStore.Ledger.SetState | image_processor/ledger/ledger.py:333-380 | compare-and-set: refused for another state or an undeclared edge, leaving the database as it was; a terminal state drops the reservation |
| LedgerStore.Ledger.InsertOutbox | image_processor/ledger/ledger.py:524-538 | rows are inserted in publication order under fresh row ids |
| LedgerStore.Ledger.CommitResult | image_processor/ledger/ledger.py:540-598 | result, sidecar, rows and the edge to publication commit together, or nothing does |
| LedgerStore.Ledger.PendingOutbox | image_processor/ledger/ledger.py:623-642 | eligible rows in insertion order, at most the limit; a row that is missing comes after all that are listed, and only because the list is full |
| LedgerStore.Ledger.MarkPublished | image_processor/ledger/ledger.py:644-684 | one row confirmed; the job is published exactly when its last gating row is |
| LedgerStore.Ledger.MarkPublishAttempt | image_processor/ledger/ledger.py:686-706 | counts a failure of an unpublished row, refuses any other row |
| LedgerStore.Ledger.RetryPublication | image_processor/ledger/ledger.py:726-753 | resumes an exhausted job with its unpublished rows' failures cleared |
| LedgerStore.Ledger.RecordCleanupIntent | image_processor/ledger/ledger.py:757-819 | stores the intent with the edge it needs; a refused state stores nothing |
| LedgerStore.Ledger.CompleteCleanup | image_processor/ledger/ledger.py:837-872 | takes the completing edge of the job's state, or refuses |
| LedgerStore.Ledger.FailCleanup | image_processor/ledger/ledger.py:874-908 | records the failure and leaves the job retryable |
| LedgerStore.Ledger.RequeueForReinference | image_processor/ledger/ledger.py:993-1030 | drops result, sidecar and rows together, from the two invalidatable states only |
| LedgerStore.Ledger.RequeueBlocked | image_processor/ledger/ledger.py:1032-1077 | moves and counts exactly the blocked jobs asked for |
| LedgerStore.Ledger.Recover | image_processor/ledger/ledger.py:1115-1183 | restarts exactly the mid-flight and overdue jobs; the report counts them edge by edge, and lists open intents, pending publications and sidecar bindings in order |
| LedgerStore.CountTransitions | image_processor/ledger/recovery.py:141-169 | the edge counts of the applied moves |
| LedgerFacts.PlanIsComplete | image_processor/ledger/recovery.py:118-138 | the plan moves every job a restart moves, once, and counts them by edge |
| LedgerRuns.RunKeeps | image_processor/ledger/ledger.py:234-301 | over any run of operations: reservations stay within the budget, exactly admitted unfinished jobs hold one, rows and results belong to jobs at or past a commit; without bare commit edges every such job has its bytes and every published one its confirmations |
| LedgerRuns.BareCommitLeavesNoResult | image_processor/ledger/ledger.py:382-403 | a bare commit or publication edge breaks the last part exactly when it is accepted and commits no result, or leaves a gating row unconfirmed |
| LedgerRuns.CompletesWithoutIntent | image_processor/ledger/ledger.py:837-872 | after any run that enters cleanup by intents, a job with no open intent is completed exactly from its two direct states |
| LedgerRuns.InvalidInputNeedsNoIntent | image_processor/ledger/ledger.py:837-872 | an invalid input is completed with no intent stored |
| LedgerRuns.TerminalIsFinal | image_processor/ledger/schema.py:36-73 | a terminal job keeps its state and result whatever runs after it |
| LedgerRuns.RecoverySound | image_processor/ledger/recovery.py:37-64 | after recovery no job is mid-flight or overdue, a retry that is not due stays, only declared backward edges are taken, nothing else changes, and a second pass moves nothing |
| LedgerEffects.AdmissionStores | image_processor/ledger/ledger.py:234-301 | admitted exactly when new, at a starting state and within the budget; then just that reservation is held and the total grows by it |
| LedgerEffects.TransitionMoves | image_processor/ledger/ledger.py:333-403 | granted exactly from the expected state along a declared edge or none; moves one job, writes the columns it carries, and frees the reservation of a finished job |
| LedgerEffects.CommitPublishes | image_processor/ledger/ledger.py:540-598 | exactly an inferring job commits: its result is stored, its rows are added in order, unpublished and never tried, and it goes on to publication exactly when there are rows |
| LedgerEffects.ReinferenceForgets | image_processor/ledger/ledger.py:993-1030 | exactly the two invalidatable states are requeued, and nothing of the result is left |
| LedgerEffects.ConfirmationPublishes | image_processor/ledger/ledger.py:644-684 | a confirmed row's job is published afterwards exactly when it was before, or waited for publication with every other gating row published; every other row and job stays |
| LedgerEffects.RetryReopens | image_processor/ledger/ledger.py:726-753 | exactly an exhausted job is reopened, with fresh counters on exactly its unconfirmed rows |
| LedgerEffects.StrandsExactly | image_processor/ledger/ledger.py:623-753 | every job being published keeps an unconfirmed row, unless the operation reopens the publication of a job that has none |
| LedgerEffects.RunStrandsNone | image_processor/ledger/ledger.py:623-753 | the same over any run |
| LedgerEffects.RetryOfNothing | image_processor/ledger/ledger.py:726-753 | a publication given up, confirmed late and retried waits with no row that is ever offered |
| LedgerRuns.CountsCoverMoves | image_processor/ledger/recovery.py:78-108 | the reported edge counts add up to the jobs moved |
| LedgerStore.Ledger.ByState | image_processor/ledger/ledger.py:428-475 | one page of the matching jobs, oldest first, and a cursor exactly when more remain |
| Paging.PagingIsExact | image_processor/ledger/ledger.py:428-475 | following cursors yields every matching job once, in order, for every page size and with equal timestamps |
| Queues.OneFlightPerJob | image_processor/engine/scheduler.py:380-430 | no job is ever in flight twice |
| Queues.AskGood | image_processor/engine/scheduler.py:380-406 | an edge asked for from where the entry stands keeps conservation, exclusivity and attempt budget; an owner is never refused |
| Queues.TimersComeDue | image_processor/engine/scheduler.py:450-472 | exactly the timers whose time is past come due, and exactly the others stay |
| Scheduling.OwnEdgesAreLegal | image_processor/ledger/schema.py:36-60 | every edge the scheduler asks for is declared |
| Bystanders.BystandersMay | image_processor/ledger/ledger.py:540-1077 | every other ledger operation, off the jobs live entries hold, is one the scheduler's invariant survives |
| Queues.CleanExactly | image_processor/engine/scheduler.py:266-299 | submitting keeps every held copy current and unique exactly when the job is not past its claim, or is the ledger's row and unheld |
| Bystanders.StaleCopyLowersAttempts | image_processor/engine/scheduler.py:474-499 | a copy submitted as waiting for a model, taken in and failing its load, lowers the durable attempts exactly when it counts fewer; every step keeps the invariant |
| Scheduling.Scheduler.Submit | image_processor/engine/scheduler.py:266-299 | a schedulable job joins the inbox, any other state is refused and changes nothing |
| Scheduling.Scheduler.DrainInbox | image_processor/engine/scheduler.py:301-323 | the whole inbox is taken in, and no entry is lost or doubled |
| Scheduling.Scheduler.Shelve | image_processor/engine/scheduler.py:301-338 | an arrival goes to the back of its digest's lane, or to its retry timer |
| Scheduling.Scheduler.PromoteRetries | image_processor/engine/scheduler.py:450-472 | exactly the due timers are taken, each entry requeued, or dropped on a refusal of the ledger, attempts kept |
| Scheduling.Scheduler.Transition | image_processor/engine/scheduler.py:380-406 | the queued copy follows the ledger; a refusal changes neither, is noted, and says the row is in another state; an inferring or owning entry is never refused |
| Scheduling.Scheduler.Claim | image_processor/engine/scheduler.py:408-430 | advances a job to WAITING_MODEL through the edges it owes, keeping its attempts |
| Scheduling.Scheduler.Backoff | image_processor/engine/scheduler.py:432-448 | the delay lies between half and all of the doubled, capped backoff |
| Scheduling.Scheduler.DelayDoubles | image_processor/engine/scheduler.py:432-448 | the first delay is the configured one, each later one twice the one before, up to the ceiling |
| Scheduling.Scheduler.RetryLater | image_processor/engine/scheduler.py:474-499 | the job waits on one new timer with its own count, or with exactly one attempt more; timer and row agree on a due time after the given delay or the attempt's backoff |
| Scheduling.Scheduler.Exhaust | image_processor/engine/scheduler.py:501-522 | an inferring job always reaches PROCESSING_EXHAUSTED with the given count |
| Scheduling.Scheduler.Block | image_processor/engine/scheduler.py:524-546 | the verdict its state allows: blocked when waiting, exhausted when inferring |
| Scheduling.Scheduler.BlockLane | image_processor/engine/scheduler.py:887-902 | empties one lane with the same verdict, touching no other lane and no attempt count |
| Scheduling.Scheduler.BackOffLane | image_processor/engine/scheduler.py:950-961 | the head job and the lane wait one backoff, at the same attempt |
| Scheduling.Scheduler.LoadFailed | image_processor/engine/scheduler.py:1099-1141 | a poisoned cell is recycled with the job still queued, a permanent failure blocks the lane, a transient one takes the head off it and backs it off; no attempt is spent |
| Scheduling.Scheduler.LoadInto | image_processor/engine/scheduler.py:1030-1097 | a successful load leases the session for a burst of the whole lane and clears its backoff; after a failed one the lane is shut, backed off, or the job alone set aside |
| Scheduling.Scheduler.EnsureResident | image_processor/engine/scheduler.py:904-983 | resident, blocked, backed-off and out-of-loads lanes each end as the code says; a lane is deferred only for that or for want of room; a job it finishes with has left a lane that is shut, backed off, or lost just that job, which then waits at the same attempt |
| Scheduling.Scheduler.RankedLanes | image_processor/engine/scheduler.py:1143-1173 | the lanes with work sorted by tier, weighted age and digest |
| Scheduling.PreferredFirst | image_processor/engine/scheduler.py:1143-1173 | no lane is tried twice, and none before a preferred one unless it is one; preferred is the lane whose model is held, or whose head is as old as the hot window |
| Scheduling.UrgentFirst | image_processor/engine/scheduler.py:1143-1173 | within a tier, the lane with the larger age times best priority comes first, then the smaller digest |
| Scheduling.HighestIsBest | image_processor/engine/scheduler.py:127-131 | the lane's priority is that of one waiting entry and no other is better |
| Scheduling.BacklogOf | image_processor/engine/scheduler.py:634-672 | what is counted behind a model is its own lane: depth, best priority, unfinished burst |
| Scheduling.Scheduler.TryLane | image_processor/engine/scheduler.py:1238-1271 | a dispatched job was the lane's head and goes to a cell recorded to hold its digest; a lost cell leaves it at the head and is emptied; in clean runs a lane whose model is held and whose head is past its claim is not passed over |
| Scheduling.Scheduler.ServeFirst | image_processor/engine/scheduler.py:1237-1273 | lanes are tried in order, each still as it was; at most one job is sent, the head of its lane, and the lanes after it are left alone |
| Scheduling.Scheduler.DispatchOne | image_processor/engine/scheduler.py:1222-1273 | in clean runs a cell not read yet in the pass, that holds the model of every waiting lane, with every head past its claim, is sent a job or lost |
| Scheduling.Scheduler.Apply | image_processor/engine/scheduler.py:1299-1347 | success is delivered; poison requeues at the front; a permanent failure exhausts; a transient one stores exactly one attempt more and retries, or exhausts at the last, duplicates or not |
| Scheduling.Scheduler.Collect | image_processor/engine/scheduler.py:1275-1297 | the reply decides what becomes of the job: success and permanent failure hand it on, a transient failure costs one attempt and puts it on a timer or ends it with the last, anything else puts it back at the front of its lane; nothing else moves |
| Scheduling.Scheduler.CollectAll | image_processor/engine/scheduler.py:1194-1220 | once all replies are in, every dispatched job is where its own reply sends it, and exactly the transient failures cost an attempt |
| Scheduling.Scheduler.RunOnce | image_processor/engine/scheduler.py:1194-1220 | every live cell was offered work; every job sent is where its reply sends it; every entry is in one place, none left without a refusal, a success or a verdict; device budgets hold, no device got more loads than configured; in clean runs exactly the transient failures cost an attempt |
| Scheduling.Scheduler.RunForever | image_processor/engine/scheduler.py:1351-1369 | the same over any number of passes, with any number of submissions, other ledger users and other cell users in between |
| Executors.CellBank.Memory | image_processor/engine/scheduler.py:712-745 | after a reading, every record of the cell is a session it holds |
| Executors.CellBank.DropStale | image_processor/engine/scheduler.py:737-744 | exactly the records of sessions the cell does not hold are dropped |
| Executors.CellBank.Release | image_processor/engine/scheduler.py:747-786 | the record goes, the reading grows by what came back, and a cell is stuck exactly when too little of what the session took did |
| Executors.StuckBelow | image_processor/engine/scheduler.py:770-786 | too little is a threshold: less is stuck if more is, everything is not, nothing is for a positive ratio |
| Executors.CellBank.DeviceResidentMib | image_processor/engine/scheduler.py:594-612 | the footprints of every cell of the device |
| Executors.DeviceChange | image_processor/engine/scheduler.py:594-612 | one cell's records move its device's total by exactly their difference |
| Executors.CellBank.Admit | image_processor/engine/scheduler.py:985-1004 | an admitted model, beside everything resident on its device, stays within the configured percentage of the device's real size |
| Executors.CellBank.EvictFor | image_processor/engine/scheduler.py:1006-1028 | the records are brought up to date and priced, and the shortest cheapest-first prefix that covers the need is evicted, no leased session; the device's total falls by what was recorded of it |
| Executors.CellBank.MakeRoom | image_processor/engine/scheduler.py:969-983 | a first refusal for want of room evicts the cheapest cover of its shortfall, and the answer is that of the device as it then stands: admitted when the evictions return what was recorded |
| Executors.CellBank.Remember | image_processor/engine/scheduler.py:1073-1084 | the new record keeps an honest device inside its budget |
| Executors.CellBank.Send | image_processor/engine/scheduler.py:1252-1262 | a job goes out only to a cell recorded to hold its model |
| Executors.CellBank.Receive | image_processor/engine/cell_main.py:1141-1176 | a busy cell's answer is never MODEL_NOT_RESIDENT |
| Executors.LoadsBounded | image_processor/engine/scheduler.py:936-938 | loads sent to a device in a pass never exceed the configured concurrency |
| CellMain.CellState.HandleLoad | image_processor/engine/cell_main.py:955-1070 | loaded exactly when resident already or built; a resident digest is answered as it stands, no other session changes, and the first load establishes the context once |
| CellMain.CellState.HandleUnload | image_processor/engine/cell_main.py:1278-1317 | drops one session and reports what it held |
| CellMain.CellState.HandleInfer | image_processor/engine/cell_main.py:1141-1261 | answers MODEL_NOT_RESIDENT exactly for a digest that is not resident, and never changes which are |
| Executors.CellBank.TakeReading | image_processor/engine/cell_main.py:1320-1343 | after a cell's own report, its records are exactly those it listed, and its context is what it reported |
| Residency.RequiredCoversEstimate | image_processor/engine/residency.py:497-516 | with factors of at least one, a request covers the estimate and the measured peak |
| Residency.FactorsCoverExactly | image_processor/engine/residency.py:497-516 | every request covers its estimate and its measured peak exactly when neither factor is below one |
| Residency.RequiredIsLeast | image_processor/engine/residency.py:497-516 | a request is the least that covers the larger of estimate and peak times the activation factor, times the growth once for every failure |
| Residency.AdmittedFits | image_processor/engine/residency.py:518-576 | what is admitted, with what is resident, is within the configured percentage of the device, and within the free memory |
| Residency.BudgetIsTheShare | image_processor/engine/residency.py:562-564 | the budget is the configured percentage of the device in whole MiB |
| Residency.AdmissionExactly | image_processor/engine/residency.py:555-576 | over budget exactly when the request and the contexts exceed the percentage of the whole device; otherwise admitted exactly when it fits what is left; the shortfall is the least that must go |
| Residency.SecondAdmission | image_processor/engine/residency.py:518-576 | once the named shortfall is returned, the same request is admitted |
| Residency.TakeCheapest | image_processor/engine/residency.py:641-678 | the shortest prefix in (value per MiB, last use, digest) order that covers the need, or everything |
| Residency.CoverIsUnique | image_processor/engine/residency.py:641-678 | those rules leave only one eviction list |
| Residency.WorthMore | image_processor/engine/residency.py:580-611 | each term of a session's value raises it exactly when its weight is positive |
| Residency.Policy.PricedLower | image_processor/engine/residency.py:613-622 | of two sessions that take the same the one worth less is priced lower, of two worth the same the larger |
| Residency.Policy.Victims | image_processor/engine/residency.py:641-678 | only sessions neither leased nor inside their minimum residency are chosen, cheapest first, and none when nothing is needed |
| Residency.Policy.RecordLoad | image_processor/engine/residency.py:439-450 | the measured peak never shrinks |
| Installing.SuffixedDiffers | image_processor/completion/actions.py:227-241 | a suffixed target is another path in the same directory |
| Installing.SuffixedTellsApart | image_processor/completion/actions.py:227-241 | a suffixed name keeps stem and extension, and digests that begin differently never share one |
| Installing.InstallsAtGoal | image_processor/completion/actions.py:477-547 | under `suffix` a file settles at its target or at the suffixed one, exactly as it would under `fail` there |
| Installing.Settled | image_processor/completion/actions.py:477-547 | a successful installation leaves nothing at the source and the reported content at the reported path |
| Installing.InstallsOnce | image_processor/completion/actions.py:518-547 | installing again at any later moment changes nothing |
| Installing.InstallResumes | image_processor/completion/actions.py:477-547 | installing again from any state a crash leaves ends where the first run would have |
| Installing.InstallShelters | image_processor/completion/actions.py:477-547 | at every step, torn and corrupt copies included, the source's content is whole somewhere |
| Crashes.BundleResumes | image_processor/completion/actions.py:444-475 | wherever a bundle move stops, running it again ends with the same verdict and files; under `suffix` only the manifest may differ |
| Crashes.NoEvidenceLoss | image_processor/completion/actions.py:444-547 | at every step image and members are whole at source, target or suffixed target, and an occupied target is untouched |
| Crashes.EvidenceSurvives | image_processor/completion/actions.py:329-395 | the same over any chain of interrupted runs on any machines, from the moment the intent was stored |
| Crashes.SelfTargetDestroys | image_processor/completion/actions.py:535-540 | what was at the source stays whole exactly when the source is not where the file would settle; otherwise it is deleted |
| Crashes.TornCopyCollides | image_processor/completion/actions.py:500-547 | under `fail` an interrupted copy is resumed exactly when it was whole; a torn one blocks every later run |
| Crashes.TornCopyIsLeft | image_processor/completion/actions.py:500-547 | under `suffix` the file lands at its target exactly when the copy was whole; a torn one stays there and the file goes to the suffixed target |
| Crashes.MovedAsideIsMisreported | image_processor/completion/actions.py:535-547 | a member installed again is reported in the same place exactly when its target did not hold other content |
| Crashes.DeletesSourceLast | image_processor/completion/actions.py:418-427 | only a source with the recorded digest is deleted, last, and nothing but it and its members |
| Crashes.DeleteResumes | image_processor/completion/actions.py:418-427 | wherever a deletion stops, running it again ends the same |
| Crashes.SelfMemberDiverges | image_processor/completion/actions.py:418-427 | a deletion can be resumed at every step exactly when the source is not among its members |
| Execution.CrashesConverge | image_processor/completion/actions.py:329-427 | after any chain of interrupted executions, a complete one ends with the files and verdict the first would have had |
| Outcomes.BundleEnds | image_processor/completion/actions.py:444-475 | a move that succeeds leaves nothing at the sources, the recorded content at the image's place and each member's at its own, the error record exactly for a quarantine, the manifest of what is listed exactly for more than one file, and every other path as it was |
| Outcomes.ManifestComesLast | image_processor/completion/actions.py:466-475 | a manifest appears or changes only in the last step of a move that succeeds |
| Outcomes.UnobstructedMoves | image_processor/completion/actions.py:444-516 | with the recorded object at its source and every target free, the move succeeds |
| Outcomes.DeletesExactly | image_processor/completion/actions.py:418-427 | a deletion succeeds exactly when the source is gone, or recorded and not its own member; then it, its members and nothing else are gone |
| Outcomes.PlacesBeside | image_processor/completion/actions.py:661-688 | a companion keeps its place under the image's directory, one from elsewhere goes beside it, as the records do |
| Outcomes.ExecutesAs | image_processor/completion/actions.py:400-475 | every execution comes to that: by its action, its verdict and the files before and after |
| Completion.IntentIsStored | image_processor/completion/actions.py:345-346 | the intent is durable, and its job open to a verdict, before anything moves |
| Completion.OnlySuccessIsTerminal | image_processor/completion/actions.py:346-354 | success and nothing else ends in a terminal state |
| Completion.FailureIsRetryable | image_processor/completion/actions.py:356-395 | a failed execution can always be recorded and tried again |
| Completion.ReconcileConverges | image_processor/completion/actions.py:329-395 | after any chain of runs cut short, before or after the intent was stored and at any file step, a reconciliation ends with the jobs and files of an uninterrupted apply |
| Completion.Completer.Install | image_processor/completion/actions.py:477-516 | takes exactly the modelled file steps |
| Completion.Completer.MoveBundle | image_processor/completion/actions.py:444-475 | image first, members in order, error record, manifest last, stopping at the first failure |
| Completion.Completer.Apply | image_processor/completion/actions.py:329-354 | the intent is journalled before the first file step and the verdict after the last; the files end as the action says; a refused intent moves nothing |
| Completion.Completer.Reconcile | image_processor/completion/actions.py:356-395 | a settled job's files are not touched; any other intent is stored again, executed and judged, in that order, and the files end as the action says |
| Planning.SafeRelative | image_processor/completion/actions.py:204-224 | an accepted path is non-empty and no part of it climbs, stays or separates |
| Planning.PlanKeepsSubtree | image_processor/completion/actions.py:287-325 | source and target lie strictly inside their directories under the same subtree, equal exactly when the directories are |
| Planning.PlanFollowsPolicy | image_processor/completion/actions.py:287-325 | the action is the one configured for how the job ended, and only an archive or a quarantine has a target, in its own directory |
| Planning.PlansWhatIsRecordable | image_processor/completion/actions.py:617-638 | a completion is planned exactly for the states an intent can be stored in, and for a publication given up, whose intent is refused |
| Planning.OutsideIsClear | image_processor/completion/actions.py:661-688 | bundle files outside the output directory, none named like a record, meet the convergence proofs' hypothesis |
| Roots.Tokens | image_processor/config/validate.py:126-146 | folds upward steps out of a path |
| Roots.FoldingIsDone | image_processor/config/validate.py:126-146 | no upward step is left below the first component |
| Roots.UpUndoesDown | image_processor/config/validate.py:126-146 | an upward step undoes the step before it exactly when that is not the first component |
| Roots.CheckRoots | image_processor/config/validate.py:293-321 | refuses overlapping mutating roots, then outputs inside one; accepts exactly the rest |
| Roots.OneOwner | image_processor/config/validate.py:293-306 | no path lies under two mutating roots |
| Roots.TargetIsNotSource | image_processor/config/models.py:626-671 | an accepted route's planned source is neither its planned target nor a suffixed one |
| Roots.FedBackHappens | image_processor/config/validate.py:307-321 | an accepted configuration with a target inside its own root |
| Roots.FedBackExactly | image_processor/config/validate.py:307-321 | a target falls back into its own root exactly when the root lies inside the output directory on the input's own way |
| Gate.RunsAreSane | image_processor/outputs/publisher.py:153-192 | over every interleaving of operations, drains and crashes, published rows are in the broker's log with their committed bytes |
| Gate.GatingIsInTheLog | image_processor/ledger/ledger.py:644-684 | a job past publication has every gating message of its commit in the log |
| Gate.NoCleanupBeforeConfirmation | image_processor/completion/actions.py:345-354 | no intent of a published job is stored before that |
| Cleanup.Cleaner.Apply | image_processor/completion/actions.py:329-354 | no file step is taken for a job that publishes before the broker's log holds every gating message of its commit; when the intent is stored, the files end as its action says and the job is settled exactly on success; the gate survives |
| Cleanup.Cleaner.Reconcile | image_processor/completion/actions.py:356-395 | the same for what a crash left |
| Gate.SameBytes | image_processor/ledger/ledger.py:524-538 | every publication of a row carries the same bytes |
| Publishing.FailureOverdraws | image_processor/outputs/publisher.py:194-205 | a counted failure puts just its job astray, exactly when it is the last allowed one |
| Publishing.ExhaustionIsJust | image_processor/outputs/publisher.py:194-219 | over whatever others do after the count, giving the job up keeps the budget exactly when the counted row is still there or the job left publication |
| Publishing.RecommitIsGivenUp | image_processor/outputs/publisher.py:194-219 | a re-inference and a new commit in between end with a job given up although its new row never failed |
| Publishing.BesideStep | image_processor/ledger/ledger.py:540-1077 | other ledger operations keep the gate, the budget and what a drain holds |
| Draining.Act | image_processor/ledger/ledger.py:234-1183 | the ledger's methods are the operations the runs are made of |
| Draining.Publisher.constructor | image_processor/outputs/publisher.py:66-99 | a drain takes up any outbox for which the gate holds, counting just the jobs astray |
| Draining.Publisher.RecordFailure | image_processor/outputs/publisher.py:194-219 | a job is exhausted only for a row that reached the limit; unjustly exactly when that row is gone, and otherwise an overdrawn job is settled |
| Draining.Publisher.Confirm | image_processor/outputs/publisher.py:178-192 | a row that is still there is confirmed, and its job is published exactly when it was, or waited for nothing but this row |
| Draining.Publisher.Attempt | image_processor/outputs/publisher.py:169-192 | one row is offered with its committed bytes, and confirmed only when the broker accepted it, its job published if it waited for nothing else; a row with no failure left is confirmed, gone, or its job given up |
| Draining.Publisher.DrainOnce | image_processor/outputs/publisher.py:153-167 | the batch is the first eligible rows as they stood; they are attempted in that order, each after every earlier one was confirmed |
| Cells.LateRepliesAreNeverReturned | image_processor/engine/cell.py:302-354 | in every run without a stop or restart while a thread has yet to clear the flight, whatever a receive returns is the current child's reply to the latest request |
| Cells.SoundExactly | image_processor/engine/cell.py:302-354 | over any run, the pipe holds at most the latest request's answer throughout exactly when no flight is cleared under another request |
| Cells.ReadsTheLatest | image_processor/engine/cell.py:327-335 | while that is so, what is read is the current child's reply to the latest request |
| Cells.HarmfulClearMisreads | image_processor/engine/cell.py:327-354 | after any other clearing the next call reads an earlier request's answer |
| Cells.PairingBreaksExactly | image_processor/engine/cell.py:302-354 | over any run, a held reply is still that at the end exactly when nothing stopped the cell, restarted it or sent the next request |
| Cells.MidReturnIsReached | image_processor/engine/cell.py:302-354 | a new handle can come to hold a reply that is not returned yet |
| Cells.RecycleInTheGap | image_processor/engine/cell.py:327-335 | a recycle between read and return does mispair |
| Cells.MidFailureIsReached | image_processor/engine/cell.py:346-354 | a new handle can come to be recycled between the two halves of a failure |
| Cells.RecycleInTheFailure | image_processor/engine/cell.py:346-354 | dropping the request then does mispair, though no thread held a reply |
| Cells.ExecutorCell.Send | image_processor/engine/cell.py:270-300 | one request in flight at most, none to a broken or dead cell |
| Cells.ExecutorCell.Receive | image_processor/engine/cell.py:302-354 | a reply read and returned in one step answers the latest request, on the pipe found on entry |
| Cells.ExecutorCell.Start | image_processor/engine/cell.py:175-213 | a fresh pipe with nothing in flight, or nothing at all when already running |
| Cells.ExecutorCell.Stop | image_processor/engine/cell.py:215-248 | the pipe is closed and nothing is in flight |
| Supervision.Supervisor.Prune | image_processor/engine/supervisor.py:275-285 | only restarts that left the window are forgotten |
| Supervision.Supervisor.RestartsRemaining | image_processor/engine/supervisor.py:263-273 | the budget less all restarts in the window that ends now |
| Supervision.Supervisor.Recycle | image_processor/engine/supervisor.py:287-336 | out of budget exactly when the window that ends now holds as many restarts as allowed: then left down and marked, otherwise restarted |
| Supervision.NoWindowIsCrowded | image_processor/engine/supervisor.py:287-336 | spread-out starts never exceed the budget in any closed interval of the window's length |
| Supervision.Supervisor.WindowHolds | image_processor/engine/supervisor.py:263-336 | so it is for every cell over the whole run |
| Supervision.Supervisor.Check | image_processor/engine/supervisor.py:338-356 | afterwards every cell is alive or out of budget, and no live cell was touched |
| Supervision.Supervisor.Healthy | image_processor/engine/supervisor.py:250-261 | healthy exactly when started, non-empty, within budget and all alive |
| Decisions.StoppingEarlyIsRight | image_processor/engine/decision.py:200-280 | whenever evaluation returns, its answer is the rule's classical value whatever the skipped or unevaluable parts say |
| Decisions.ComparesAsClaimed | image_processor/engine/decision.py:164-197 | a comparison answers what it claims, and nothing exactly for an ordering of something that is not a number |
| Decisions.ClaimsAreTheOrders | image_processor/engine/decision.py:164-197 | between numbers the orderings are those of the reals; `==` and `!=` are complementary |
| Decisions.GroupsMean | image_processor/engine/decision.py:247-280 | `all` means every child, else `any` at least one |
| Decisions.ActualAgrees | image_processor/engine/decision.py:200-280 | what the comparisons claim of the document, evaluated or not, is one of the assignments that holds for |
| Decisions.HeldExactly | image_processor/engine/decision.py:200-280 | a rule is held exactly at the first broken part that is reached, and judged exactly when none is |
| Decisions.BrokenLeafExactly | image_processor/engine/decision.py:200-245 | a leaf has no answer exactly for an unknown comparison, an unusable path, nothing found, no number, or a first incomparable match |
| Decisions.SoundRulesAreJudged | image_processor/engine/decision.py:247-280 | a rule with no broken part is never held |
| Decisions.ClearIsEarned | image_processor/engine/decision.py:353-395 | CLEAR only when the pass rule is true of the document: of every leaf, what it claims |
| Decisions.BrokenRulesHold | image_processor/engine/decision.py:353-395 | every rule set that is badly configured or reaches a broken part, and no other, yields HOLD with nothing else reported; any other is judged by its classical value |
| Decisions.UsableRulesDecide | image_processor/engine/decision.py:353-395 | any other rule set decides by what its pass rule actually is: the outcome configured for that, or the usual one, and the configured numbers |

## Left out

- Scheduling.Scheduler.ServeFirst: does not say that the lanes tried before the one served could not be served, because whether a load succeeds is left arbitrary.
- Scheduling.Scheduler.RunForever: submissions land between passes; during a pass they would only lengthen the inbox.
- Scheduling.Scheduler.RunOnce: the error a cell handle raises about a request that is already in flight, or not in flight at all, would end a pass; here a cell answers or is recycled.
- LedgerStore.Ledger.InsertOutbox: every committed row starts with no failed attempt and no error; the code stores what the caller's row says, and its callers say that.
- Crashes.BundleResumes: takes a copy as one faithful step; Crashes.TornCopyCollides says what a torn one does.
- Cells.ExecutorCell.Receive: reads a reply and clears the flight in one step, as its Fail marks the handle broken and drops the request in one; all four are separate steps in the scene of any number of threads.
- Roots.Tokens: the case-folding of Windows paths.
- Timestamps, labels and free text: the update times of rows, the times in manifests and error records, rendered rule labels, log and error messages.
- Columns that nothing here reads: the staged path, the configuration generation, route generations and the key-value table.
- The text form of paging cursors, and malformed ones; negative query limits.
- Threads, locks, SQLite, WAL and fsync: each ledger operation and each file operation is one atomic step.
- Directories and special files: a path holds a file or nothing; creating directories changes no file.
- File-system errors other than a missing file or another file system: a run they end is a run interrupted there.
- The operator's evict, lane reset and status verbs, and the engine's counters and metrics.
- Session building, warmup, decoding and inference: their outcomes are arbitrary, as is the error class.
- Answers of the wrong kind to a statistics or unload request.
- JSONPath matching, not-a-number and infinite floats, and integers too large for a float.
- Publication on the failure path, which does not gate cleanup.
- The restart of retry-waiting jobs that were not due at startup, and of published jobs with no intent: safety only, not completion.
