# PlateVault cores: a Dafny model

PlateVault keeps an astrophotographer's library: it scans folders of frames,
groups them into sessions, measures them, plans nights, matches calibration and
builds a Project's View. This project models the parts of it that hold state,
race with something or promise something about every input, and proves what
they promise.

`dafny verify dfyconfig.toml` checks everything.

## How it is laid out

| files | what they model |
|---|---|
| `ApplySwap`, `ApplyReads`, `ApplyMoved`, `ApplyInputs`, `ApplyPhases`, `ApplyRun` | Apply: a new View built beside the old one and swapped in by two no-replace renames, each paired with a journal write, through crashes, failed renames, waits for a tool and edits of the catalog |
| `KeptNames`, `KeptMoves` | moving the files a user kept out of the replaced View, while others add to and take from the folders |
| `MeasurementRun`, `MeasurementMeaning`, `MeasurementEnds`, `FrameReview` | the measurement run: workers sharing one queue under a lock, with two flags outside it |
| `EventLog`, `EventMeaning`, `StalePropagator` | a durable event table, a lossy broadcast channel and a subscriber that replays by pages |
| `InventoryWalk`, `OutsideReads` | the inventory scan, the lookup of one entry and the listing of all frames, over a file system that changes under them, links swapped in included |
| `CivilDate`, `EventCutoff` | the civil date of a day count, and the stamps the pruner compares as text |
| `CaptureKey`, `CaptureDerivation`, `CaptureMeaning`, `CaptureGroups` | the capture key, deriving it from metadata, and grouping frames by it |
| `NightSearch` | grading goals for a night and finding the next night that suits one |
| `CalibrationChecks`, `CalibrationMeaning`, `SessionRanking`, `OfferMeaning` | the hard checks of one calibration input, and the ranked offers of a session |
| `SafeFilename`, `PathTemplates`, `TemplateResolver`, `TemplatePaths` | the filename sanitizer, the two scans of a destination template and its rendering |
| `EntryNames`, `NameMeaning` | bounded, distinct names for the entries of a View, and what every made name looks like |
| `CalendarText`, `CalendarMeaning` | iCalendar folding and escaping, reading them back, and what each line says |
| `Text`, `Sequences`, `Ordering`, `Wrappers` | text, sequence and ordering facts the others share |

Two shapes recur. A protocol is a **step machine**: a state holds everything a
crash or another thread could see, each rename, journal write, lock section or
flag access is one step, and theorems hold of every state of every run. A class
then carries the fields the program updates; its methods follow the program
statement by statement and take only steps of that machine, recorded in a ghost
trace or named in their contracts, so what its steps keep holds of them. An **algorithm** is
a method with the program's loop, proved equal to a recursive function, and the
lemmas say what that function means.

Methods draw what the environment decides (a refused rename, a failing query,
a cancel request) from `*`. A parameter that only says how long an environment
keeps something up (`polls`, `traffic`, `budget`) bounds the run described, not
the program: every finite run is one for some value. Constants of a class say
what the environment may do at all, so that an end is tied to its cause and,
where nothing hinders it, the work is done: `faulty` (something asked may be
refused or fail), `trouble` (the ends whose cause may arise during an Apply),
`hindered` (a scan may be canceled, refused or cut short) and `crowded` (others
may act in the kept folders).

## What the proofs rest on

- Apply: nobody but Apply and its recovery renames the three View folders
  while it runs; renames never replace; a journal write takes effect or does
  not. A new folder's identity is one no folder there has.
- The scan needs no assumption about persistence: "existed throughout" is
  read at every instant, along the whole path. No outside file is reported
  as long as no swap above it is undone between its two checks
  (`NoSwapUndone`); `OutsideExactly` says when one is, and
  `UndoneSwapSlipsThrough` walks a world in which one is.
- The pruner compares stamps as text, where a fraction sorts before the `Z`.
  Its comment calls that correct for the stamps of events, which carry
  fractions; `PrunesOlderBut` gives exactly the rows that go up to a second
  early.
- The replay: a failing query is only logged, so the source's promise that a
  lagging subscriber loses nothing (crates/audit/src/stale_propagator.rs)
  fails in a run like `BrokenReplayLoses`. `NothingIsMissed` proves it while
  the last replay did not break off (`owed`), and `MissedExactly` says which
  events are missed in any run.
- Kept files: an entry others add to `View (kept)/` is a file of its own, and
  they do not put files back into `View (previous)/`.
- The hypothesis that something is a run is met: each machine's class has a
  constructor that begins one, and its methods take the machine's steps.
- Templates: composition, case mapping and script mixing are given functions
  of Unicode. Grouping: so are composition, the shortest decimal of a number
  and the text of a date, which holds no `@`; `framing::split` partitions its
  input. Grading: a night without darkness has no window.

## Model

| member | source | states |
|---|---|---|
| `ApplySwap.NothingIsLost` | crates/platevault-core/src/apply.rs:1790-1842 | In every state of every run, crashes, failed renames and cut recoveries included: until the installed Apply retires it, the old View sits under exactly one of `View`, `View (previous)`; a whole build sits under exactly one of `View (building)`, `View`; and `View` is never anything but the old View or the whole build |
| `ApplySwap.SettledOutcome` | crates/platevault-core/src/apply.rs:622-658 | Once settled, in the run or by recovery, Apply reads Applied exactly when `View` is the build, and then the build was verified whole; otherwise `View` is the old View, or absent if there was none |
| `ApplySwap.RunKeepsInv` | crates/platevault-core/src/apply.rs:583-658 | The invariant tying journal phase, expected identities, the three folder names and the process's place holds at every state of every run |
| `ApplySwap.StepKeepsInv` | crates/platevault-core/src/apply.rs:1472-1842 | Every single step keeps it: each rename, journal write, catalog read and decision, and every crash |
| `ApplySwap.CrashKeepsInv` | crates/platevault-core/src/apply.rs:1302-1340 | A crash between any two steps leaves a state recovery can start from |
| `ApplySwap.RecoverKeepsInv` | crates/platevault-core/src/apply.rs:1302-1340 | A recovery rename, taken or refused, keeps the invariant, so recovery itself may be cut and begun again |
| `ApplySwap.MoveAsideKeepsInv` | crates/platevault-core/src/apply.rs:1870-1884 | Moving the old View aside keeps it, whether it succeeds, fails or finds a tool holding a file |
| `ApplySwap.InstallNewKeepsInv` | crates/platevault-core/src/apply.rs:1790-1842 | Renaming the build to `View` keeps it, taken or refused |
| `ApplySwap.RestoreOldKeepsInv` | crates/platevault-core/src/apply.rs:1915-1919 | Putting the old View back keeps it, taken or refused |
| `ApplyReads.RunShape` | crates/platevault-core/src/apply.rs:1477-1491 | Along every run a step changes one durable thing, and the journal phase never goes back |
| `ApplyReads.InstalledAfterHeldRead` | crates/platevault-core/src/apply.rs:1889-1911 | Whenever `View` is the build, an earlier step read a catalog that held what was reserved, and neither another read nor a wait for a tool came after that read |
| `ApplyReads.EditKeepsOldView` | crates/platevault-core/src/apply.rs:1426-1446 | From an edit of the Project committed before the last read on, the build is never `View`, and if Apply settles it ends with the old View in place |
| `ApplyReads.EditedStaysUnread` | crates/platevault-core/src/apply.rs:1441-1446 | No later read lets an edited Project through: the reservation's revision never matches again |
| `ApplyMoved.FailedReadEndsMoved` | crates/platevault-core/src/apply.rs:1426-1446 | From any read that no longer finds what was reviewed or reserved, the build is never `View`, and Apply ends CatalogMoved with the old View in place, or Interrupted if a crash came between |
| `ApplyMoved.MovedMeansReadFailed` | crates/platevault-core/src/apply.rs:1889-1911 | A settled Apply reads CatalogMoved only where nothing it read from the catalog holds, and where nothing does it reads CatalogMoved or Interrupted |
| `ApplyMoved.MovedAfterFailedRead` | crates/platevault-core/src/apply.rs:1889-1911 | An Apply that ended CatalogMoved did read a catalog that no longer was what was reviewed or reserved |
| `ApplyMoved.EditedReadFails` | crates/platevault-core/src/apply.rs:1790-1792 | Every read after an edit of the Project fails |
| `ApplyMoved.GuardNeverRefuses` | crates/persistence/library/src/project_view.sql:245-270 | The catalog's guard refuses a journal write that settles twice or goes back; no step of any run, recovery included, makes one |
| `ApplyInputs.ReservedWhenUnmoved` | crates/platevault-core/src/apply.rs:1426-1437 | Field by field: the read of what the reservation left lets Apply go on exactly when revision, basis, corrections, readiness and generation are those of the reviewed sheet; else it ends CatalogMoved |
| `ApplyInputs.ReadDecides` | crates/platevault-core/src/apply.rs:1441-1446 | Field by field: a later read lets Apply go on exactly when it finds the revision, digest and generation the first read found and this Apply still running; else Apply is on its way to CatalogMoved |
| `ApplyInputs.MovedSheetEndsMoved` | crates/platevault-core/src/apply.rs:1426-1437 | From a first read that finds any of the five moved, the build is never `View` and Apply ends CatalogMoved, or Interrupted after a crash |
| `ApplyInputs.MovedInputsEndMoved` | crates/platevault-core/src/apply.rs:1889-1911 | From a later read that finds revision, digest, generation or the running Apply moved, the build is never `View` and Apply ends CatalogMoved with the old View in place, or Interrupted after a crash |
| `ApplyInputs.InstalledIsReserved` | crates/platevault-core/src/apply.rs:1889-1911 | Whenever the build is `View`: the first read found the sheet's five inputs, and the last one the revision, digest and generation the first had found, with this Apply running; nothing was read and no tool waited for since |
| `ApplyInputs.ReadAfterOnce` | crates/platevault-core/src/apply.rs:1426-1437 | What the reservation left is read once in a run |
| `ApplyPhases.PhasesInOrder` | crates/platevault-core/src/apply.rs:1477-1491 | Along every run each journal phase follows the one before it, and records what was done: the build whole when verified, the old View aside when moved, the build in `View` from installed on, the catalog's generation set with the manifest, the outcome with the settling |
| `ApplyPhases.AppliedIsCommitted` | crates/platevault-core/src/apply.rs:2178-2222 | An Apply that reads Applied found the build in `View`, then committed its manifest, which gave the catalog its generation and changed nothing else there, then moved the foreign files, and settled last |
| `ApplyRun.Apply.Rename` | crates/platevault-core/src/apply.rs:189-265 | A rename moves a folder to a free name or changes nothing |
| `ApplyRun.Apply.Swap` | crates/platevault-core/src/apply.rs:1790-1842 | The swap from a verified build: its trace stays a run of the machine; it ends CatalogMoved exactly when its last read of the catalog failed, or breaks off unsettled; where the catalog held what was reserved, it ends early only over something that may happen |
| `ApplyRun.Apply.SetOldViewAside` | crates/platevault-core/src/apply.rs:1847-1865 | Moving the old View aside, retried while a tool holds it: goes on with the old View aside and the phase recorded, or reports an end that may happen; a tool that lets go ends nothing |
| `ApplyRun.Apply.MoveAsideOnce` | crates/platevault-core/src/apply/files.rs:1188-1196 | One attempt: moved, held by a tool that may hold on, or failed with nothing moved, and that only if the rename may be refused or had no free name |
| `ApplyRun.Apply.AfterWait` | crates/platevault-core/src/apply.rs:1889-1905 | A wait is followed by one more read of the catalog, and the swap goes on only if that finds the reserved revision, digest and generation and this Apply running; any mismatch puts the old View back and ends CatalogMoved, unless the Apply breaks off; where nobody edits it goes on |
| `ApplyRun.Apply.StillReserved` | crates/platevault-core/src/apply.rs:1908-1911 | Reads the catalog and answers true exactly when revision, digest and generation are the reserved ones and this Apply runs |
| `ApplyRun.Apply.RestoreOldView` | crates/platevault-core/src/apply.rs:1915-1919 | Puts the old View back under its name or leaves it aside, unsettled |
| `ApplyRun.Apply.ClearTheWay` | crates/platevault-core/src/apply.rs:1925-1936 | Clears `View (previous)` for the swap or says why it cannot: unread and left whole, a kept file not moved, or something left where no old View takes its place; each only if it may happen |
| `ApplyRun.Apply.InstallBuilt` | crates/platevault-core/src/apply.rs:1810-1842 | Installs the build and finishes, or puts the old View back and ends NotInstalled; where nothing is refused it ends Applied |
| `ApplyRun.Apply.FinishInstalled` | crates/platevault-core/src/apply.rs:2178-2222 | From an installed build Apply only ends Applied or breaks off; without refused writes it ends |
| `ApplyRun.Apply.CommitAndRetire` | crates/platevault-core/src/apply.rs:2178-2222 | From a recorded install it commits, moves and retires what is still to do and ends Applied; one cut while retiring retires again before it settles |
| `ApplyRun.Apply.EndRun` | crates/platevault-core/src/apply.rs:1526-1543 | Ends with the given stop once the build is cleared, or breaks off |
| `ApplyRun.Apply.Cancel` | crates/platevault-core/src/apply.rs:1545-1547 | A cancel ends as Canceled, the old View left in its place |
| `ApplyRun.Apply.BuildBeside` | crates/platevault-core/src/apply.rs:1652-1753 | Verifies the originals, makes and fills `View (building)` with exactly the planned entries and records the verified build, or reports an end that may happen |
| `ApplyRun.Apply.MakeFolder` | crates/platevault-core/src/apply.rs:1575-1589 | Makes a fresh `View (building)` after clearing a stray one |
| `ApplyRun.Apply.ReadReservation` | crates/platevault-core/src/apply.rs:1426-1437 | Reserves exactly when the five inputs of the reviewed sheet are unmoved, and then the revision, digest and generation read |
| `ApplyRun.Apply.RunReserved` | crates/platevault-core/src/apply.rs:583-619 | A whole Apply from its reservation to its report, as a run of the machine. Where the sheet stands it ends early only over something that may happen, and ends Applied where nothing does; where an edit moved the sheet it ends CatalogMoved or breaks off |
| `ApplyRun.Apply.RecoverFolders` | crates/platevault-core/src/apply.rs:1302-1340 | Recovery's verdict matches the disk: installed, put back, or stuck with the journal left unsettled; without refusals it is installed exactly when `View` was the build |
| `ApplyRun.Apply.RecoverApply` | crates/platevault-core/src/apply.rs:622-658 | Recovery settles Applied when the build was already `View`, Interrupted otherwise, or leaves the journal for the next start, and that only if something may be refused |
| `ApplyRun.RecoveryNeverStuck` | crates/platevault-core/src/apply.rs:1302-1340 | In any state a run can be cut in, recovery's plan is sound: the build is installed, or a rename back has its source and a free name, or nothing needs moving |
| `KeptNames.KeptNameInjective` | crates/platevault-core/src/layout.rs:57-69 | The numbered names one kept file tries are pairwise different |
| `KeptNames.FirstFree` | crates/platevault-core/src/apply/files.rs:896-940 | The numbering search finds the first free try, and ends within one more try than names are taken |
| `NameMeaning.KeptNameSays` | crates/platevault-core/src/layout.rs:57-69 | From the second try on the number stands before the extension, or at the end when no dot follows the first character; the first try is the name itself |
| `KeptMoves.KeptNamesDiffer` | crates/platevault-core/src/apply.rs:2107-2134 | No two files share a kept name that holds them, whether by an open claim or by a record |
| `KeptMoves.KeptHoldsAll` | crates/platevault-core/src/apply.rs:1938-1997 | The files that left `View (previous)` and nobody else removed are as many entries of `View (kept)`, each under its claimed or recorded name: none was merged or replaced |
| `KeptMoves.KeptFolder.Claim` | crates/platevault-core/src/apply.rs:2065-2097 | A claim is written before the move and every kept file stays accounted for: at its old name, at the name its claim or record gives, or removed by someone else |
| `KeptMoves.KeptFolder.MoveEntry` | crates/platevault-core/src/apply/files.rs:964-1012 | The file goes to its claimed name or nothing changes; it never goes to a taken one |
| `KeptMoves.KeptFolder.MoveProven` | crates/platevault-core/src/apply/files.rs:964-1012 | Moved only if the claimed name was free and holds the file; Missing and Unproven only if someone else removed it; Failed only where the rename may be refused and the name was free; no answer exactly when the name was taken and nothing moved |
| `KeptMoves.KeptFolder.PrepareKept` | crates/platevault-core/src/apply/files.rs:896-940 | The name found is free below the file's own folder, and every number passed over is taken there |
| `KeptMoves.KeptFolder.MoveOneKept` | crates/platevault-core/src/apply.rs:2065-2097 | The file ends at a kept name that was free, claimed for it; or it is Missing or Unproven only because someone else took it, or Failed and where it was, and that only where something is refused or the last number is taken; at every instant, crashes and others' work included, it is accounted for |
| `KeptMoves.KeptFolder.MoveKept` | crates/platevault-core/src/apply.rs:1947-1997 | Every file is tried and every kept one accounted for. It answers true exactly when each file was moved or is missing; false names one that stayed or that someone else took; with nobody else removing files, true exactly when none is left in `View (previous)`; and where nothing is refused and nobody crowds it, every file is moved |
| `KeptMoves.KeptFolder.SettleKeptClaim` | crates/platevault-core/src/apply/files.rs:1048-1084 | A claim is settled Moved exactly when the file left and its claimed name holds its kind and bytes; a different file of the same bytes is taken for it only when someone else removed it |
| `KeptMoves.KeptFolder.SettleKeptClaims` | crates/platevault-core/src/apply.rs:2107-2134 | After an interruption no claim stays open, and every claimed file is recorded at its claimed name, still in `View (previous)`, or gone by someone else's doing |
| `MeasurementRun.CompletedMeasuredAll` | crates/platevault-core/src/frame_review.rs:759-835 | A run reads Completed only if each asset it ever held was dequeued exactly once and settled exactly once |
| `MeasurementRun.FinishedByTheLastWorker` | crates/platevault-core/src/frame_review.rs:759-790 | The step that finishes a run is its last worker leaving, with no worker in the middle of a frame |
| `MeasurementRun.FinishedOnce` | crates/platevault-core/src/frame_review.rs:759-790 | Nothing a finished run reads, held, dequeued or settled changes afterwards |
| `MeasurementRun.ActiveRunIsServed` | crates/platevault-core/src/frame_review.rs:253-322 | While a run is active a worker is counted and the count is exact; what it holds is what is pending plus what was dequeued, with nothing twice |
| `MeasurementRun.AbortIsThisRuns` | crates/platevault-core/src/frame_review.rs:353-370 | An abort that is seen belongs to this run's own cancel or failure, or to a shutdown; never to an earlier run |
| `MeasurementEnds.FinishedAsCaused` | crates/platevault-core/src/frame_review.rs:759-790 | What a finished run reads, from its causes: Completed exactly when nothing canceled or marked it and its first finishing write was taken; Canceled exactly when a cancel came, no mark did and that write was taken; Failed exactly when it was marked or that write was refused |
| `MeasurementEnds.FinishedIfTaken` | crates/platevault-core/src/frame_review.rs:759-790 | The catalog reads a run as finished exactly if it took a write of its end: the first, or, of a run not marked, the second that says Failed |
| `MeasurementEnds.FailedWasRefused` | crates/platevault-core/src/frame_review.rs:888-895 | A run reads Failed only if the catalog refused one of its own writes, a worker's or the finishing one |
| `MeasurementEnds.EndIsCaused` | crates/platevault-core/src/frame_review.rs:353-370 | At every state a run's end is Failed exactly if a worker marked it, Canceled exactly if only a cancel came, and none if neither did |
| `MeasurementEnds.MarkedWasRefused` | crates/platevault-core/src/frame_review.rs:888-895 | A run is marked only after the catalog refused one of its writes |
| `MeasurementEnds.AbortHasCause` | crates/platevault-core/src/frame_review.rs:353-370 | An abort seen while a run is held has a cause in that run, a cancel or a mark, or in a shutdown |
| `MeasurementEnds.EndedStops` | crates/platevault-core/src/frame_review.rs:888-895 | Until it is finished, a run that has its end has abort raised, or a worker about to raise it |
| `MeasurementEnds.AbortStays` | crates/platevault-core/src/frame_review.rs:253-278 | An abort, once raised, stays raised as long as the run is held: only a new run lowers it |
| `MeasurementRun.ToHeadPermutes` | crates/platevault-core/src/frame_review.rs:926-936 | Moving frames to the head loses and duplicates none |
| `MeasurementRun.ToHeadInOrder` | crates/platevault-core/src/frame_review.rs:926-936 | The head holds exactly the pending frames asked for, in the order asked; the rest follow in the order they had |
| `MeasurementMeaning.BeginSays` | crates/platevault-core/src/frame_review.rs:253-278 | A new run waits for the whole queue in its order, abort lowered, with a worker for each frame as far as the pool goes and at least one |
| `MeasurementMeaning.JoinSays` | crates/platevault-core/src/frame_review.rs:280-312 | A join adds its frames after those waiting, then moves those asked for first to the head in the order asked; end, abort and what was dequeued stay; workers grow as far as frames and pool go |
| `MeasurementMeaning.PrioritizeSays` | crates/platevault-core/src/frame_review.rs:330-345 | Reordering moves those asked for to the head in the order asked, the rest in their own, and changes nothing else |
| `MeasurementMeaning.DequeueSays` | crates/platevault-core/src/frame_review.rs:759-790 | A worker gets the frame at the head, which leaves the queue and is the last one taken |
| `MeasurementRun.RunKeepsInv` | crates/platevault-core/src/frame_review.rs:253-322 | The invariant of queue, counters, flags and workers holds under every interleaving of start, join, prioritize, cancel, failing writes and shutdown |
| `MeasurementRun.JoinKeepsInv` | crates/platevault-core/src/frame_review.rs:280-312 | A join keeps it, whatever it adds and however many workers it spawns |
| `MeasurementRun.FinishKeepsInv` | crates/platevault-core/src/frame_review.rs:759-790 | Finishing a run keeps it, whichever of its two writes the catalog takes |
| `MeasurementRun.MarkKeepsInv` | crates/platevault-core/src/frame_review.rs:888-895 | Marking a run Failed keeps it, with abort raised only later |
| `FrameReview.MoveToHead` | crates/platevault-core/src/frame_review.rs:926-936 | The loop over the queue gives those asked for first, in order, then the rest |
| `FrameReview.ToMeasureIsFresh` | crates/platevault-core/src/frame_review.rs:280-312 | What a join adds is not held yet and holds nothing twice |
| `FrameReview.Service.StartMeasurement` | crates/platevault-core/src/frame_review.rs:206-251 | Taken exactly when some assets are asked for, each once, none in the Trash, the priorities among them, no run is ending and the catalog does not refuse; it then begins a run or joins the one Running with the priorities first, and otherwise changes nothing |
| `FrameReview.RequestOrder` | crates/platevault-core/src/frame_review.rs:231-239 | The requested frames, each once, priorities at the head in their order and the rest in theirs |
| `FrameReview.Service.Begin` | crates/platevault-core/src/frame_review.rs:253-278 | The new run holds exactly the queue, abort lowered, its workers counted; a refused one leaves everything as it was |
| `FrameReview.Service.Join` | crates/platevault-core/src/frame_review.rs:280-312 | The fresh assets join the queue, priorities at its head, unless the run is ending or the catalog refuses, when nothing changes |
| `FrameReview.Service.SpawnWorkers` | crates/platevault-core/src/frame_review.rs:316-322 | Workers grow to the pool's share of what is pending, and to at least the minimum |
| `FrameReview.Service.Prioritize` | crates/platevault-core/src/frame_review.rs:330-345 | Reorders the queue of the run asked for and nothing else |
| `FrameReview.Service.CancelMeasurement` | crates/platevault-core/src/frame_review.rs:353-370 | Held exactly for the run asked for; then abort is raised and the run's end is Canceled unless it had one, which stays; nothing else changes, the queue included |
| `FrameReview.Service.NextFrame` | crates/platevault-core/src/frame_review.rs:759-790 | Takes the head with its sequence number, or leaves; the last to leave settles the run |
| `FrameReview.Service.EnterSection` | crates/platevault-core/src/frame_review.rs:900-907 | A worker takes the lock, or leaves uncounted at a shutdown |
| `FrameReview.Service.Stopping` | crates/platevault-core/src/frame_review.rs:753-755 | A measured frame is abandoned exactly when abort is raised |
| `FrameReview.Service.Settle` | crates/platevault-core/src/frame_review.rs:795-835 | An accepted frame is settled once |
| `FrameReview.Service.MarkFailed` | crates/platevault-core/src/frame_review.rs:888-895 | A refused write sets this run's end to Failed, before abort is raised; the queue is left as it was |
| `EventLog.NothingIsMissed` | crates/audit/src/stale_propagator.rs:64-158 | Once the channel drains, every lifecycle event that was broadcast was dispatched, live or by replay, unless it does not parse or was pruned; provided the last replay did not break off |
| `EventLog.CursorPassesOnlySettled` | crates/audit/src/stale_propagator.rs:116-158 | The cursor never passes an undispatched row that parses and is still in the table, broadcast or not |
| `EventLog.CursorOnlyGrows` | crates/audit/src/stale_propagator.rs:116-158 | The cursor never moves back |
| `EventLog.MissedExactly` | crates/audit/src/stale_propagator.rs:64-158 | In any run, failing queries included: a drained subscriber missed a broadcast lifecycle event that parses and is unpruned exactly when lags skipped every broadcast of it and its row lies past the cursor |
| `EventMeaning.OnlyDueDispatched` | crates/audit/src/stale_propagator.rs:64-158 | In any run nothing is dispatched but committed lifecycle events that came live, or by a replay that has reached their row and parsed it |
| `EventMeaning.ReplayMovesOn` | crates/audit/src/stale_propagator.rs:116-158 | A replay only dispatches rows past its cursor, so none twice |
| `EventLog.BrokenReplayLoses` | crates/audit/src/stale_propagator.rs:116-158 | For every channel capacity and page size, a run with a failing query in which an event is never dispatched: the proviso is needed |
| `EventLog.PageIsComplete` | crates/persistence/lifecycle/src/repositories/events.rs:149-165 | A page holds every wanted row after the cursor, or is full and the rest come after its last |
| `EventLog.RunKeepsInv` | crates/audit/src/stale_propagator.rs:64-158 | The invariant of table, channel, cursor and page holds under every interleaving of publishers, prunes, overflows and page boundaries |
| `StalePropagator.Bus.Publish` | crates/audit/src/bus.rs:79-109 | The row is durable before it is broadcast; a refused write broadcasts nothing |
| `StalePropagator.Bus.PublishBatch` | crates/audit/src/bus.rs:121-163 | An accepted batch adds one row and one message an event, in order: the i-th row carries the i-th event's flags under an id past every earlier one, and the i-th message is that row's; all rows come before any message. A refused batch does neither |
| `StalePropagator.Bus.ReplayPage` | crates/audit/src/stale_propagator.rs:116-158 | Every row of the page that parses is dispatched, and a short page ends the replay |
| `StalePropagator.Bus.ReplaySince` | crates/audit/src/stale_propagator.rs:116-158 | The replay ends with nothing owed, or where a query failed |
| `StalePropagator.Bus.Drain` | crates/audit/src/stale_propagator.rs:64-106 | When the channel is empty and no query failed, every lifecycle event sent was dispatched unless unparsable or pruned; when one failed, those missed are exactly the ones only skipped and past the cursor |
| `InventoryWalk.Walk.Scan` | crates/platevault-core/src/inventory.rs:598-664 | Against any file system: no frame that stays put below the scope is marked absent; a halt is tied to its cause; a scope is claimed complete only if the last look found the recorded root; every file reported was read whole between two matching checks of the folders above it; and an unhindered scan of a quiet tree, given as many steps as it has folders to enter, ends with no halt and reports every frame |
| `InventoryWalk.Walk.Run` | crates/platevault-core/src/inventory.rs:788-814 | The explicit stack accounts for every file that stays put: reported, or at or below an incomplete path; RootLost only from a look that does not find the recorded root, and no halt only after one that does; unhindered on a quiet tree it never halts |
| `InventoryWalk.Walk.Conclude` | crates/platevault-core/src/inventory.rs:788-814 | The last batch and the last look: no halt only with nothing pending, the recorded root found and revalidated; with the root in place it halts only if hindered |
| `InventoryWalk.Walk.List` | crates/platevault-core/src/inventory.rs:827-877 | A directory's names are evidence exactly when it is read in full between two matching checks of the folders down to it; otherwise it is excluded, or at the scope the scan fails |
| `InventoryWalk.Walk.Visit` | crates/platevault-core/src/inventory.rs:879-932 | An entry is entered, read, passed by or named uncertain, and what it adds to the report is exactly the frame read whole, if it is one |
| `InventoryWalk.Walk.Read` | crates/platevault-core/src/inventory.rs:934-1026 | The frame is reported exactly if both checks find every folder above it with its recorded stamp, its header and file ID are read and it is the entry seen before; otherwise its place is uncertain |
| `InventoryWalk.Walk.ExcludeFolder` | crates/platevault-core/src/inventory.rs:1036-1040 | An uncertain folder is named once |
| `InventoryWalk.Walk.AboveChanged` | crates/platevault-core/src/inventory.rs:1045-1053 | Answers exactly whether a folder above changed, and names one that did uncertain |
| `InventoryWalk.Walk.ChangedFolder` | crates/platevault-core/src/inventory.rs:746-763 | The topmost folder that no longer carries its recorded stamp |
| `InventoryWalk.Walk.Flush` | crates/platevault-core/src/inventory.rs:1056-1067 | Delivers the pending files and loses none exactly when the look finds the recorded root; halts RootLost only from a look that does not, Canceled before looking |
| `InventoryWalk.Walk.EnterScope` | crates/platevault-core/src/inventory.rs:694-727 | The descent to the scope records the folders it went through, or stops |
| `InventoryWalk.Walk.EntryAt` | crates/platevault-core/src/inventory.rs:325-370 | On a quiet tree the per-path lookup says frame exactly for the frames |
| `InventoryWalk.Walk.ListFolder` | crates/platevault-core/src/inventory.rs:488-526 | On a quiet tree a directory's listing gives its own frames and the folders below, completely |
| `InventoryWalk.Walk.FramePaths` | crates/platevault-core/src/inventory.rs:429-470 | On a quiet tree the listing gives exactly the frames and names no folder unlisted |
| `InventoryWalk.QuietScanFindsAll` | crates/platevault-core/src/inventory.rs:598-664 | On a quiet tree the scan reports every frame below its scope |
| `InventoryWalk.CheckedReadIsFrame` | crates/platevault-core/src/inventory.rs:279-303 | On a quiet tree whatever it reports is a frame, so scan, lookup and listing agree with one recursive definition |
| `OutsideReads.NoOutsideFile` | crates/platevault-core/src/inventory.rs:934-1053 | When no swap above a reported file is undone between that file's two checks, every folder above it was the recorded one at every instant between them |
| `OutsideReads.ReadIsTheEntry` | crates/platevault-core/src/inventory.rs:934-1026 | Then the path, resolved through the links of the moment, led through the recorded folders alone, and the header read was that of the entry of its name in the last of them |
| `OutsideReads.OutsideIsAway` | crates/platevault-core/src/inventory.rs:746-763 | Resolving a path name by name, links followed, leaves the recorded folders exactly when a look at some folder on it, links not followed, does not find the recorded one |
| `OutsideReads.OutsideExactly` | crates/platevault-core/src/inventory.rs:934-1053 | The header of a reported file was read outside, its path resolved through links, exactly when a folder above was swapped away after the first check and back before the second |
| `OutsideReads.UndoneSwapSlipsThrough` | crates/platevault-core/src/inventory.rs:746-763 | A world in which the walk itself lists the root, enters a folder and reports its file, while the header it read is another file's behind a link: the condition is needed |
| `CivilDate.DaysToYmdIsGregorian` | crates/audit/src/pruner.rs:116-136 | The closed form equals the Gregorian next-day rule applied n times to 1970-01-01, wherever its casts are exact and the year fits |
| `CivilDate.YearOfEraIsRight` | crates/audit/src/pruner.rs:116-136 | The year-of-era division finds the one year whose days hold the day |
| `CivilDate.PartsNext` | crates/audit/src/pruner.rs:116-136 | One day more moves era, year and day of year as the calendar's next day does |
| `EventCutoff.StampOrder` | crates/audit/src/pruner.rs:91-112 | Through year 9999, whole-second stamps compare as text exactly as their instants do |
| `EventCutoff.StampReads` | crates/audit/src/pruner.rs:91-136 | A row's stamp read back: four, two and two digits of its Gregorian date, its time of day, and the part of a second without the zeros at its end, then Z |
| `EventCutoff.DatesGrow` | crates/audit/src/pruner.rs:116-136 | Later days have later dates: the date names its day |
| `EventCutoff.PrunesExactlyOlder` | crates/audit/src/pruner.rs:91-112 | A pass prunes a whole-second row exactly when it is older than the retention |
| `EventCutoff.PrunesBySecond` | crates/audit/src/pruner.rs:88-112 | Any row, with a fraction of a second or without: a pass prunes it exactly when its second is before the cutoff's, or is the cutoff's and its stamp has a fraction |
| `EventCutoff.PrunesOlderBut` | crates/audit/src/pruner.rs:88-112 | So it prunes exactly the rows older than the cutoff unless one with a fraction falls in the cutoff's own second, and it never prunes one a second or more early |
| `EventCutoff.FractionGoesEarly` | crates/audit/src/pruner.rs:88-112 | Rows that do go early: those with a fraction in the second just as old as the retention |
| `CaptureKey.KeyIsRead` | crates/platevault-core/src/grouping.rs:246-268 | From the key alone every field comes back, name and value or unknown, for any text, delimiters included |
| `CaptureKey.KeyDecides` | crates/platevault-core/src/grouping.rs:246-275 | Two keys are equal exactly when all their fields are |
| `CaptureKey.UnescapeUndoesEscape` | crates/platevault-core/src/grouping.rs:257-268 | Escaping is undone by unescaping |
| `NameMeaning.EscapeSays` | crates/platevault-core/src/grouping.rs:257-268 | A percent sign and a bar are written as their codes, any other character as itself |
| `NameMeaning.EscapeAdds` | crates/platevault-core/src/grouping.rs:257-268 | Escaping goes character by character |
| `CaptureDerivation.NightIsNoonToNoon` | crates/platevault-core/src/grouping.rs:414-416 | A moment's night is the date whose noon is the last before it, exactly within the calendar |
| `CaptureMeaning.FieldsSay` | crates/platevault-core/src/grouping.rs:199-244 | Every field of a key, by name and in order, from the header it comes from: trimmed and composed text, canonical decimals, whole numbers, the image type named or quoted, the night with its basis |
| `CaptureMeaning.LocalNightSays` | crates/platevault-core/src/grouping.rs:353-376 | The local time header decides the night, noon to noon, wherever it can |
| `CaptureMeaning.SolarNightSays` | crates/platevault-core/src/grouping.rs:377-400 | Else the UTC time with the longitude does, four minutes a degree east |
| `CaptureMeaning.UtcDateSays` | crates/platevault-core/src/grouping.rs:400-412 | Else the UTC date observed stands for it, provisionally |
| `CaptureMeaning.EastSays` | crates/platevault-core/src/grouping.rs:419-424 | A longitude from -180 to 360 degrees is the same place east, within half a turn; any other is none |
| `CaptureDerivation.Derive` | crates/platevault-core/src/grouping.rs:199-244 | The writer's key is the encoding of the canonical fields, and exactly the unknown ones are noted |
| `CaptureDerivation.KeyWriter.Known` | crates/platevault-core/src/grouping.rs:257-268 | Appends one known field, escaped character by character |
| `CaptureDerivation.KeyWriter.Unknown` | crates/platevault-core/src/grouping.rs:270-275 | Appends one unknown field and its note |
| `CaptureDerivation.SameKeySameFields` | crates/platevault-core/src/grouping.rs:199-244 | Two frames share a key exactly when all their canonical fields agree |
| `CaptureDerivation.KeySaysBasisAndLight` | crates/platevault-core/src/grouping.rs:234-244 | The date basis and being a light are functions of the key |
| `CaptureGroups.GroupFrames` | crates/platevault-core/src/grouping.rs:101-157 | The candidates partition the frames: every frame is in exactly one, with frames of its own key, under that key's date basis; a key's frames that are no lights stay in one candidate |
| `CaptureGroups.FillBuckets` | crates/platevault-core/src/grouping.rs:101-117 | Each key has one bucket holding its frames in order, with their basis |
| `CaptureGroups.GroupBucket` | crates/platevault-core/src/grouping.rs:118-157 | Only a key's lights are split, by framing; its other frames are one candidate |
| `CaptureGroups.StandingKeepsItsMembers` | crates/platevault-core/src/grouping.rs:162-181 | A standing session takes part exactly when it has this key and all its members are among the key's frames, and then as those frames |
| `CaptureGroups.DerivedAreCoherent` | crates/platevault-core/src/grouping.rs:107-117 | Frames of one key agree on basis and light, so a bucket may take them from its first |
| `NightSearch.GradeNight` | crates/platevault-core/src/goal_grades.rs:278-316 | The memo changes no grade: the result equals grading every goal afresh |
| `NightSearch.BestGradesFirst` | crates/platevault-core/src/goal_grades.rs:426-444 | The grades are one per goal; none grades better than one before it, and of those alike the name decides |
| `NightSearch.OrderSays` | crates/platevault-core/src/goal_grades.rs:426-444 | One grade sorts before another exactly when it is better, or as good with a longer window, or alike and named first |
| `NightSearch.GradeSays` | crates/platevault-core/src/goal_grades.rs:320-341 | A goal's strictest band decides its grade: poor when the curve leaves no window, marginal where over a fourth of the minutes free of the Moon are lost, good otherwise |
| `NightSearch.UngradedSays` | crates/platevault-core/src/goal_grades.rs:153-165 | A goal without a band or a position has no grade and says which it lacks, the band first |
| `NightSearch.GradeOrderIsPreorder` | crates/platevault-core/src/goal_grades.rs:435-444 | The order of grades is a total preorder |
| `NightSearch.StrictestBand` | crates/platevault-core/src/goal_grades.rs:321-326 | The band needing the most separation, the earlier on a tie; none only without bands |
| `NightSearch.TryNight` | crates/platevault-core/src/goal_grades.rs:375-389 | Skipping a target and criterion already tried changes no answer |
| `NightSearch.NextGoodNight` | crates/platevault-core/src/goal_grades.rs:353-392 | The night found is the first of the next 35 with a window for a gradable goal, none earlier; or none has one, or something failed |
| `NightSearch.SearchMatchesGrades` | crates/platevault-core/src/goal_grades.rs:353-392 | Where every night up to the one found can be graded (the whole span when none is), it is the first of 35 whose uncached grades are good or marginal for some goal, and NoneWithin means no night's are |
| `NightSearch.SuitedIsGraded` | crates/platevault-core/src/goal_grades.rs:333-341 | A night suits exactly when a goal's grade is good or marginal |
| `CalibrationChecks.AngleIsSmallest` | crates/platevault-core/src/calibration.rs:697-700 | The angle is the least over all whole turns, and some number of turns attains it |
| `CalibrationChecks.AngleIsSymmetric` | crates/platevault-core/src/calibration.rs:697-700 | It is the same from both sides |
| `CalibrationChecks.TurnedAwayByOneFrame` | crates/platevault-core/src/calibration.rs:647-694 | Flats fail on rotation exactly when all angles are known and one frame's, rounded, is past what is offered |
| `CalibrationChecks.VersionsInAnyOrder` | crates/platevault-model/src/rig_version.rs:302-314 | A capture's rig version does not depend on the order versions are listed in, where no two start together |
| `CalibrationMeaning.OfferedMeans` | crates/platevault-core/src/calibration.rs:412-470 | An input is offered exactly when it is of the kind asked for and nothing both sides have differs, of what matters for its kind: camera, size and binning; filter, optical train, rig version and rotation of flats; gain, offset, temperature and readout mode of darks and bias, exposure of darks |
| `CalibrationMeaning.CompatibleMeans` | crates/platevault-core/src/calibration.rs:412-470 | Every check is compatible exactly when all of that is there on both sides and the same; a readout mode may be missing on both, and a rig without a rotator needs no angles |
| `CalibrationMeaning.CameraSays` | crates/platevault-core/src/calibration.rs:568-597 | Two cameras known by their links agree when they are one; else the headers decide, the model first and then the camera's own id |
| `CalibrationMeaning.RigSays` | crates/platevault-core/src/calibration.rs:600-645 | Flats clash with the lights' rig exactly when both versions are known and differ |
| `CalibrationMeaning.RotationSays` | crates/platevault-core/src/calibration.rs:647-694 | Where all angles are known they decide; where some are not, only a rig without a rotator needs none |
| `CalibrationMeaning.ChecksListed` | crates/platevault-core/src/calibration.rs:412-470 | The checks of each kind, in the order they are shown |
| `SessionRanking.RankIsPreorder` | crates/platevault-core/src/calibration.rs:387-408 | The ranking is a total preorder, and so with ids is the offers' order |
| `SessionRanking.MatchSession` | crates/platevault-core/src/calibration.rs:364-385 | The offers are those of the inputs that pass, sorted, a tie at the top marked |
| `SessionRanking.SessionOffer` | crates/platevault-core/src/calibration.rs:475-521 | An input is offered exactly when no hard check is incompatible, with all its cautions |
| `SessionRanking.OffersAreTheEligible` | crates/platevault-core/src/calibration.rs:364-385 | The offers are exactly the eligible inputs, each once, best first |
| `SessionRanking.TopStandsAlone` | crates/platevault-core/src/calibration.rs:379-383 | The top offer carries no caution exactly when it raises none of its own and ranks strictly before every other, though only two are compared |
| `SessionRanking.OrderOfInputsIsNothing` | crates/platevault-core/src/calibration.rs:364-385 | The offers do not depend on the order the inputs came in, where one id is one input |
| `SessionRanking.UncautionedMeansAllWell` | crates/platevault-core/src/calibration.rs:475-521 | No caution means every check compatible, inside the window, finely rotated and readable, and only then |
| `OfferMeaning.RankSays` | crates/platevault-core/src/calibration.rs:387-408 | One that can be pinned ranks before one that can't, a master before a raw set, then the nearer capture, then the smaller rotation, the known before the unknown |
| `OfferMeaning.BestFirst` | crates/platevault-core/src/calibration.rs:364-385 | No offer ranks before one ahead of it, and of those that rank alike the smaller id comes first |
| `OfferMeaning.TieSays` | crates/platevault-core/src/calibration.rs:364-385 | A tie at the top, of two that can be pinned, of one form, as near and as little rotated, is the first offer's one caution; every other offer stands as it is |
| `OfferMeaning.CautionsSay` | crates/platevault-core/src/calibration.rs:475-521 | An offer raises exactly its cautions: checks left open, a capture of unknown age or outside the window, a rotation past the fine one, an input that can't be read |
| `OfferMeaning.RotationIsWidest` | crates/platevault-core/src/calibration.rs:647-694 | The rotation an offer ranks by is its widest frame's, rounded to hundredths |
| `SessionRanking.ExposureMismatch` | crates/platevault-core/src/calibration.rs:538-564 | The mismatch reported names the lights' exposure and exactly the exposures of the darks it alone turns away |
| `SessionRanking.MismatchMeansNoDark` | crates/platevault-core/src/calibration.rs:533-564 | A mismatch is reported exactly when no dark is offered at all and exposure alone turns one away |
| `SafeFilename.Sanitize` | crates/safe-filename/src/lib.rs:217-232 | What passes is one usable level: not empty, no separator, no reserved name, no edge dot or blank, a run of the value's characters with reserved ones replaced |
| `SafeFilename.SafeStaysSame` | crates/safe-filename/src/lib.rs:206-232 | A level already safe and composed passes unchanged, or is refused only as a device or for mixed scripts |
| `NameMeaning.SanitizeSays` | crates/safe-filename/src/lib.rs:217-232 | Dots alone are refused as traversal; anything else is judged as exactly what stands between its first and last character that is no dot or blank, the reserved ones replaced: refused as empty, as a device or for mixed scripts, the first that fits, else passed |
| `NameMeaning.DevicesAre` | crates/safe-filename/src/lib.rs:140-178 | The device names: four, and two stems followed by a digit from one to nine or a raised one, two or three |
| `NameMeaning.TrimSays` | crates/safe-filename/src/lib.rs:217-232 | Trimming keeps everything between the first and the last character not trimmed |
| `PathTemplates.ScansAgree` | crates/patterns/src/per_type.rs:216-230 | The whole-template scan and the per-level scans find the same placeholders exactly when none of the whole holds a slash |
| `PathTemplates.PiecesHoldAll` | crates/patterns/src/resolver.rs:292-337 | The resolver's scan of a level finds the validator's placeholders and drops no text |
| `PathTemplates.V1IsSound` | crates/patterns/src/registry.rs:75-131 | No registered name or fallback holds a slash or a brace, and no fallback is empty |
| `TemplateResolver.TokensIn` | crates/patterns/src/per_type.rs:216-230 | The loop finds exactly the placeholders of the template |
| `TemplateResolver.Validate` | crates/patterns/src/per_type.rs:175-185 | Accepted exactly when not blank and every placeholder is registered; otherwise the first unregistered one is named |
| `TemplateResolver.DefaultIsAccepted` | crates/patterns/src/per_type.rs:146-156 | Every built-in template is accepted |
| `TemplateResolver.DefaultIs` | crates/patterns/src/per_type.rs:146-156 | Each class's own built-in template, by its text |
| `TemplateResolver.DefaultFilesBy` | crates/patterns/src/per_type.rs:146-156 | The placeholders each class is filed by, in order |
| `TemplateResolver.EffectiveTemplate` | crates/patterns/src/per_type.rs:193-198 | What takes effect is always an accepted template: the override if it is one |
| `TemplateResolver.ResolveOneToken` | crates/patterns/src/resolver.rs:341-373 | A token resolves to a non-empty, slash-free text, its own cleaned value unless reported missing; it fails as unknown exactly when unregistered |
| `NameMeaning.RawValueSays` | crates/patterns/src/resolver.rs:341-373 | A token's value is the bundle's where it is there and not empty, else the fallback; only the frame type is put in lower case |
| `NameMeaning.ResolvedSays` | crates/patterns/src/resolver.rs:341-373 | A token shows its cleaned value, or its fallback as missing where nothing usable is left; dots, a device name or mixed scripts fail the template |
| `NameMeaning.MissingSays` | crates/patterns/src/resolver.rs:341-373 | The tokens reported missing are exactly those that fall back |
| `TemplateResolver.ResolveSegment` | crates/patterns/src/resolver.rs:292-337 | A level renders to its pieces in order or fails at the first that fails, and what fell back is appended in order |
| `TemplateResolver.ProductIsSound` | crates/patterns/src/resolver.rs:213-218 | The product's registry and sanitizer meet what resolving rests on |
| `TemplatePaths.ResolvePattern` | crates/patterns/src/resolver.rs:220-247 | The loop over levels, the join and the checks give the specified resolution or error |
| `TemplatePaths.CheckAssembledPath` | crates/patterns/src/resolver.rs:258-285 | The first level at fault decides the error, then the whole length |
| `TemplatePaths.FaultSays` | crates/patterns/src/resolver.rs:258-285 | The error names the first level that is dots alone, a device name or past its octets in UTF-8, in that order; with none, it is the whole path's characters |
| `TemplatePaths.PathHasTheLevels` | crates/patterns/src/resolver.rs:220-285 | A path has exactly one level for each non-empty level of the template, rendered from it, none empty, dots, reserved or too long, nor the whole |
| `TemplatePaths.AcceptedNeverUnknown` | crates/patterns/src/resolver.rs:220-247 | An accepted template never fails as empty or for an unknown token, and reports what fell back in the validator's order |
| `TemplatePaths.UnknownNeverResolves` | crates/patterns/src/resolver.rs:341-349 | Any template with a level token that is not registered fails, and the token named is one |
| `TemplatePaths.SlashInsideBraces` | crates/patterns/src/per_type.rs:216-230 | The family of templates on which the two scans part: a brace pair around a slash |
| `EntryNames.EntryBasename` | crates/platevault-core/src/layout.rs:212-236 | Terminates with the source's own name, or the first free name made from the id, or the full one |
| `EntryNames.Capped` | crates/platevault-core/src/layout.rs:175-190 | The loop keeps the most characters that fit, trims the edge and adds the suffix |
| `EntryNames.CappedKeepsStart` | crates/platevault-core/src/layout.rs:173-190 | A shortened name is the name's start and the suffix |
| `EntryNames.EntryNameFits` | crates/platevault-core/src/layout.rs:212-236 | Every name fits one path component, keeps a usable extension, and is the source's own or ends in at least eight digits of the id and the extension |
| `NameMeaning.EntryNameSays` | crates/platevault-core/src/layout.rs:212-236 | The source's own name where it takes up to 255 units and is free, else one with the fewest digits of the id, eight to 32, that is free, or all of them |
| `NameMeaning.IdNameSays` | crates/platevault-core/src/layout.rs:212-236 | A name made from the id is the start of the source's, a dash, the digits and the extension: all of the stem where it fits, else the most of it that does, no dash or dot left at its end |
| `NameMeaning.ExtensionSays` | crates/platevault-core/src/layout.rs:212-236 | The extension kept starts at the last dot, where something stands before it and it takes fewer than 127 units |
| `NameMeaning.OwnNameSays` | crates/platevault-core/src/layout.rs:212-236 | A source named by dots and blanks alone is called entry |
| `EntryNames.TakenOnlyWhenAllAre` | crates/platevault-core/src/layout.rs:225-235 | The name that comes out was taken exactly when every name tried was |
| `EntryNames.AssignNames` | crates/platevault-core/src/apply/plan.rs:481-500 | Each input is named in turn, seeing the names before it, and the naming stops exactly at the first name that is no entry name |
| `EntryNames.NamesAreDistinct` | crates/platevault-core/src/apply/plan.rs:481-500 | Names given in turn are pairwise different, and different from those before, exactly when no input found all its names taken |
| `CalendarText.FoldInto` | crates/platevault-core/src/calendar.rs:218-230 | The loop appends the folded line |
| `CalendarText.FoldedLinesAreShort` | crates/platevault-core/src/calendar.rs:218-230 | Folding gives physical lines of at most 75 octets (section 3.1 of RFC 5545) |
| `CalendarMeaning.FoldedLinesAreFull` | crates/platevault-core/src/calendar.rs:218-230 | And no line is wrapped before it has to be |
| `CalendarText.UnfoldUndoesFold` | crates/platevault-core/src/calendar.rs:218-230 | Unfolding gives the line back, whatever follows |
| `CalendarText.EscapeText` | crates/platevault-core/src/calendar.rs:201-214 | The loop gives the escaped text |
| `CalendarMeaning.EscapeSays` | crates/platevault-core/src/calendar.rs:201-214 | Each character by itself: a backslash before a backslash, semicolon or comma, a line feed as backslash n, a carriage return as nothing |
| `CalendarText.UnescapeUndoesEscape` | crates/platevault-core/src/calendar.rs:201-214 | Unescaping gives the text back but for its carriage returns (section 3.3.11 of RFC 5545) |
| `CalendarText.EscapeNeverBreaks` | crates/platevault-core/src/calendar.rs:201-214 | Escaping never emits a line break |
| `CalendarText.RenderIcs` | crates/platevault-core/src/calendar.rs:44-72 | The buffer holds every content line in order, folded |
| `CalendarMeaning.CalendarReads` | crates/platevault-core/src/calendar.rs:44-72 | The head, then each window's eleven lines one after another, then the end |
| `CalendarMeaning.HeadReads` | crates/platevault-core/src/calendar.rs:44-72 | What comes before the windows, line by line: format, product, method, name and zone |
| `CalendarMeaning.WindowReads` | crates/platevault-core/src/calendar.rs:44-72 | One window line by line: its id, stamp, start, end, summary, place, position and description |
| `CalendarText.CalendarIsRecovered` | crates/platevault-core/src/calendar.rs:44-72 | Every content line is recovered from the calendar text, whatever the names hold |
| `CalendarText.ValuesAreRecovered` | crates/platevault-core/src/calendar.rs:44-72 | Unfolded, split at line breaks and cut at the first colon, the calendar text gives every property back in order: its name, and its value, free text unescaped to what was written but for its carriage returns |
| `CalendarText.TextComesBack` | crates/platevault-core/src/calendar.rs:44-72 | Free text without carriage returns comes back from the calendar text exactly as it was |

## Left out

- The real file system, SQL and the async runtime: renames, journal writes, catalog reads, lock sections and flag accesses are atomic steps over abstract state.
- Copy-based moves on volumes without a no-replace rename, the Trash, symlink and clone probes, hashing, and what `verify_built` reads in the entries: the build is whole or it is not.
- Apply's preview sheet, its refusals, the manifest's content and the foreign files' own moves; clearing and retiring a folder is one step that succeeds or does not.
- `ApplyRun.Apply.Swap`: a Project folder found replaced refuses the swap here; what stands in the folder that replaced it is not modelled.
- `ApplyRun.Apply.SetOldViewAside`: says nothing of how long a tool may hold on; the run described names the number of polls it lasts, and every number is covered.
- Decoding and measuring pixels, progress messages, the preview cache and the cached counters of a run.
- `FrameReview.Service.StartMeasurement`: the frames' records are given with each request, with whether they are valid; an unknown asset is one of the catalog's refusals.
- `ApplyRun.Apply.RecoverApply`: settling the kept claims before the end is modelled by itself, in `KeptMoves`.
- `KeptMoves.KeptFolder.MoveKept`: `put_back_kept`, which restores a file an interrupted copy left moved aside, is not modelled, nor is a file edited in place in `View (previous)`.
- `KeptMoves.KeptFolder.SettleKeptClaims`: the Renamed outcome where a volume has no no-replace rename, its unfinished copies, and a claim whose file cannot be read, which leaves settling to the next start.
- `EntryNames.AssignNames`: which names are entry names on every platform is a given predicate.
- The hooks a dispatch calls and their effects; `EventLog` records that a row was dispatched.
- Header metadata, file sizes and hashes of scanned files, the order a directory is listed in, and the issue texts; a listing is any sequence of names.
- `InventoryWalk.Walk.Scan`: the counts and the batch totals are not modelled.
- `parse_header_time`: a date header arrives parsed; the parser would add one more straight-line grammar.
- `framing::split`: any partition of a key's lights; how it compares pointing and rotation, and so that grouping as a whole ignores the order of its input, is not modelled.
- `CaptureGroups.GroupFrames`: the order of the sessions and of their notes is not modelled, and ids are taken to be distinct, as the catalog's are.
- The notes' wording, and the shortest decimal text of a float, given as a function.
- `SessionRanking.MatchSession`: angles are reals, so float rounding, negative zero and NaN are not modelled; rows' source and note texts are left out.
- `evaluate`, the adopted-input evaluation beside session matching: the same rows without a ranking.
- The planning computations: darkness, Moon age, separations and windows are given functions of the night.
- `resolve`, the resolver of token and separator parts: it adds no scan, and shares the token and path checks modelled here.
- Unicode normalisation, case mapping and script detection: given functions.
- `EntryName::new`, folder tokens and digest suffixes: the entry name is modelled up to its validation.
- `CalendarText.RenderIcs`: stamps, UIDs and numbers arrive as text without line breaks.
- `days_to_ymd` beyond years a 32-bit result holds, and stamps after year 9999, where text order and time order part.
