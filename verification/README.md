# Verified models of the operations scripts

This project models, in Dafny, the crash-tolerant protocols of `scripts/` and three algorithms of
`work/morning_summary.py`, and proves what they promise. Run `dafny verify dfyconfig.toml` to check everything.
Nothing here runs the scripts: the models are read off their source, and outside parties (GitHub, systemd, Docker,
the clock, the disk) are answers that can be anything, fail, or never come. A turn, a cycle or a request takes all its
answers as an input (`Turn`, `Start`, `Request`), so its contract says on which of them it writes to the outside, and on
which it does not.

The scripts share one design: a durable intent is written before an external write, and an outcome that is not known
is reconciled by reading and never sent again. Three devices carry that design through the models.

- `Outcomes.Exec` is how a step ends: `Done`, `Raised` (an exception a caller may catch) or `Crashed` (the process is
  gone, no handler runs, only durable state survives). It propagates with `:-`, so a crash is possible at every
  statement that touches the outside.
- A save replaces the whole file or nothing and may fail before or after the replacement, so after a failed save the
  file may hold either content.
- Ghost fields count what was sent. The methods called `Runs` take any number of processes, each started from the
  durable state that the last one left, and say that these counts only grow.

| file | what it models |
|---|---|
| `RecoverySlots.dfy`, `LedgerFile.dfy`, `RecoveryReads.dfy`, `RecoveryLedger.dfy` | the schedule-recovery ledger: its slots, its file down to the byte, what its reads decide, and class `Ledger` with its memory copy and counters of posts |
| `CiReceipts.dfy`, `NpmWait.dfy`, `ApprovalSearch.dfy`, `SecurityDaily.dfy` | approval receipts, the bounded npm wait, the searches for a run to approve and a candidate to merge, the hourly cycle with its gates and failure handler: class `Controller` |
| `RebootHost.dfy` | the scheduler undo log, the reboot state, controller, watchdog and boot: class `Host` |
| `Dependencies.dfy`, `FixRules.dfy` | the dependency fixer, what it comes to told from the advisories alone, and the acceptance of its candidates |
| `ScanReports.dfy`, `ReportMeaning.dfy`, `Remediation.dfy`, `ImageSpecs.dfy`, `TrivyScan.dfy` | consumer and producer of the scan report, what its rows mean, and the rebuild trigger |
| `JsArray.dfy` | the bracket scanner |
| `PdfStreams.dfy`, `SimplePdf.dfy`, `PdfReader.dfy`, `PdfRoundTrip.dfy` | the PDF writer, a reader of its own after ISO 32000-1, and the round trip |
| `Expenses.dfy` | the expense table |
| `Outcomes.dfy`, `Text.dfy`, `Sequences.dfy`, `Ordering.dfy`, `Decimals.dfy` | shared vocabulary |

## Where the code does less than its documentation says

Each of these is stated with the condition under which the code does meet the promise.

- The ledger refuses a file above 8 MB or 50000 entries when it loads but looks at neither when it saves. A saved file is
  accepted again if and only if it is within both limits (`RecoveryLedger.Ledger.Load`, `RecoveryLedger.Ledger.Runs`). For
  entries of today's workflows the size decides alone and 50000 is never reached (`LedgerFile.SizeDecides`); of the
  shortest entries there are, a ledger loads again if and only if it has at most 34952 (`LedgerFile.ShortestLoadsIff`).
- Entries of retired workflows are called history, but loading does not compare their keys with what they say. One that is
  stored under a key of today's workflows is treated like any entry of that key:
  `RecoveryLedger.RetiredEntryIsRewritten` is a held one that ends as skipped. Whatever workflow it names, an entry is
  safe from every process if and only if its key is no slot of today's workflows, or it is complete or skipped, or it
  speaks of a run without naming it: no run changes such an entry (`RecoveryLedger.Ledger.Runs`), and for every other one
  there are answers (`RecoveryLedger.MovableIff`) on which an acting turn changes it
  (`RecoveryLedger.Ledger.RecoverSlot`); a retired one has its turn while its key's slot is due
  (`RecoveryLedger.Ledger.Candidates`).
- When the boot check cannot take the lock it returns without restoring, and a later pause overwrites the receipt.
  The overwrite is safe if and only if no timer is still stopped (`RebootHost.SnapshotCoversIff`);
  `RebootHost.PauseOverUnrestoredReceiptLosesTimer` is a case that loses one. The model lets it happen and counts it: a
  pause loses exactly what is still stopped (`RebootHost.Host.Pause`), and only a cycle without the lock, past the
  cooldown, with a timer still stopped and on record can make such a pause (`RebootHost.Host.Controller`).
- The failure handler of the cycle starts from the report read at its beginning, so a wait for npm evidence recorded by
  the failing cycle is lost unless that report already agrees (`SecurityDaily.FailureKeepsAnchorIff`); a first wait whose
  cycle fails starts over (`SecurityDaily.FailedFirstWaitStartsOver`). The three-hour bound is over durable reports.
- The 24 hours between reboots are kept between the recorded request times. The commands follow their records, so two
  commands are 24 hours apart less the delay of the first (`RebootHost.CommandsADayApart`,
  `RebootHost.LateCommandShortensTheDay`). Once the cooldown has let a cycle through, a full day is certain if and only if
  the cycle began a day after the previous command (`RebootHost.FullDayIff`).
- The window of 20 to 80 minutes is closed on both sides and the clock is cut to whole seconds, so no slot is missed if
  and only if consecutive stamps are at most 3601 seconds apart (`RecoverySlots.NoSlotMissedIffGapFits`).
- A report may say "complete" and still be refused: what `build_report` makes is accepted if and only if it was built
  as a production report, with the dead-man attested, from scans that all worked, under different labels, with nothing
  blank in them (`TrivyScan.BuildReport`).
- The PDF's cross-reference rows have twenty bytes exactly below ten thousand million
  (`PdfRoundTrip.RowWidth`), so the round trip is stated for files up to that size. A carriage return in a line would be
  read as a line feed (`PdfStreams.NormalIff`); the writer's own lines hold none (`PdfStreams.TextLinesHoldNone`).

## Model

| member | source | states |
|---|---|---|
| RecoverySlots.Slots | scripts/c3po_workflow_schedule_recovery.py:95-109 | the result holds exactly the slots that validation accepts and whose age is 20 to 80 minutes, each once, across day and weekday boundaries |
| RecoverySlots.SlotsOfDay | scripts/c3po_workflow_schedule_recovery.py:99-108 | one pass of the loop finds exactly the due slots of that local day |
| RecoverySlots.DaySlots | scripts/c3po_workflow_schedule_recovery.py:112-121 | the slots accepted on a local day are the two daily ones and, Monday to Friday, the export |
| RecoverySlots.WeekdayMeans | scripts/c3po_workflow_schedule_recovery.py:105-108 | the weekdays are counted from Monday: the first day of 1970 was a Thursday, and the days go round |
| RecoverySlots.WindowSpansTwoDays | scripts/c3po_workflow_schedule_recovery.py:99-100 | looking at today and yesterday is enough |
| RecoverySlots.NoSlotMissedIffGapFits | scripts/c3po_workflow_schedule_recovery.py:38-39 | every timer sequence with gaps up to g sees the slot if and only if g is at most the window plus one second |
| LedgerFile.Measure | scripts/c3po_workflow_schedule_recovery.py:267 | the length of the file, whatever the order in which entries are added up |
| LedgerFile.EncodedSize | scripts/c3po_workflow_schedule_recovery.py:242-259 | a character takes as many bytes as JSON kept to ASCII writes for it: itself, a two-character or a six-character escape, or a pair of surrogates |
| LedgerFile.EntrySizeIsLength | scripts/c3po_workflow_schedule_recovery.py:242-259 | the size counted for an entry is the length of its JSON text, for every state, field, sign and character |
| LedgerFile.CheckFile | scripts/c3po_workflow_schedule_recovery.py:267-287 | any file of entries is accepted if and only if it is at most 8 MB and 50000 entries and every entry of today's workflows is under its own key, of a valid slot, with a full commit id and its run above the earlier ones |
| LedgerFile.AcceptedMeans | scripts/c3po_workflow_schedule_recovery.py:276-287 | an entry is accepted if and only if, unless it is of a retired workflow, it is under its own key of a valid slot, with forty hexadecimal digits, and its run is above the earlier ones where it speaks of one |
| LedgerFile.SizeDecides | scripts/c3po_workflow_schedule_recovery.py:267-273 | for accepted entries of today's workflows the whole file is accepted if and only if it is at most 8 MB, and then it has at most 34952 entries |
| LedgerFile.ShortestLoadsIff | scripts/c3po_workflow_schedule_recovery.py:267-273 | a ledger of n shortest entries is accepted if and only if n is at most 34952, so ledgers between that and 50000 are refused |
| RecoveryReads.CoveredMeans | scripts/c3po_workflow_schedule_recovery.py:221-239 | for the whole listing: uncovered if and only if every run keeps silent (an empty listing always is), covered if and only if the first run that does not stands for the slot, an error if and only if that run is an export of an ambiguous night; what a run says is stated apart from the scan |
| RecoveryReads.MaxId | scripts/c3po_workflow_schedule_recovery.py:411 | an upper bound of all listed run ids, 0 for none |
| RecoveryReads.CheckRows | scripts/c3po_workflow_schedule_recovery.py:206-218 | a listing is used whole, unchanged and in order, if and only if every row is well formed and no id repeats |
| RecoveryReads.Decide | scripts/c3po_workflow_schedule_recovery.py:382-411 | from the reads alone: a dispatch is decided if and only if acting is on and every read arrived and speaks for it (workflow active, two listings whose runs all keep silent, the same main before and after, the window open, no hold); planned if and only if not acting and the first listing is silent; covered if and only if a listing says so, the window is over or a hold is on |
| RecoveryReads.Matching | scripts/c3po_workflow_schedule_recovery.py:298-300 | exactly the listed runs that answer the request |
| RecoveryReads.MatchingCounts | scripts/c3po_workflow_schedule_recovery.py:298-306 | none is found if and only if no listed run answers, exactly one if and only if one place of the listing does, and then that run |
| RecoveryReads.CommentsCount | scripts/c3po_workflow_schedule_recovery.py:321-330 | the same of the notices among the listed comments |
| RecoveryReads.MissedScheduleIsDispatched | scripts/c3po_workflow_schedule_recovery.py:381-427 | the case the script is for: for every slot, with no entry, nothing listed and nothing in the way, the answers call for a dispatch |
| RecoveryLedger.MovableIff | scripts/c3po_workflow_schedule_recovery.py:366-448 | for every entry that is not complete, skipped or without the run it speaks of there are answers that move it, and for the others there are none |
| RecoveryLedger.SettledStay | scripts/c3po_workflow_schedule_recovery.py:361-370 | settled entries, and all under keys that are no slot of today's workflows, are the same at the end of any run |
| RecoveryLedger.TurnFollows | scripts/c3po_workflow_schedule_recovery.py:366-452 | a turn on one slot never moves the file's other entries backwards, even when memory was ahead of the file |
| RecoveryLedger.SendsOnce | scripts/c3po_workflow_schedule_recovery.py:366-427 | the dispatches a process makes are, slot by slot, one for each candidate whose answers call for it |
| RecoveryLedger.Ledger.constructor | scripts/c3po_workflow_schedule_recovery.py:269 | without a file there are no entries, and nothing has been sent |
| RecoveryLedger.Ledger.WithFile | scripts/c3po_workflow_schedule_recovery.py:265-287 | any file of accepted entries is a place to start from |
| RecoveryLedger.Ledger.Load | scripts/c3po_workflow_schedule_recovery.py:265-287 | whatever file a run left, loading it succeeds if and only if it is at most 8 MB and 50000 entries, and gives memory the file's entries |
| RecoveryLedger.Ledger.Save | scripts/c3po_workflow_schedule_recovery.py:242-259 | the file is as memory if and only if the replacement is reached, even when the save then fails, and as before otherwise |
| RecoveryLedger.Ledger.PostDispatch | scripts/c3po_workflow_schedule_recovery.py:427 | the only dispatch request; its callers must show that the intent is in the file, that it is justified by reads, and that none was sent before |
| RecoveryLedger.Ledger.PostNotice | scripts/c3po_workflow_schedule_recovery.py:339 | the only notice request; its callers must show the intent in the file and that none was sent before |
| RecoveryLedger.Ledger.ConfirmRun | scripts/c3po_workflow_schedule_recovery.py:297-306 | the entry is confirmed if and only if exactly one listed run answers it, and with that run; with none or several nothing changes |
| RecoveryLedger.Ledger.SendNotice | scripts/c3po_workflow_schedule_recovery.py:338-345 | exactly one notice request, whatever the answers; it returns if and only if the posted comment came back with an id and this text and is listed |
| RecoveryLedger.Ledger.Announce | scripts/c3po_workflow_schedule_recovery.py:331-351 | the notice is sent if and only if the intent was saved and no hold came; acknowledged it ends as complete, else as unknown, and unsent back at run_confirmed |
| RecoveryLedger.Ledger.PublishNotice | scripts/c3po_workflow_schedule_recovery.py:317-351 | a notice is sent if and only if the entry is at run_confirmed, none is listed, no hold is on and the intent was saved; one that is listed, or sent and acknowledged, completes the entry in the file; only this entry moves, forward |
| RecoveryLedger.Ledger.Intend | scripts/c3po_workflow_schedule_recovery.py:412-425 | it goes on to the request if and only if the intent was saved, no hold came and the clock is still in the window; a hold leaves the entry held, a late clock skipped |
| RecoveryLedger.Ledger.Poll | scripts/c3po_workflow_schedule_recovery.py:433-435 | one poll confirms if and only if exactly one listed run answers, and goes on if and only if none does |
| RecoveryLedger.Ledger.PollAll | scripts/c3po_workflow_schedule_recovery.py:432-436 | the run is on record if one of twelve polls is the first to list the one run that answers |
| RecoveryLedger.Ledger.SendAndPoll | scripts/c3po_workflow_schedule_recovery.py:426-436 | exactly one request, the entry still shows that very request afterwards, and the run is on record if one of twelve polls lists it alone |
| RecoveryLedger.Ledger.Dispatch | scripts/c3po_workflow_schedule_recovery.py:381-436 | a request is sent if and only if acting and every answer, from the first read to the last look at the clock, speaks for it |
| RecoveryLedger.Ledger.Conclude | scripts/c3po_workflow_schedule_recovery.py:441-448 | an unanswered request ends as an error and, when acting, as unknown in the file; a confirmed one is counted and, when acting, announced exactly on the answers that call for it |
| RecoveryLedger.Ledger.Expire | scripts/c3po_workflow_schedule_recovery.py:372-378 | a held entry ends as skipped, in the file, if and only if acting finds its window over, unless the save fails; inside the window nothing changes |
| RecoveryLedger.Ledger.Start | scripts/c3po_workflow_schedule_recovery.py:381-448 | a slot without a usable entry gets a dispatch if and only if its answers call for it, and is planned if and only if not acting and the first listing is silent |
| RecoveryLedger.Ledger.Pursue | scripts/c3po_workflow_schedule_recovery.py:437-448 | a request or run on record is settled when exactly one run answers it or its notice is listed, and never sent again |
| RecoveryLedger.Ledger.RecoverSlot | scripts/c3po_workflow_schedule_recovery.py:366-448 | a dispatch is sent, and a turn planned, if and only if entry and answers call for it; planning writes nothing; a counted confirmation is on record; an entry at run_confirmed is announced exactly on the answers that call for it; on answers that move the entry an acting turn changes it in the file |
| RecoveryLedger.Ledger.TakeTurn | scripts/c3po_workflow_schedule_recovery.py:366-452 | a turn dispatches exactly as its answers say and keeps the invariant and the other entries, whatever memory it inherits from failed turns |
| RecoveryLedger.Ledger.NextTurn | scripts/c3po_workflow_schedule_recovery.py:366-452 | one round of the loop leaves the slots still to come as they were at the start |
| RecoveryLedger.Ledger.TakeTurns | scripts/c3po_workflow_schedule_recovery.py:366-452 | the loop dispatches exactly the slots whose answers call for it and plans as many as it counts, even when turns between them raise |
| RecoveryLedger.Ledger.CountTurn | scripts/c3po_workflow_schedule_recovery.py:366-452 | a turn is counted once, and one whose notice failed as confirmed and as an error |
| RecoveryLedger.Ledger.Candidates | scripts/c3po_workflow_schedule_recovery.py:361-365 | exactly the due slots and the unsettled entries of today's workflows, each once, all valid |
| RecoveryLedger.Ledger.Recover | scripts/c3po_workflow_schedule_recovery.py:354-453 | no exception escapes; a process that ends has dispatched exactly the candidates whose answers call for it and planned as many as it reports; covered, planned and errors together are at most the candidates, and with the confirmed at least that; entries only move forward; planning changes neither file nor outside; nothing under a key that is no slot of today's workflows changes; what was sent stays sent |
| RecoveryLedger.Ledger.EveryRunIsSafe | scripts/c3po_workflow_schedule_recovery.py:354-453 | the invariant means at most one dispatch and one notice per slot, none for a slot shown absent, held or skipped |
| RecoveryLedger.Ledger.Runs | scripts/c3po_workflow_schedule_recovery.py:354-453 | over any number of processes and crashes: at most one dispatch and one notice per slot, none while the file shows it unsent, what was sent stays counted and its request on record, settled entries and those under keys that are no slot of today's workflows never change, and the file loads again if and only if within both limits |
| RecoveryLedger.RetiredEntryIsRewritten | scripts/c3po_workflow_schedule_recovery.py:276-279 | a held entry of a retired workflow under a key of today's ends as skipped when its window is over |
| CiReceipts.ReconcileOne | scripts/c3po_security_daily.py:352-395 | a receipt is closed only on evidence, otherwise it is unchanged and marks the cycle; it never becomes free to be sent again |
| CiReceipts.ReconcileMeans | scripts/c3po_security_daily.py:352-395 | every way in which an unresolved receipt can be read: retired, observed, superseded, pending and both blocked outcomes, each if and only if pull request and run are so |
| CiReceipts.HistoryOkMeans | scripts/c3po_security_daily.py:473-486 | a history is accepted if and only if it has at most a hundred receipts, each of a run, an attempt, a full commit id and a pull request |
| CiReceipts.AdvancedKeepsBooks | scripts/c3po_security_daily.py:349-396 | reconciling keeps the accounts: every request on record, ids distinct, at most one unresolved |
| CiReceipts.IntentKeepsBooks | scripts/c3po_security_daily.py:436-443 | dropping an unsent receipt of the same identity and appending the intent keeps the accounts, and nothing was sent for that identity |
| CiReceipts.LastKeepsBooks | scripts/c3po_security_daily.py:455-466 | closing the newest receipt keeps the accounts, as not_sent only if nothing was sent |
| CiReceipts.SendingKeepsBooks | scripts/c3po_security_daily.py:458-462 | sending once for a recorded identity keeps the accounts |
| NpmWait.NpmStep | scripts/c3po_security_daily.py:565-614 | an audit of the current main clears the anchor; without one a stored anchor stays and a first one is set to now; it waits if and only if the audit is of an earlier main but otherwise in order, no repair failed, and less than three hours lie between the kept anchor and now |
| NpmWait.WaitIsBounded | scripts/c3po_security_daily.py:560-614 | over any chain of processes, failed and crashed ones included, two reports of a wait with no audit of the current main after the first are less than three hours apart and the anchor does not move, however often main does |
| ApprovalSearch.SearchRuns | scripts/c3po_security_daily.py:419-427 | the loop over the runs of a workflow: it stops at the first bound run whose identity is not closed, which it takes if nothing is on record but unsent intents, and goes on if and only if there is none |
| ApprovalSearch.SearchFlows | scripts/c3po_security_daily.py:412-427 | the same over the workflows, the first untrusted one of which blocks |
| ApprovalSearch.SearchPulls | scripts/c3po_security_daily.py:409-470 | the same over the open pull requests: which run is taken, and when nobody is left to approve |
| ApprovalSearch.SearchCandidates | scripts/c3po_security_daily.py:489-514 | a merge is asked for if and only if main is deployed, the branch protected, the pipeline idle and the first validated candidate has passed its tests, the branch rules and the last look at main; every other status if and only if its own look is the first in the way |
| SecurityDaily.LoggedWaitsAreShort | scripts/c3po_security_daily.py:560-614 | the same between any two processes of a run, given when they started and what each found of the audit |
| SecurityDaily.Controller.constructor | scripts/c3po_security_daily.py:778-779 | without a report on file nothing is on record, in wait or sent, and the invariants hold |
| SecurityDaily.Controller.WriteReport | scripts/c3po_security_daily.py:149-163 | the report file is replaced whole or not at all |
| SecurityDaily.Controller.Reconcile | scripts/c3po_security_daily.py:349-396 | every receipt ends as its own reading says, nothing else changes, and it reports neither error nor wait if and only if no receipt is left unresolved |
| SecurityDaily.Controller.PostApproval | scripts/c3po_security_daily.py:459 | the only approval request; its callers must show the intent for it last in the file and that none was sent before |
| SecurityDaily.Controller.ApproveRun | scripts/c3po_security_daily.py:428-469 | the request is sent if and only if the proof holds, the run is still bound, there is room, the intent is in the file and nothing changed at the last look; then file and report agree on its outcome, and otherwise the answer names what stood in its way |
| SecurityDaily.Controller.RequestApproval | scripts/c3po_security_daily.py:438-469 | from the recorded intent on: one request exactly when the last look is clear, an unsent one is written down as such, and a lost outcome stays on file as intent or unknown |
| SecurityDaily.Controller.ApproveCi | scripts/c3po_security_daily.py:399-470 | a request is sent if and only if the search ends at a run whose answers call for it; idle if and only if nobody is left to approve, and then nothing was written |
| SecurityDaily.Controller.Promote | scripts/c3po_security_daily.py:489-520 | a merge is asked for exactly when the first validated candidate may be merged, and only with no error, no wait and no unresolved receipt; "merged" only after it |
| SecurityDaily.Controller.Reboot | scripts/c3po_security_daily.py:701-705 | the reboot is counted exactly when the request gets as far as the command |
| SecurityDaily.Controller.ReconcileStep | scripts/c3po_security_daily.py:648-659 | afterwards an unresolved receipt is visible in the report as an error or a wait, even when reconciling raised; a history without unresolved receipts changes nothing |
| SecurityDaily.Controller.ApproveOrMerge | scripts/c3po_security_daily.py:710-730 | approval if and only if it is enabled and the search finds one, merge if and only if there is nobody to approve and a candidate may be merged; one of the two at most |
| SecurityDaily.Controller.Gates | scripts/c3po_security_daily.py:690-730 | each of the three writes is made if and only if its own gates are open: a reboot with no hold, no marker, no error, no wait, the host well, a reboot due and main deployed; approval or merge with no reboot due, the window open and no dispatch error; the status names the first gate that is closed; one write at most |
| SecurityDaily.Controller.SettleNpmWait | scripts/c3po_security_daily.py:680-683 | a wait that nobody was asked for becomes an error, any other report stays |
| SecurityDaily.Controller.Observe | scripts/c3po_security_daily.py:523-660 | the observed report shows the errors found, what the npm step concluded and every receipt in the air; with none in the air it is determined by the evidence |
| SecurityDaily.Controller.Act | scripts/c3po_security_daily.py:661-754 | the writes follow from the observed report and the answers, one at most; the anchor stays; healthy if and only if main is deployed and no error, wait or other blocker is left |
| SecurityDaily.Controller.Cycle | scripts/c3po_security_daily.py:523-754 | with no receipt in the air the three writes follow from the answers alone; one write at most, and none by a cycle that finds the host held, unwell or without its evidence; whatever reaches the file is a form of this cycle's report |
| SecurityDaily.Controller.RunOnce | scripts/c3po_security_daily.py:776-798 | a process keeps the accounts through its failure handler and leaves the anchor of before, or of this cycle and the audit it found |
| SecurityDaily.Controller.Process | scripts/c3po_security_daily.py:776-798 | every process is one entry of the log over which the npm wait is bounded, with the start and the audit it was given and the anchors in the file around it |
| SecurityDaily.Controller.Runs | scripts/c3po_security_daily.py:757-798 | over any number of processes: no run, attempt and commit approved twice, what was sent stays on record as other than not_sent, the history is accepted again, has at most one unresolved receipt and distinct identities, at most as many writes as there are processes that find the host free, well and with its evidence, and two reports of a wait with no audit of the current main after the first are less than three hours apart |
| SecurityDaily.FailureKeepsAnchorIff | scripts/c3po_security_daily.py:786-796 | the handler keeps the failing cycle's anchor if and only if the report of before agrees about waiting |
| SecurityDaily.FailedFirstWaitStartsOver | scripts/c3po_security_daily.py:786-796 | a first wait whose cycle fails starts over at the next one |
| RebootHost.SnapshotCoversIff | scripts/c3po_security_schedulers.py:43-54 | replacing the receipt by a snapshot is safe if and only if no timer is still stopped |
| RebootHost.SnapshotSpares | scripts/c3po_security_schedulers.py:43-54 | every active timer is recorded but the two of the routine itself |
| RebootHost.PauseOverUnrestoredReceiptLosesTimer | scripts/c3po_security_reboot.py:58-60 | a stopped timer that no receipt names any more |
| RebootHost.CommandsADayApart | scripts/c3po_security_reboot.py:109-111 | two reboot commands are a day apart less the delay of the first |
| RebootHost.LateCommandShortensTheDay | scripts/c3po_security_reboot.py:109-176 | two commands that a run can give and that are less than a day apart |
| RebootHost.FullDayIff | scripts/c3po_security_reboot.py:109-176 | whatever a cycle that passed the cooldown commands is a full day later if and only if the cycle began a day after the previous command |
| RebootHost.Host.constructor | scripts/c3po_security_reboot.py:65-66 | on a host where the routine never ran nothing is stopped, lost or commanded, and the invariant holds |
| RebootHost.Host.StartTimers | scripts/c3po_security_schedulers.py:31-32 | a failed start may have started some timers, never stopped any |
| RebootHost.Host.Overwrite | scripts/c3po_security_schedulers.py:52-54 | a snapshot replaces the receipt whole or not at all, and loses exactly the timers still stopped |
| RebootHost.Host.WriteReceipt | scripts/c3po_security_schedulers.py:34 | the receipt changes whole or not at all, and only to one that covers what is stopped |
| RebootHost.Host.Restore | scripts/c3po_security_schedulers.py:20-34 | a return leaves nothing stopped that a receipt covered, and it starts what the receipt names and nothing else; cron is signalled if and only if it still is the process of this boot's receipt; part-way it leaves a receipt to start again from; on a restored host it does nothing |
| RebootHost.Host.StopSchedulers | scripts/c3po_security_schedulers.py:55-68 | at every failure point what is stopped is on the receipt |
| RebootHost.Host.Pause | scripts/c3po_security_schedulers.py:43-71 | it returns if and only if every unit is known, the receipt is written and the stop and the signal succeed; then everything but the routine's own timers is stopped and recorded; a failure is undone or left recorded; only what was stopped before can be lost |
| RebootHost.Host.VerifyBoot | scripts/c3po_security_reboot.py:84-99 | the first check after the boot undoes the pause and records this boot |
| RebootHost.Host.RecordBoot | scripts/c3po_security_reboot.py:88-99 | this boot is on file as verified if and only if the host is well |
| RebootHost.Host.GiveUp | scripts/c3po_security_reboot.py:76-83 | a request that came to nothing is undone and marked failed |
| RebootHost.Host.BootCheck | scripts/c3po_security_reboot.py:64-99 | outside the fresh window a return leaves nothing stopped that is on record, and a request of this boot ends as failed, one of an earlier boot as verified or verifying; inside it nothing at all is touched; the request time is kept |
| RebootHost.Host.Command | scripts/c3po_security_reboot.py:172-176 | one command if and only if both markers are out, after its record |
| RebootHost.Host.RecordAndCommand | scripts/c3po_security_reboot.py:166-184 | a command is given if and only if the record is in the file and both markers are out; one that fails is on file as failed, with its markers gone |
| RebootHost.Host.RequestPaused | scripts/c3po_security_reboot.py:155-184 | the reboot is commanded if and only if the jobs are idle, the database is not busy, the window is open, and record and markers are out; each refusal if and only if its own look is the first in the way, and then neither state nor commands change |
| RebootHost.Host.RebootUnderLock | scripts/c3po_security_reboot.py:155-184 | a command only with all last looks clear, and with a pause that works exactly then; a refusal under the pause leaves nothing stopped that was not |
| RebootHost.Host.LookAround | scripts/c3po_security_reboot.py:102-136 | the looks before any lock: each refusal if and only if its own look is the first in the way, and none if and only if all are clear |
| RebootHost.Host.LookUnderLocks | scripts/c3po_security_reboot.py:137-154 | the locks and the looks under them, in the same way |
| RebootHost.Host.RequestFurther | scripts/c3po_security_reboot.py:137-184 | behind the first looks: a command only if everything speaks for it, and every answer is the one the looks call for |
| RebootHost.Host.Meanwhile | scripts/c3po_security_reboot.py:55-61 | watchdog checks and other events between two holds of the lock stop nothing and keep the request time; what is started is what the checks start, and nothing without a check |
| RebootHost.Host.RequestReboot | scripts/c3po_security_reboot.py:102-184 | a command only if every look, from the first to the last, speaks for it, and with a pause that works then always; every answer is the one the looks call for; within a day of the last request nothing at all changes; a refusal stops nothing; a timer is lost only if it was stopped and on record |
| RebootHost.Host.Controller | scripts/c3po_security_daily.py:701-705 | a reboot is commanded only behind open gates and with everything speaking for it; a cycle in the fresh window, with the lock or without, commands nothing and starts no scheduler: what is started is what the watchdog started between its steps, and nothing if it did not come by; a timer is lost only without the lock, past the cooldown, over an unrestored receipt |
| RebootHost.Host.CheckTimers | scripts/c3po_security_watchdog.py:30-61 | behind the hold: boot check, timers, and after a docker recovery the boot check again; in the fresh window of a request nothing is started or written |
| RebootHost.Host.StartGuarded | scripts/c3po_security_watchdog.py:40-46 | afterwards the guarded timers run, and if they all did nothing was started |
| RebootHost.Host.Watchdog | scripts/c3po_security_watchdog.py:18-61 | in the fresh window of a request it starts nothing; otherwise a finished check leaves its timers running and nothing stopped that is on record |
| RebootHost.Host.Runs | scripts/c3po_security_reboot.py:52-184 | over any interleaving of cycles, checks, boots and crashes, also between the steps of a cycle: what is stopped and not lost is in the unrestored receipt, requests are a day apart, commands stay on record and are at most as many as the cycles that everything spoke for, and receipts are overwritten, and so timers lost, at most as often as the sequence has cycles without the lock |
| Dependencies.CompatibleAlgebra | scripts/c3po_dependency_security.py:32-34 | compatibility is "greater and of the same series", and composes with the order |
| Dependencies.Prepare | scripts/c3po_dependency_security.py:77-134 | the loop computes the fold over the alerts |
| Dependencies.PreparedIsClosed | scripts/c3po_dependency_security.py:77-134 | closed form: each entry ends at the greatest fixed version that its first version could be raised to, or is untouched, and every applied alert is at or below it |
| Dependencies.NeverDowngradesNorLeavesSeries | scripts/c3po_dependency_security.py:77-134 | no version goes down, leaves its series or reaches the upper bound beside it |
| Dependencies.OrderDoesNotMatter | scripts/c3po_dependency_security.py:77-134 | alerts with the same members give the same files, in any order and number |
| Dependencies.NothingLeftFits | scripts/c3po_dependency_security.py:77-134 | none of the alerts can be applied to the result |
| Dependencies.PrepareReachesFixpoint | scripts/c3po_dependency_security.py:77-134 | a second pass changes no file, applies nothing and blocks every alert in order |
| Dependencies.EachBlockedForItsReason | scripts/c3po_dependency_security.py:132-133 | the reason of a blocked alert can be told from the first manifests |
| Dependencies.BlockedStaysBlocked | scripts/c3po_dependency_security.py:132-133 | a blocked alert is blocked again for the same reason |
| Dependencies.EveryAlertIsAccountedFor | scripts/c3po_dependency_security.py:80-134 | every alert is in exactly one of the two lists, both in order |
| Dependencies.CandidateIsAccepted | scripts/c3po_dependency_security.py:137-148 | a generated candidate is accepted if and only if it applies something |
| Dependencies.AcceptedCandidateOnlyRaises | scripts/c3po_dependency_security.py:137-148 | whoever made it, an accepted candidate raises each version only to the closed form |
| FixRules.FinalVersions | scripts/c3po_dependency_security.py:77-134 | where every entry ends, told from the first manifests and the advisories: at the greatest fixed version aimed at it that is later, of the same series and below the bound if there is one, and as it was if there is none |
| FixRules.GoalsAreReached | scripts/c3po_dependency_security.py:77-134 | no entry ends before a version that an advisory could raise it to |
| FixRules.FirstGoalIsApplied | scripts/c3po_dependency_security.py:102-128 | the first advisory that could raise an entry is applied |
| FixRules.ListsAre | scripts/c3po_dependency_security.py:80-134 | which advisories are reported as applied and which as blocked, each with its reason, without running the fixer |
| FixRules.PreparedTold | scripts/c3po_dependency_security.py:77-134 | files and both lists together |
| FixRules.AppliesSomethingIff | scripts/c3po_dependency_security.py:77-134 | something is applied if and only if some advisory could raise some entry |
| FixRules.AcceptedIff | scripts/c3po_dependency_security.py:137-148 | a candidate is accepted if and only if it has only known files, the receipt of exactly these advisories on this revision, something to apply, and the manifests as the advisories leave them |
| FixRules.FileOfMeans | scripts/c3po_dependency_security.py:91-128 | a file holds the entries that belong to it, as they are |
| ScanReports.FindingKeyInjective | scripts/c3po_container_remediation.py:197-213 | the sort key tells any two different findings apart |
| ScanReports.ReadFixable | scripts/c3po_container_remediation.py:95-120 | accepted if and only if labels are present and unique and every urgent row is well formed; returns all of them |
| ScanReports.TallyOccurrences | scripts/c3po_container_remediation.py:142-164 | one pass gives, by severity, what filtering the occurrences gives |
| ScanReports.CheckEvidence | scripts/c3po_container_remediation.py:138-188 | accepted if and only if rows are well formed, the urgent fixes agree with the declared ones as multisets, and every declared number is right |
| ScanReports.CheckAll | scripts/c3po_container_remediation.py:137-190 | the sums over the images are those of all occurrences together |
| ScanReports.ValidateReport | scripts/c3po_container_remediation.py:52-213 | accepted if and only if header, labels, rows and all counts agree; returns the totals and the findings in canonical order |
| ReportMeaning.OccurrenceRowIff | scripts/c3po_container_remediation.py:142-164 | an occurrence is well formed if and only if its fields hold more than blanks and its rating is one of five words |
| ReportMeaning.UrgentRowIff | scripts/c3po_container_remediation.py:101-120 | an urgent row likewise, with a fixed version and rated critical or high |
| ReportMeaning.ReadIs | scripts/c3po_container_remediation.py:142-164 | the finding read from a row is the one whose fields the row holds without blanks around them |
| ReportMeaning.EvidenceOkIff | scripts/c3po_container_remediation.py:138-188 | an image is consistent if and only if, finding by finding, its urgent list counts the urgent occurrences with a fix, and every declared number is a count of its rows |
| ReportMeaning.AcceptableIff | scripts/c3po_container_remediation.py:52-213 | a report is accepted if and only if header, labels, rows and declared numbers are what is demanded of them, told from the rows as they are written |
| ReportMeaning.WorkMeans | scripts/c3po_container_remediation.py:190-213 | how often every finding is named, and every count, as numbers of rows |
| ReportMeaning.WorkIsOrdered | scripts/c3po_container_remediation.py:197-213 | the findings come in the canonical order: the more urgent first, then field by field |
| Ordering.StringLeqIff | scripts/c3po_container_remediation.py:197-213 | the order of texts: a beginning comes first, else the smaller character where they first differ |
| Remediation.WorkIsTheFixableOccurrences | scripts/c3po_container_remediation.py:52-213 | on occurrence evidence the findings are exactly the occurrences with a fix, as a multiset, and the counts are theirs and sum to their number |
| Remediation.WorkIsCanonical | scripts/c3po_container_remediation.py:197-213 | two accepted reports with the same occurrences give the same list and counts, hence the same key |
| Remediation.TriggerSurvivesRearrangement | scripts/c3po_security_daily.py:262-270 | against a report with images and rows in any other order a trigger stands if and only if main has not moved and there is something to remedy, provided that report is dated and names its revision; if it is not or does not, the check fails instead of answering |
| Remediation.ValidatedMeans | scripts/c3po_security_daily.py:262-263 | there is one answer to what a report asks for, told from its rows, and the validation gives it |
| Remediation.StandMeans | scripts/c3po_security_daily.py:262-270 | a trigger stands if and only if the report is accepted, dated and named, its address and artifact are proper, and it is for production, of this main, and asks for exactly what the rows ask for; refused or without an answer exactly otherwise |
| Remediation.BuildTriggerMeans | scripts/c3po_container_remediation.py:248-291 | a trigger is written if and only if the report is dated and named, the address on the forge and the artifact named, and it repeats what it was given |
| ImageSpecs.Cut | scripts/c3po_trivy_scan.py:200 | the parts around the first separator, which the first does not hold; nothing if there is none |
| ImageSpecs.SpecOkIff | scripts/c3po_trivy_scan.py:198-202 | a specification reads if and only if its first equals sign has something before and behind it |
| ImageSpecs.OriginOkIff | scripts/c3po_trivy_scan.py:170-176 | an origin reads if and only if behind its label there are exactly two bars, with something before, between and behind them |
| ImageSpecs.LabelMeans | scripts/c3po_trivy_scan.py:200 | the label is what stands before the first equals sign |
| ImageSpecs.CheckSpecs | scripts/c3po_trivy_scan.py:197-207 | accepted if and only if every specification has a label and a reference, every origin a label and three parts, and every origin an image |
| TrivyScan.Enter | scripts/c3po_trivy_scan.py:66-106 | one vulnerability is listed with its own fields and filed under the severity that its text spells in letters of either case, or else as unknown |
| TrivyScan.RatedMeans | scripts/c3po_trivy_scan.py:66-72 | rated under a severity if and only if its text is that word in letters of either case, and as unknown if and only if it is none of the other four |
| TrivyScan.ListedHolds | scripts/c3po_trivy_scan.py:67-79 | a listed row carries the vulnerability's own id, package, versions and its result's target, or "unknown" where they are missing |
| TrivyScan.EnteredAsRated | scripts/c3po_trivy_scan.py:66-106 | filing a row by what it reads is filing the vulnerability by what it says |
| TrivyScan.Normalize | scripts/c3po_trivy_scan.py:56-122 | the one-pass lists and counts are those of the vulnerabilities of the input: each severity counts those whose text spells it, each urgent list holds theirs, every row carries its own |
| TrivyScan.NumbersTell | scripts/c3po_trivy_scan.py:64-122 | every number of a scan is the number of such vulnerabilities in the input |
| TrivyScan.ListsTell | scripts/c3po_trivy_scan.py:64-122 | every list of a scan holds the rows of such vulnerabilities, in canonical order |
| TrivyScan.UrgentListAgrees | scripts/c3po_trivy_scan.py:56-122 | the list of urgent fixes reads as the urgent fixes among the occurrences, as a multiset |
| TrivyScan.ScannedDeclares | scripts/c3po_trivy_scan.py:56-122 | every number an image declares is the one that its occurrences give |
| TrivyScan.EvidenceOkIffFilled | scripts/c3po_container_remediation.py:138-188 | a normalized image is accepted as evidence if and only if it lists nothing blank |
| TrivyScan.ScanAll | scripts/c3po_trivy_scan.py:210-217 | no error if and only if every scan worked, and then one image per scan, in order |
| TrivyScan.SumFixes | scripts/c3po_trivy_scan.py:218-223 | the declared totals are the sums over the images |
| TrivyScan.BuildReport | scripts/c3po_trivy_scan.py:186-248 | it refuses what cannot be read, and what it builds is accepted as a production report if and only if scope, dead-man, scans, labels and rows are in order |
| JsArray.FindArrayEnd | work/morning_summary.py:3836-3858 | the result is just behind the first bracket outside strings that evens out all brackets, and nothing if and only if there is none |
| JsArray.PrintedArrayIsFound | work/morning_summary.py:3836-3858 | scanning inverts printing: a printed nested array of strings and atoms is found to its exact end between any prefix and suffix |
| PdfStreams.SplitLinesParts | work/morning_summary.py:10731 | the lines with their ends are the text: no line holds an end, only the text's last line may go without one, and a carriage return with a line feed is one end |
| PdfStreams.SplitLinesIsUnique | work/morning_summary.py:10731 | there is no other way to part a text into such lines and ends |
| PdfStreams.LineEndsAre | work/morning_summary.py:10731 | the ten characters that end a line |
| PdfStreams.WrapLines | work/morning_summary.py:10730-10733 | the lines of the text in order, a blank one for each empty one, for any way of wrapping |
| PdfStreams.TextLinesHoldNone | work/morning_summary.py:10730-10733 | wrapping that brings in no carriage return leaves none |
| PdfStreams.SplitPages | work/morning_summary.py:10735 | the slices of 48 lines, one empty page for none |
| PdfStreams.PagesHoldTheLines | work/morning_summary.py:10735 | the pages put together are the lines |
| PdfStreams.EscapeReadsBack | work/morning_summary.py:10790-10791 | reading a literal string undoes the three replacements if and only if the text holds no carriage return, and else gives it with line feeds |
| PdfStreams.NormalIff | work/morning_summary.py:10790-10791 | reading changes a line if and only if it holds a carriage return |
| PdfStreams.PagesAsReadIff | work/morning_summary.py:10735 | the pages come back as they were if and only if no line holds a carriage return |
| PdfStreams.PageStream | work/morning_summary.py:10746-10752 | the loop builds the content stream of a page |
| PdfStreams.StreamShowsPage | work/morning_summary.py:10746-10752 | a content stream shows exactly the lines of its page, as the format reads their line ends |
| SimplePdf.PatchNamesParent | work/morning_summary.py:10767-10768 | the textual replacement sets the parent and changes nothing else |
| SimplePdf.BuildObjects | work/morning_summary.py:10737-10770 | each page, stream, tree and catalog is the object with the number by which the others refer to it |
| SimplePdf.WriteChunks | work/morning_summary.py:10771-10786 | the chunks are header, objects, table and trailer, and each row and startxref hold the lengths of what comes before |
| PdfRoundTrip.RowWidth | work/morning_summary.py:10780 | a row has twenty bytes if and only if its offset is below ten thousand million |
| PdfRoundTrip.JoinedStands | work/morning_summary.py:10773-10775 | every chunk stands at the sum of the lengths before it |
| PdfRoundTrip.EveryObjectIsFound | work/morning_summary.py:10772-10780 | the row of every number leads to "n 0 obj" and the object with that number |
| PdfRoundTrip.ContentsReadBack | work/morning_summary.py:10753-10755 | the declared Length is exact, whatever bytes the stream has |
| PdfRoundTrip.FileOpens | work/morning_summary.py:10776-10786 | startxref leads to the table, and the trailer names its size and the root |
| PdfRoundTrip.MakeSimplePdf | work/morning_summary.py:10729-10787 | a reader that knows only the format gets the pages, and together the lines, back from the written file, for every text and way of wrapping whose lines hold no carriage return |
| Expenses.Tally | work/morning_summary.py:2723-2756 | one exact item for each label that occurs, and both totals equal the sums over all counted transactions |
| Expenses.CountsMeans | work/morning_summary.py:2723-2748 | which transactions count, on which side and with which amount: not the holder's own money, spent, dated, and to come or within thirty days |
| Expenses.LabelMeans | work/morning_summary.py:2750-2751 | the label is the name of the top category, else of the category, else the transaction's own, else "Outros" |
| Expenses.UnlistedIsNothing | work/morning_summary.py:2752-2754 | a label without counted transactions has nothing to add |
| Expenses.RankedIsRanked | work/morning_summary.py:2756 | sorting ranks by total and keeps both sums |
| Expenses.Fold | work/morning_summary.py:2757-2768 | folding keeps the first seven rows and both sums |
| Expenses.Summary | work/morning_summary.py:2718-2768 | past and future totals are conserved for every input, at most eight rows, the shown categories are exact and no category left out is larger |

## Left out

- HTTP, GitHub, Docker, systemd, psql, file modes, symbolic links, fsync and locks held by other programs: answers that can be anything, and an atomic write that may fail.
- Time zones: a fixed offset of three hours west; the database of zones is not part of this model.
- Pagination, credentials, argument parsing and rendered texts.
- Ledger entries always have all their fields: an entry of a retired workflow that lacks some is not part of this model.
- SecurityDaily.Controller.Cycle: the evidence files, the deploy and image lag anchors and the scan requests are given from outside; scan requests are not among the three counted writes.
- SecurityDaily.Controller.ApproveCi: whether a pull request is eligible, a workflow trusted and a run bound is given from outside; fields of a receipt that nothing decides on (outcome, reason, observed status) are not kept.
- SecurityDaily.Controller.Reboot: that it gets as far as the command, and its answer, is given from outside; `RebootHost.Host.RequestReboot` says when it does.
- RebootHost.Host.RebootUnderLock: after a refusal the answer may still be an error, as ending the pause can fail; the refusals are therefore stated one way here and both ways in `RebootHost.Host.RequestPaused`.
- `proof_passed`, `_approval_pr`, `_approval_run`, `_replacement_ci_run`, the branch checks of `promote` and the escalation workflow: answers from outside.
- `maintenance_gate` (`Drain`) and `admission_coverage` are not part of this model; they can refuse a reboot at any time.
- RebootHost.Host.Watchdog: that it starts the daily service, and which containers its docker recovery starts, is left out; the second boot check behind the recovery is not.
- RebootHost.Host.Boot: counts boots instead of drawing identifiers, and which units come up is arbitrary.
- Manifest texts: overrides, package entries and requirement lines are structured entries; regular expressions and JSON are not part of this model.
- `normalize_alerts`, `npm_alerts`, `merge_alerts`, `verify_audit`, `verify_lock`: the fixer starts from the merged alerts, whose order does not matter.
- `stale_lane_decision`, `lane_ownership_problem` and the dry-run fixture: conjunctions of checks, each of which says no more than its own line.
- SHA-256 and JSON encodings: a seal is the body it was computed from, a key is the value that is hashed.
- Text outside ASCII: upper and lower case and blanks are those of ASCII, and a PDF character stands for its one byte of code page 1252.
- PdfRoundTrip.MakeSimplePdf: is about files of at most ten thousand million bytes, beyond which the format itself has no row for an offset; octal escapes are not known to the reader because the writer makes none, and `textwrap` is any function.
- JsArray.FindArrayEnd: does not model negative start positions, which Python counts from the end.
- Expenses.Summary: amounts are exact numbers, not floating point, and a date is a day number if it can be read.
- ScanReports.CheckAll: the source reads and counts the occurrences of an image in one loop, the model in two.
- TrivyScan.BuildReport: the origin fields that go unread into the report are left out.
- The rest of `work/`, the frontend and the Swift files.
