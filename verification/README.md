# Evidence store: verified models

This project models, in Dafny, the parts of the evidence store whose correctness
spans several operations, and proves what the code promises about them over
every input, every run and every reachable state. `dafny verify dfyconfig.toml`
checks all of it.

## What is modelled

* **Campaign attempts on the server** (`Drafts`, `CampaignServer`,
  `CampaignInvariants`, `CampaignTheorems`, `CampaignDecisions`,
  `CampaignClosing`, `CampaignStore`). Executions and attempts are rows with
  revision counters. Each request is one transaction under the execution's row
  lock, so each is one function from tables to tables and a reply;
  `CampaignStore` is the class whose methods perform it on the tables in place.
  The main results hold after any sequence of requests; `CampaignDecisions` and
  `CampaignClosing` say of each request exactly when it is accepted and what it
  then writes.
* **The offline journal and its synchronization** (`Journal`, `Sync`,
  `SyncInvariants`, `SyncSteps`, `SyncTheorems`, `SyncEdits`, `SyncOutcomes`,
  `SyncRecords`, `SyncConflicts`, `SyncLoss`, `SyncCompletions`, `SyncProgress`,
  `OfflineJournal`). Browser, server, network and colleagues form one transition
  system: requests and replies may be lost, a request may arrive late, the tab may
  stop between two writes, colleagues may do anything the server allows.
  `SyncProgress` says exactly which entries drain when nobody else writes to their
  attempt, and that no lost request or reply changes the answer.
  `OfflineJournal` is the class whose methods, including the draining loop of
  `synchronize`, perform sequences of those steps.
* **The verdict rules and their copy on the page** (`Drafts`, `Mirror`).
* **Attachments and the sweep** (`BlobSafety`, `BlobSweep`): reference rows and
  objects under a shared/exclusive advisory lock, in every interleaving.
* **Co-failure analytics** (`CoFailure`, `Clusters`, `GreedyCover`): bit matrix,
  union-find with path halving, greedy cover, over exact rationals.
* **The procedure parser and the image check** (`ProcedureParser`,
  `PackageImages`): line scanner with nested fences, against a left-to-right
  reading that gives every line boundary a mode.
* **Directory groups and roles** (`Directory`, `DirectoryWrites`, `DirectoryStore`).
* **Retention** (`Retention`) and **rate limiting** (`RateLimit`, `RateStore`).

Source functions whose loops or assignments change state are methods, proved
equal to a specification function; the theorems are lemmas about that function.

## Where code and documentation differ

* The page's completion check calls itself a mirror of the server's rules
  (`web/static/finalizationcheck.js:1-3`). It is not one for all drafts: the two
  languages trim U+0085 and U+FEFF differently, and `answers["constructor"]` is
  inherited by every JavaScript object. `Mirror.PageThenServer` and
  `Mirror.ServerThenPage` give, in terms of the draft, exactly when what one side
  lets through the other accepts too, and `Mirror.MirrorExact` exactly when the two
  agree; `Mirror.TrimsDiffer` and `Mirror.InheritedAnswer` give inputs on which they
  do not.
* `resolve` promises to preserve the local copy in an archive
  (`web/static/campaignoffline.js:289-305`). It archives the entry it resolves and
  not the one it lands on: when the conflicting attempt is also open on the device,
  with answers waiting in its queue or a completion waiting to be sent, those are
  overwritten. `SyncLoss.EditOverwritten` and `SyncCompletions.CompletionOverwritten`
  are such runs, for every package; `SyncLoss.LostForGood` shows that the answers do
  not come back. `SyncOutcomes.ResolveConservesIff`, `SyncLoss.UnsentKeptIff` and
  `SyncCompletions.CompletionStepIff` say exactly when saved answers and completions
  are lost, and `SyncCompletions.GuardedJournal` that a check of the device's own
  entries and archive before resolving would prevent both.
* The role documentation speaks of the union of three sources, each reconciled only
  against its own. The binding key has no source
  (`internal/store/scimgroup.go:349-353`), so a role granted by one source is not
  recorded for another, and an administrator's edit deletes every source's store-wide
  bindings (`internal/store/principal.go:138-143`). So a role the directory implies can
  be lost with the token that recorded it first (`Directory.SharedRoleLost`) or to an
  edit (`Directory.ImpliedRoleEdited`). `Directory.HeldAfter` states for every request
  which roles are held afterwards, and `Directory.KeptSinceWrite` that from a group
  write on an implied role stays held exactly as long as no login or edit of those two
  kinds comes.
* A `PATCH` adds before it removes (`internal/store/scimgroup.go:253-268`), in
  whatever order the request listed the operations. A `PATCH` that replaces the
  members is served as adding the new list and removing all current members
  (`internal/api/scimgroups.go:225-240`), so whoever was a member and is named again
  is removed: `Directory.ReplaceByPatch` states the result and when it is the requested
  one.
* A save is replayable only while its attempt and execution are open
  (`internal/store/campaign_attempt.go:94-120`): `CampaignTheorems.SaveReplay`.
* A close seals an attempt with the server's clock, and a completion queued with
  exactly that finish time is answered as if it had been the tester's own
  (`internal/store/campaign_close.go:122-127`): `CampaignTheorems.CloseAnswersFinalize`.
  `SyncRecords.ExactlyOnceSync` therefore excludes that coincidence, and
  `SyncOutcomes.DrainedCompletion` shows that nothing else needs excluding.

## Model

| member | source | states |
|---|---|---|
| `Procedures.ControlOf` | internal/campaign/draft.go:61-69 | the lookup filled block by block yields a declaration with that id from the procedure, and nothing only if no block has it |
| `Procedures.ControlOfUnique` | internal/campaign/draft.go:61-69 | with unique ids the lookup of a block's id is that block's own declaration |
| `Drafts.InitialAnswers` | internal/campaign/draft.go:33-41 | every initial answer is the default of an unbound field of that id, and every such default is among them |
| `Drafts.ValidateDraft` | internal/campaign/draft.go:43-80 | accepts exactly the drafts with a valid header whose every answer belongs to a control and fits it |
| `Drafts.ValidateFinalization` | internal/campaign/finalize.go:11-45 | the accumulating loop accepts exactly the finalizable drafts: context given, checks ready for the result, required answers for PASS, notes where something is missing, failed unexplained, errored or skipped |
| `Drafts.FinalizableIsHonest` | internal/campaign/finalize.go:11-83 | a finalizable PASS has every check PASS and every required unbound field answered |
| `Drafts.CloseAnswers` | internal/store/campaign_close.go:103-110 | filling in keeps every answer as it was, adds only NOT_EXECUTED for unanswered checks, and leaves no check unanswered |
| `Drafts.CloseNotes` | internal/store/campaign_close.go:111-114 | what was written before stays in front, the closing sentence comes last, and only a blank line stands between |
| `CampaignInvariants.StartKeeps` | internal/store/campaign_execution.go:206-273 | starting an attempt keeps the table invariant and only lets rows evolve |
| `CampaignInvariants.CreateKeeps` | internal/store/campaign_attempt.go:50-71 | so does creating one outside an execution |
| `CampaignInvariants.SaveKeeps` | internal/store/campaign_attempt.go:80-136 | so does a save |
| `CampaignInvariants.FinalizeKeeps` | internal/store/campaign_finalize.go:27-78 | so does a finalization |
| `CampaignInvariants.SetClosedKeeps` | internal/store/campaign_close.go:17-55 | so does closing or reopening |
| `CampaignInvariants.CloseUnfinishedKeeps` | internal/store/campaign_close.go:57-132 | by induction over the scenarios: each loop round keeps the tables valid, disposes only of this execution's open rows, and leaves each scenario done attempted and sealed |
| `CampaignInvariants.EvolvesTransitive` | internal/store/campaign_execution.go:198-204 | "revisions grow, equal revision means equal row, sealed rows and the records of executions at an unchanged revision stay" composes over steps |
| `CampaignInvariants.ApplyKeeps` | internal/store/campaign_execution.go:185-196 | every request keeps the tables valid and evolving |
| `CampaignInvariants.EveryRunValid` | internal/store/campaign_execution.go:185-196 | after any sequence of requests the tables are valid |
| `CampaignInvariants.EveryRunEvolves` | internal/store/campaign_execution.go:198-204 | any earlier state of a run evolves into any later one |
| `CampaignTheorems.FinalizedForever` | internal/store/campaign_finalize.go:27-118 | once sealed, in every continuation the row is the same, its revision is the finalized one plus one, and exactly one record is its own and agrees with its data |
| `CampaignTheorems.RevisionIdentifiesRow` | internal/store/campaign_attempt.go:121-131 | over a whole run a revision number never falls and names one row content |
| `CampaignTheorems.ClosedMeansComplete` | internal/store/campaign_close.go:17-132 | at most one open attempt per execution and procedure; while closed, every package procedure is attempted and every attempt sealed |
| `CampaignTheorems.NoSilentPass` | internal/campaign/finalize.go:11-83 | in every reachable state a PASS record has all checks PASS and all required answers, whether finalized or closed |
| `CampaignTheorems.CloseActsOnSnapshot` | internal/store/campaign_execution.go:138-183 | a close that succeeds at a revision acts on exactly the attempts and progress any reader saw at that revision |
| `CampaignTheorems.SameProgress` | internal/store/campaign_execution.go:160-183 | equal attempts have one progress line: count, draft, latest and result are determined |
| `CampaignTheorems.CloseOnlyAdds` | internal/store/campaign_close.go:57-132 | closing leaves sealed rows and other executions alone and disposes of open rows by adding outcomes, SKIPPED and notes |
| `CampaignTheorems.CloseAnswersFinalize` | internal/store/campaign_close.go:122-127 | an attempt sealed by a close answers a finalize at its last revision and the close's instant with success although its data were rewritten |
| `CampaignTheorems.ClosedRow` | internal/store/campaign_close.go:96-127 | each open row is sealed with its answers kept |
| `CampaignTheorems.FinalizeRetry` | internal/store/campaign_finalize.go:44-52 | after an accepted finalization and any further requests, a retry by anyone who may edit returns the same row exactly for the same revision and time, and conflicts otherwise |
| `CampaignTheorems.SaveReplay` | internal/store/campaign_attempt.go:94-122 | after an accepted save and any further requests, its replay by anyone who may edit changes nothing: it gets the same row while the execution is open and the row unchanged, and a conflict otherwise, as on every closed execution |
| `CampaignTheorems.SaveAcceptedIff` | internal/store/campaign_attempt.go:94-131 | a save changes the tables if and only if the work is open, the actor may edit, the operation is new, its base is the row's revision and its attachments are found |
| `CampaignDecisions.SaveWrites` | internal/store/campaign_attempt.go:120-136 | an accepted save writes the data, its operation and base, the editor and one revision more into that row, bumps its execution's revision, and changes nothing else |
| `CampaignDecisions.SaveOkIff` | internal/store/campaign_attempt.go:80-136 | a save request is answered with success if and only if it fits the open row as it is, or is the one the row saw last; a refusal or replay changes nothing |
| `CampaignDecisions.StartDecides` | internal/store/campaign_execution.go:206-273 | a start writes a row if and only if the execution is there and open, the id new, the procedure in the package and no attempt of it unfinished |
| `CampaignDecisions.StartWrites` | internal/store/campaign_execution.go:232-268 | the row then has the execution's repository, branch and revision, the actor as source, the scenario's type and metadata, the fields' defaults as answers and revision 1; only the execution's revision changes beside it |
| `CampaignDecisions.StartAnswers` | internal/store/campaign_execution.go:206-250 | otherwise the reply is the same attempt again, a colleague's unfinished one, or the refusal for the missing or closed execution, the taken id or the unknown procedure |
| `CampaignDecisions.CreateDecides` | internal/store/campaign_attempt.go:50-71 | a private attempt is written if and only if its id is new and the package has the procedure; what is written, and whose row a repetition returns |
| `CampaignDecisions.ExecutionDecides` | internal/store/campaign_execution.go:52-87 | an execution is written if and only if its id is new, its package exists and its context is given; it is open at revision 1 and no other row changes |
| `CampaignDecisions.FinalizeAcceptedIff` | internal/store/campaign_finalize.go:27-118 | a finalization changes the tables if and only if the actor may edit, the attempt is open at that revision, its execution is open, the finish time is set, the draft is finalizable, and the type and source that will be filed are valid |
| `CampaignDecisions.FinalizeWrites` | internal/store/campaign_finalize.go:80-176 | it then files one record with the draft's context, result, notes and answers, its own type, source and metadata or else the scenario's, the owner and the scenario's, and seals the row without touching its data; nothing else changes |
| `CampaignDecisions.FinalizeOkIff` | internal/store/campaign_finalize.go:27-78 | it is answered with success if and only if it is accepted now or repeats the revision and finish time of the accepted one |
| `CampaignClosing.SetClosedDecides` | internal/store/campaign_close.go:17-37 | a close or reopen succeeds if and only if its revision is the execution's, it turns the other way, and, for a close, the loop succeeds; a refusal changes nothing |
| `CampaignClosing.SetClosedWrites` | internal/store/campaign_close.go:38-46 | after success the execution is closed if and only if that was asked, by that actor at that instant, one revision on; other executions stay, and a reopen leaves attempts and evidence as they were |
| `CampaignClosing.ReopenAcceptsStarts` | internal/store/campaign_close.go:39-41 | after a reopen every procedure of the package can be started again under a new id |
| `CampaignClosing.LoopSucceedsIff` | internal/store/campaign_close.go:66-131 | the closing loop succeeds if and only if every scenario could be disposed of in the state the close found, though each turn changes the tables |
| `CampaignClosing.CloseSucceedsIff` | internal/store/campaign_close.go:17-131 | in every reachable state a close at the right revision of an open execution succeeds if and only if each unfinished attempt, and each row to be generated, becomes a valid draft that can be filed |
| `CampaignClosing.CloseAdds` | internal/store/campaign_close.go:80-131 | the loop's new rows are generated ones, one for each procedure nobody attempted, with the execution's context, the supplied outcomes and reason; its new records are skipped ones marked with the close |
| `CampaignClosing.CloseLeaves` | internal/store/campaign_close.go:17-131 | the same of the tables after an accepted close |
| `CampaignStoreObject.CampaignStore.SaveAttempt` | internal/store/campaign_attempt.go:80-136 | the statements in order have the specified effect and reply, and keep the tables valid |
| `CampaignStoreObject.CampaignStore.StartExecutionAttempt` | internal/store/campaign_execution.go:206-273 | likewise for starting, including replay and a colleague's open attempt |
| `CampaignStoreObject.CampaignStore.FinalizeAttempt` | internal/store/campaign_finalize.go:27-118 | likewise for finalizing, whose acceptance and effect `CampaignDecisions.FinalizeAcceptedIff` and `FinalizeWrites` state |
| `CampaignStoreObject.CampaignStore.SetExecutionClosed` | internal/store/campaign_close.go:17-55 | likewise for closing and reopening, whose acceptance and effect `CampaignClosing.SetClosedDecides` and `SetClosedWrites` state |
| `CampaignStoreObject.CampaignStore.CloseUnfinished` | internal/store/campaign_close.go:57-132 | the loop over scenarios computes the specified fold, or fails with nothing written |
| `CampaignStoreObject.CampaignStore.FillChecks` | internal/store/campaign_close.go:103-110 | the loop fills exactly the missing check answers |
| `CampaignStoreObject.CampaignStore.ProcedureProgress` | internal/store/campaign_execution.go:160-183 | one pass finds the attempt count, the open draft, and the latest sealed attempt with its result |
| `SyncInvariants.OtherKeeps` | web/static/campaignoffline.js:123-174 | whatever a colleague does leaves every journal entry consistent with the server |
| `SyncSteps.NextKeeps` | web/static/campaignoffline.js:101-305 | every step of device, network and server keeps the joint invariant |
| `SyncSteps.SaveTripKeeps` | web/static/campaignoffline.js:142-157 | so does a save with its reply, a refusal and the row fetched with it included; what it leaves of the entry is in `SyncProgress.SaveTripOutcome` |
| `SyncSteps.RefuseKeeps` | web/static/campaignoffline.js:165-173 | so does a refusal kept later, with no row or one fetched at any moment since |
| `SyncSteps.ResolveKeeps` | web/static/campaignoffline.js:291-305 | so does a resolution, even when the tab stops between its writes |
| `SyncTheorems.TraceInv` | web/static/campaignoffline.js:101-305 | the invariant holds at every moment of every run |
| `SyncTheorems.SavesAtMostOnce` | web/static/campaignoffline.js:142-157 | in no run does one journaled operation change a server row twice, on the same attempt or another |
| `SyncTheorems.SentOrigin` | web/static/campaignoffline.js:142-157 | every save on the wire was stamped by `synchronize` as the head of its queue, with the row in view, or chosen in `resolve` |
| `SyncTheorems.NoLostUpdate` | internal/store/campaign_attempt.go:109-131 | in every run, when a save of this device takes effect it replaces exactly the row the journal held when its base was stamped, or the conflicting row a `resolve` was shown; only a `resolve` with no recorded conflict has none |
| `SyncEdits.NextMoves` | web/static/campaignoffline.js:101-174 | while an edit waits unsent, a step leaves its entry's row as it was, confirms the creation as the derived draft at its first revision, or acknowledges the earlier save before it |
| `SyncEdits.EditReplacesWhatWasSeen` | web/static/campaignoffline.js:101-157 | in every run, when an edit takes effect it does so later, on its own attempt, and replaces the row the journal held when the edit was made, the untouched draft of an attempt the device started itself, or a row that saw this device's earlier save last: synchronizing never overwrites somebody else's intervening save |
| `SyncOutcomes.ResolveConservesIff` | web/static/campaignoffline.js:291-305 | a resolution keeps all saved answers if and only if it does not land on another entry whose newest answers are unarchived and either unstamped or a save the server has not taken |
| `SyncOutcomes.JournalConservation` | web/static/campaignoffline.js:109-122 | in every run, the last answers saved for each attempt stayed in its queue's tail, with the server or in the archive if and only if no resolution overwrote another queue; queues hold at most two operations and only the head is stamped |
| `SyncOutcomes.GuardedConservation` | web/static/campaignoffline.js:291-305 | if no resolution lands on another entry whose queue holds unarchived answers, no saved answers are ever lost |
| `SyncLoss.LandingCosts` | web/static/campaignoffline.js:299-303 | in every run, a landing on a queue with the attempt's last save keeps it if and only if the server had taken it, which it never had if the tail was unstamped |
| `SyncLoss.UnsentKeptIff` | web/static/campaignoffline.js:299-303 | answers waiting unstamped in another entry's queue survive a resolution onto it if and only if the device had archived them |
| `SyncLoss.LostForGood` | web/static/campaignoffline.js:299-303 | answers so overwritten never reach the server, a queue or the archive in the rest of the run |
| `SyncLoss.EditOverwritten` | web/static/campaignoffline.js:289-305 | for every package and every edit there is a run of seven steps that loses it |
| `SyncCompletions.CompletionStepIff` | web/static/campaignoffline.js:291-305 | a step keeps a completion, in its entry, with the server or archived, if and only if it is not a resolution that lands on the entry holding it while it is unarchived and unconfirmed |
| `SyncCompletions.CompletionConservation` | web/static/campaignoffline.js:252-259 | in every run, from the completing step on, the completion is kept all along if and only if no such resolution happens |
| `SyncCompletions.GuardedJournal` | web/static/campaignoffline.js:291-305 | if no resolution lands on another entry with unarchived answers in its queue or an unarchived completion, which the device can see beforehand, no saved answers and no completion are ever lost |
| `SyncCompletions.CompletionOverwritten` | web/static/campaignoffline.js:299-303 | for every package there is a run that drops a completion although no queue held answers and the server has no record |
| `SyncOutcomes.DrainedCompletion` | web/static/campaignoffline.js:158-164 | a confirmed completion leaves exactly one record with the tester's finish time, built from the completed answers if and only if no close had sealed the attempt before |
| `SyncOutcomes.CompletionOrigin` | web/static/campaignoffline.js:252-259 | every completion in a run was made by one completing step, covers the answers shown then, and nothing was saved for the attempt since |
| `SyncOutcomes.ClosureOrigin` | internal/store/campaign_close.go:122-127 | a record written by a close carries the instant of a close that happened earlier in the run |
| `SyncRecords.TraceSavesSent` | web/static/campaignoffline.js:142-157 | in every run, an attempt's last save is its own operation and, once sent, was sent with the saved answers |
| `SyncRecords.TraceRowsShow` | internal/store/campaign_finalize.go:80-118 | in every run, a row that saw an operation of this device last holds the answers it sent, open or sealed, unless a close sealed it |
| `SyncRecords.RecordReportsOperation` | web/static/campaignoffline.js:158-164 | the record of a drained completion reports the answers of the operation of this device that the row saw last, unless a close had sealed it |
| `SyncRecords.ExactlyOnceSync` | web/static/campaignoffline.js:123-174 | in every run, a drained completion has exactly one record, reporting the answers in view when the tester completed it; these are the last saved ones if that save still waited in the queue or is the operation the row saw last, and otherwise those of the resolution or earlier save it saw last, or somebody else's; provided no close happened at that very finish time |
| `SyncConflicts.LastOperationOrigin` | internal/store/campaign_attempt.go:121-131 | in every run, the operation a row shows as its last took effect at some step, on the base it shows |
| `SyncConflicts.SaveConflictCause` | internal/store/campaign_attempt.go:94-122 | in every run, a stamped save meets a conflict only if its attempt is sealed, its execution closed, or another operation took effect on the row since the revision it was based on |
| `SyncConflicts.FinalizeConflictCause` | internal/store/campaign_finalize.go:44-55 | in every run, a stamped completion meets a conflict only if the attempt was sealed otherwise, its execution is closed, or an operation took effect since; its own lost reply is none of these |
| `SyncConflicts.SealOrigin` | internal/store/campaign_finalize.go:80-118 | in every run, a sealed attempt was sealed by a finalization of it or by a close |
| `SyncProgress.SaveTripOutcome` | web/static/campaignoffline.js:142-173 | after an answered save the entry's error is set if and only if the server refused; otherwise the queue has lost its head and the row is the stored one with that head's answers; a conflict keeps the fetched row |
| `SyncProgress.CreateTripOutcome` | web/static/campaignoffline.js:126-141 | after an answered creation the error is set if and only if the attempt is not there as created and cannot be started; otherwise the row is the stored one and the queue is untouched |
| `SyncProgress.FinalizeTripOutcome` | web/static/campaignoffline.js:158-164 | after an answered finalization the error is set if and only if the server refused; otherwise nothing is pending and the row is the sealed one with the completion's finish time |
| `SyncProgress.CreateTripDrains` | web/static/campaignoffline.js:126-141 | whether an entry will drain is the same before and after an answered creation |
| `SyncProgress.SaveTripDrains` | web/static/campaignoffline.js:142-157 | the same for an answered save |
| `SyncProgress.FinalizeTripDrains` | web/static/campaignoffline.js:158-164 | the same for an answered finalization |
| `SyncProgress.CreateServed` | web/static/campaignoffline.js:126-127 | the same for a creation whose reply is lost |
| `SyncProgress.LateSaveDrains` | web/static/campaignoffline.js:154-155 | the same for a save whose reply is lost |
| `SyncProgress.FinalizeServed` | web/static/campaignoffline.js:158-162 | the same for a finalization whose reply is lost |
| `SyncProgress.FinalizeSettles` | web/static/campaignoffline.js:158-164 | an answered finalization without error leaves one more record, that of the sealed row, unless it was sealed under this completion before |
| `SyncProgress.CarriesSettled` | web/static/campaignoffline.js:123-165 | answers and completion carried through creation and saves end in the stored row and, with a completion, in one record made from it |
| `SyncProgress.KeepLocalDrains` | web/static/campaignoffline.js:289-305 | a resolution for the local answers archives the entry, queues exactly those answers on the chosen row, and they drain if and only if that row is still the stored one, the attempt is open to the user and the draft is valid |
| `SyncProgress.TakeRemoteDrains` | web/static/campaignoffline.js:289-305 | a resolution for the server's answers archives the entry and leaves the chosen row with nothing pending |
| `SyncProgress.RetryDrains` | web/static/campaignoffline.js:269-282 | a retried creation keeps identity, queue and completion and clears the error |
| `SyncProgress.GiveUpOutcome` | web/static/campaignoffline.js:283-288 | giving up a refused creation archives the entry and drops it |
| `SyncProgress.ConflictOutcome` | web/static/campaignoffline.js:307-319 | reloading a conflict keeps the entry and shows the row just fetched |
| `SyncProgress.BeginOutcome` | web/static/campaignoffline.js:230-250 | starting offline adds one entry, waiting to be created, over the draft the server would start |
| `SyncProgress.RememberOutcome` | web/static/campaignoffline.js:101-108 | a fetched row replaces an entry without pending work, whose version moves on exactly if the revision did; pending work and every other entry stay |
| `SyncProgress.SaveLocalOutcome` | web/static/campaignoffline.js:109-122 | an edit is queued last and unsent; stamped operations stay as they were sent, an unsent predecessor is superseded, and the rest of the entry stays |
| `OfflineJournalObject.OfflineJournal.Remember` | web/static/campaignoffline.js:101-108 | a pending entry wins over a fetched row, anything else is replaced: one step of the system |
| `OfflineJournalObject.OfflineJournal.Save` | web/static/campaignoffline.js:109-122 | accepted exactly for the current version of unfinished work; afterwards the local answers are the saved ones |
| `OfflineJournalObject.OfflineJournal.Complete` | web/static/campaignoffline.js:252-259 | accepted exactly for the current version; the completion covers the local answers of that moment |
| `OfflineJournalObject.OfflineJournal.DrainQueue` | web/static/campaignoffline.js:142-157 | the loop, uploads included, only takes steps of the system; with the attachments in place it never changes whether the entry will drain, whatever is lost; when nothing stops it the queue is empty, the answers in view and the completion are carried along and no record is filed |
| `OfflineJournalObject.OfflineJournal.Synchronize` | web/static/campaignoffline.js:123-174 | the whole procedure is a sequence of steps; with the attachments in place it never changes whether the entry will drain, whatever requests and replies are lost; with every exchange completed it ends drained, as `SyncProgress.Settled` spells out, if and only if that was so beforehand, and with a recorded error otherwise |
| `Mirror.FinalizationBlockers` | web/static/finalizationcheck.js:3-35 | the list of issues is empty exactly when no rule of the page blocks |
| `Mirror.PageThenServer` | internal/campaign/finalize.go:11-83 | a storable draft without blockers is finalized if and only if no consulted text is blank to the server alone and nothing required was overlooked by the page without notes |
| `Mirror.ServerThenPage` | web/static/finalizationcheck.js:3-35 | a finalizable draft shows no blocker if and only if no consulted text or reason is blank to the page alone |
| `Mirror.MirrorExact` | web/static/finalizationcheck.js:3-35 | page and server agree on a storable draft if and only if something blocks on both sides, or both or neither have something that blocks on that side alone, each said in terms of the draft's texts, answers and result |
| `Mirror.PlainTextAgrees` | web/static/finalizationcheck.js:3-35 | text without U+0085 and U+FEFF is trimmed alike |
| `Mirror.TrimsDecide` | internal/campaign/finalize.go:11-45 | as repository or as required notes, a text makes the two sides disagree exactly if the two trims do |
| `Mirror.TrimsDiffer` | internal/campaign/finalize.go:67-83 | U+FEFF and U+0085 are such texts |
| `Mirror.InheritedAnswer` | web/static/finalizationcheck.js:3-35 | an unanswered required field passes the page exactly if its id is the inherited name; the server refuses it |
| `BlobSafety.NextKeeps` | internal/store/blobref.go:67-91 | every step of every transaction, unlocked request or sweep keeps the invariant of objects, rows and locks |
| `BlobSafety.ReferencedObjectsStored` | internal/retention/sweep.go:26-73 | in every interleaving, at every moment, each digest in a campaign row, a draft row, or the part of a record that came from them is in the store |
| `BlobSafety.DisposalDropsNothing` | internal/store/campaign_finalize.go:100-111 | finalizing or closing moves, in one step, every draft reference and asset of every attempt concerned to its record, and nothing else changes |
| `BlobSafety.SaveRefersExactly` | internal/store/campaign_attempt.go:138-167 | a committed save leaves exactly the form's digests as draft rows, all stored, and other attempts' rows alone |
| `BlobSafety.CommitImportKeeps` | internal/store/campaign.go:47-150 | publishing a package, new or equivalent to a stored one, adds only rows whose objects are stored |
| `BlobSafety.SweepTakesOnlyOrphans` | internal/store/blobref.go:74-91 | a sweep deletes only objects of its batch that no campaign row, draft row or record reference named when it took the lock |
| `BlobSafety.QueryExact` | internal/store/blobref.go:38-65 | the reachability query returns exactly those of the asked objects that some campaign row, draft row or record reference names |
| `BlobSafety.NamedSurvives` | internal/store/blobref.go:67-91 | in every run, an object that is stored and named by any row when a sweep takes the lock is stored at every moment until that sweep ends |
| `BlobSafety.UnnamedMayGo` | internal/retention/sweep.go:39-52 | an object of the batch that no row named may be deleted at any moment of the sweep, and nothing else goes with it |
| `BlobSafety.LocklessWrites` | internal/store/blobref.go:112-131 | an upload stores its object, a record refers to exactly what it was filed with and goes with all its references, and nothing else changes |
| `BlobSafety.ImportGoesThrough` | internal/store/campaign.go:47-150 | while no sweep holds the lock an import can be run to its end, with its objects stored and its rows naming them |
| `BlobSafety.SaveGoesThrough` | internal/store/campaign_attempt.go:138-166 | so can a save whose objects are stored, leaving exactly those as the attempt's draft rows |
| `BlobSweep.Worker.Flush` | internal/retention/sweep.go:35-56 | one batch removes exactly those of its deletable objects that no campaign row, draft row or record names, and counts them |
| `BlobSweep.Worker.SweepBlobs` | internal/retention/sweep.go:26-73 | whatever others do between the batches, every listed object past the grace period is in exactly one batch, and each batch removes exactly those of its own that no row names in the state it found, and counts them |
| `BlobSweep.PassTakesOnlyOrphans` | internal/retention/sweep.go:35-56 | an object a pass deleted was named by no campaign row, draft row or record in the state its own batch found |
| `BlobSweep.UndisturbedPass` | internal/retention/sweep.go:26-73 | if nobody else acts meanwhile, a pass removes exactly the deletable objects, among those it looked at, that no row names |
| `Bitsets.CountMembers` | internal/analytics/cluster.go:106-114 | adding up the ones of the words counts the set |
| `CoFailure.NewMatrix` | internal/analytics/cluster.go:45-87 | tests and runs are the distinct ones, sorted; bit r of row t is set exactly if test t failed in run r |
| `CoFailure.Jaccard` | internal/analytics/cluster.go:106-114 | the word loop computes intersection over union of the two run sets |
| `Clusters.Find` | internal/analytics/cluster.go:143-149 | terminates, returns the root, and path halving leaves an acyclic forest with the same roots |
| `Clusters.UnionKeepsForest` | internal/analytics/cluster.go:151-159 | hanging one root under another merges exactly the two classes and stays acyclic |
| `Clusters.JoinSimilar` | internal/analytics/cluster.go:151-159 | after the pair loop two tests share a root if and only if a chain of pairs at or above the threshold links them |
| `Clusters.MeanSimilarity` | internal/analytics/cluster.go:184-191 | the loop over pairs computes the mean similarity of a group's pairs |
| `Clusters.CohesionRange` | internal/analytics/cluster.go:184-204 | which lies between 0 and 1 |
| `Clusters.ClusterTests` | internal/analytics/cluster.go:138-219 | the report is exactly the components of two or more tests, with their sizes, covered runs and cohesion, sorted and numbered |
| `Clusters.ClusteringUnique` | internal/analytics/cluster.go:161-219 | there is only one such report, so the map's iteration order does not show |
| `GreedyCover.Cover` | internal/analytics/cluster.go:242-296 | every step takes the first test of greatest positive gain with the right running total, and the steps cover every run |
| `GreedyCover.GainsDescend` | internal/analytics/cluster.go:242-296 | gains are positive and never increase; the running total is the size of the union so far |
| `GreedyCover.GreedyBound` | internal/analytics/cluster.go:233-241 | against any cover by k tests, after t steps uncovered times k^t is at most runs times (k-1)^t |
| `GreedyCover.CoverLength` | internal/analytics/cluster.go:233-241 | so a further step is taken only while k^t is at most runs times (k-1)^t |
| `Fences.SplitAfterIsLines` | internal/campaign/procedure.go:78-78 | splitting yields lines ended by their only newline, a last one without, and they concatenate to the source |
| `Fences.SplitJoin` | internal/campaign/package_files.go:134-134 | splitting a run of lines again gives the lines without newlines, and one empty rest if the run was ended |
| `Fences.ScanFence` | internal/campaign/procedure.go:210-223 | the scanning loop recognises exactly the opening fences |
| `Fences.FenceIgnoresReturn` | internal/campaign/procedure.go:200-228 | a carriage return left on the line changes no fence |
| `ProcedureParser.NextControl` | internal/campaign/procedure.go:118-142 | returns the next line that opens a control outside every fence, or blames the first malformed one |
| `ProcedureParser.ParseControl` | internal/campaign/procedure.go:144-163 | reads up to the first closing line, or names the line to blame |
| `ProcedureParser.ControlRegistry.Add` | internal/campaign/procedure.go:179-198 | refuses exactly a second binding, a repeated id or one control too many, changing nothing |
| `ProcedureParser.ParseProcedure` | internal/campaign/procedure.go:73-101 | accepts exactly the documents without a fault, as the tiling by markdown and controls; otherwise names the line of the first fault |
| `ProcedureParser.BlocksTileSource` | internal/campaign/procedure.go:73-171 | markdown texts and control lines, in order, are exactly the source |
| `ProcedureParser.ControlsDistinct` | internal/campaign/procedure.go:179-198 | no two controls share an id or both bind the result |
| `ProcedureParser.AcceptedUniqueIds` | internal/campaign/procedure.go:179-198 | accepted procedures have unique ids, as the draft rules assume |
| `ProcedureParser.ControlsExact` | internal/campaign/procedure.go:116-142 | a line starts a control block if and only if it opens one outside every ordinary fence |
| `ProcedureParser.ReadingUnique` | internal/campaign/procedure.go:73-101 | a document has one acceptable reading |
| `PackageImages.ValidateImageLine` | internal/campaign/package_files.go:152-167 | the shrinking loop accepts exactly the lines whose images are all inline and declared |
| `PackageImages.ValidateMarkdownImages` | internal/campaign/package_files.go:132-150 | a text passes exactly if every line outside its own fences does |
| `PackageImages.ValidateImages` | internal/campaign/package_files.go:120-130 | a procedure passes exactly if each markdown block does |
| `PackageImages.FenceAgreement` | internal/campaign/package_files.go:120-150 | the check accepts a parsed document if and only if every line the parser read as prose passes |
| `Directory.ReconcileHolds` | internal/store/scimgroup.go:326-359 | after reconciling, a person's roles are those of the other sources and the derived ones, nothing else |
| `Directory.ReconcileTouchesOnly` | internal/store/scimgroup.go:341-357 | other people's, other scopes' and other sources' bindings neither appear, disappear nor change |
| `Directory.ReconcileOneMore` | internal/store/scimgroup.go:333-359 | one person after the other is the same as all together |
| `Directory.ReconcileIdempotent` | internal/store/principal.go:313-340 | reconciling twice changes nothing more |
| `Directory.ServeKeeps` | internal/store/scimgroup.go:53-322 | every request leaves only directory grants implied by the groups as they then are |
| `Directory.NoStaleGrant` | internal/store/scimgroup.go:53-359 | so does every sequence of creates, replaces, patches, deletes, logins, role edits and provisionings |
| `Directory.WriteSettles` | internal/store/scimgroup.go:173-322 | after a group write everyone concerned holds the other sources' roles and what the groups imply |
| `Directory.RemovalRevokes` | internal/store/scimgroup.go:220-283 | somebody removed keeps a role if and only if another source or another group gives it |
| `DirectoryWrites.CreateWrites` | internal/store/scimgroup.go:53-86 | a create is done if and only if the name is free; somebody is then a member if and only if a listed SCIM id is theirs; name and external id are the requested ones and other groups stay |
| `DirectoryWrites.ReplaceWrites` | internal/store/scimgroup.go:173-218 | a PUT is done if and only if the group is there and the name free; the group is then exactly as requested, so whoever is not listed is out, and other groups stay |
| `DirectoryWrites.PatchWrites` | internal/store/scimgroup.go:226-283 | a patch is done if and only if the group is there and a new name free; a member afterwards is exactly who was in it or is added, and is not removed |
| `DirectoryWrites.DeleteWrites` | internal/store/scimgroup.go:290-322 | a deletion is done if and only if the group is there, and takes that group and no other |
| `DirectoryWrites.CreateSettles` | internal/store/scimgroup.go:53-86 | after a create a listed person holds a role if and only if another source recorded it or their groups, this one included, stand for it; everybody else holds what they held |
| `DirectoryWrites.ReplaceSettles` | internal/store/scimgroup.go:197-213 | after a PUT somebody in the group before or listed now holds a role if and only if another source recorded it, or their other groups, with this one if listed, stand for it |
| `DirectoryWrites.PatchSettles` | internal/store/scimgroup.go:253-276 | the same after a patch, for everybody in the group or named in the request |
| `DirectoryWrites.DeleteSettles` | internal/store/scimgroup.go:303-317 | after a deletion a former member holds a role if and only if another source recorded it or their other groups stand for it |
| `Directory.MembersStayKnown` | internal/store/scimgroup.go:390-426 | after any sequence of requests every group member can be named by a SCIM id |
| `Directory.ReplaceByPatch` | internal/api/scimgroups.go:225-240 | a patch that replaces the members leaves the requested users that were not members, which is the requested list if and only if none of them was a member already |
| `Directory.LoginDecides` | internal/store/principal.go:321-340 | after a login a role is held if and only if the token has it or another source had recorded it |
| `Directory.EditDecides` | internal/store/principal.go:131-159 | after an edit a role is held if and only if the edit names it |
| `DirectoryWrites.EditWrites` | internal/store/principal.go:131-159 | an edit records exactly the named roles as local ones for that person store-wide; every other binding stays, with its source |
| `DirectoryWrites.LoginWrites` | internal/store/principal.go:321-340 | a login records the token's roles nobody recorded, drops those an earlier token recorded and this one lacks, and leaves every other binding, with its source |
| `DirectoryWrites.ProvisionWrites` | internal/store/scim.go:86-149 | a new SCIM id comes to name the person, known ones keep their meaning, groups and bindings stay |
| `Directory.WriteGrantsImplied` | internal/store/scimgroup.go:333-359 | after a group write, everyone it concerns holds every role the groups imply |
| `Directory.HeldAfter` | internal/store/scimgroup.go:53-359 | for every request, person and role: held afterwards if and only if the request gives it, or it was held and the request does not take it |
| `Directory.ImpliedRoleKept` | internal/store/principal.go:131-159 | over any sequence of requests, a role held once and implied ever since is held all along if and only if no login or edit revokes it |
| `Directory.KeptSinceWrite` | internal/store/scimgroup.go:173-359 | so it is from any group write concerning the person on, held before or not |
| `Directory.SharedRoleLost` | internal/store/scimgroup.go:349-353 | on any table, a role a token recorded first goes with the next token that lacks it, though the directory was synchronized in between |
| `Directory.ImpliedRoleEdited` | internal/store/principal.go:138-143 | an edit that leaves it out takes away a role the groups still imply |
| `DirectoryStoreObject.Union` | internal/store/scimgroup.go:447-460 | each principal of either list exactly once |
| `DirectoryStoreObject.DirectoryStore.ReconcileRoles` | internal/store/principal.go:321-340 | delete and insert statements for one person compute the reconciliation |
| `DirectoryStoreObject.DirectoryStore.ReconcileScimRoles` | internal/store/scimgroup.go:333-359 | the loop over people computes it for all of them |
| `DirectoryStoreObject.DirectoryStore.SetMembers` | internal/store/scimgroup.go:390-404 | known users join, unknown ones are skipped, and the affected are returned once each |
| `DirectoryStoreObject.DirectoryStore.CreateGroup` | internal/store/scimgroup.go:53-86 | has the specified effect, or refuses a taken name with nothing written |
| `DirectoryStoreObject.DirectoryStore.ReplaceGroup` | internal/store/scimgroup.go:173-218 | likewise: the members are cleared, then set, then everybody in the group before or after is reconciled; `DirectoryWrites.ReplaceWrites` says who is then in it |
| `DirectoryStoreObject.DirectoryStore.PatchGroupMembers` | internal/store/scimgroup.go:226-283 | likewise, for everybody added, removed or remaining |
| `DirectoryStoreObject.DirectoryStore.DeleteGroup` | internal/store/scimgroup.go:290-322 | likewise, for the members it had |
| `DirectoryStoreObject.DirectoryStore.ReplaceRoles` | internal/store/principal.go:131-159 | the person's store-wide bindings become exactly the given roles, all local; scoped ones and other people's stay |
| `Retention.MatchesRule` | internal/retention/evaluator.go:77-85 | matches exactly if every field pattern does |
| `Retention.MaxAge` | internal/retention/evaluator.go:68-75 | the age of the first matching rule, or -1 if none matches |
| `Retention.PatternSees` | internal/retention/evaluator.go:44-64 | under each of the seven field names a pattern is put to the record's field of that name, under any other name to the empty text |
| `Retention.RuleIsConjunction` | internal/retention/evaluator.go:77-85 | a rule matches exactly if each of its patterns would on its own |
| `Retention.AgeReadsMentioned` | internal/retention/evaluator.go:66-85 | two records alike in the fields the rules mention meet the same first rule, whatever else differs |
| `Retention.AllSourceRefs` | internal/store/inheritance.go:95-111 | the set of joined keys of all declarations |
| `Retention.RefKeyExact` | internal/retention/worker.go:174-177 | with NUL-free repository names the joined key is equal exactly for equal pairs |
| `Retention.RefKeyDecides` | internal/store/inheritance.go:95-111 | a key stands for one pair if and only if neither part holds a NUL |
| `Retention.ProtectionExact` | internal/retention/worker.go:174-177 | a record is protected exactly if a declaration names its repository and revision |
| `Retention.KeptIff` | internal/retention/worker.go:112-137 | what a pass leaves is exactly what is pinned, protected, unmatched, kept forever or too young |
| `Retention.SurvivorsExact` | internal/retention/worker.go:99-177 | in terms of the declarations: a record survives a pass if and only if it is pinned, some declaration names its repository and revision, or its first matching rule is absent, keeps forever or has not been reached |
| `Retention.NextPage` | internal/store/evidence.go:466-515 | deletions behind the cursor leave the next page starting at the first unvisited record |
| `Retention.PageDeleted` | internal/store/evidence.go:448-458 | deleting a page's doomed records touches no record outside the page |
| `RetentionWorkerObject.RetentionWorker.VisitPage` | internal/retention/worker.go:109-148 | decides each record of a page and deletes exactly the doomed ones, counting them |
| `RetentionWorkerObject.RetentionWorker.ScanAll` | internal/store/evidence.go:462-518 | the keyset loop visits every record exactly once, in order, while its callback deletes |
| `RetentionWorkerObject.RetentionWorker.RunOnce` | internal/retention/worker.go:99-151 | given rules and declarations, visits every record exactly once, deletes exactly the doomed ones and reports their number |
| `RateLimit.ServeAlike` | internal/ratelimit/ratelimit.go:85-145 | one request gets the same decision with and without eviction, and the tables stay alike |
| `RateLimit.EvictionInvisible` | internal/ratelimit/ratelimit.go:128-145 | for every timed sequence of requests, dropping refilled buckets changes no decision |
| `RateLimit.WindowBudget` | internal/ratelimit/ratelimit.go:42-61 | over any stretch of requests, admissions plus remaining credit are at most burst plus refill |
| `RateLimit.RateBound` | internal/ratelimit/ratelimit.go:42-61 | in every window a caller gets at most burst plus rate times elapsed through, evictions or not |
| `RateLimit.CreditIsLeastSlack` | internal/ratelimit/ratelimit.go:42-61 | what a caller may still spend is, in every timed sequence, the least that any window ending now leaves of burst and refill |
| `RateLimit.AdmittedIff` | internal/ratelimit/ratelimit.go:34-61 | a request is let through if and only if its class is unlimited or no window ending with it would exceed burst plus refill, evictions included: nobody is refused without need |
| `RateLimit.BurstPasses` | internal/ratelimit/ratelimit.go:34-61 | a caller who has had fewer requests through than the burst is let through |
| `RateStoreObject.SweepRefilled` | internal/ratelimit/ratelimit.go:139-145 | keeps exactly the buckets that are not full when looked at |
| `RateStoreObject.RateStore.LimiterFor` | internal/ratelimit/ratelimit.go:85-120 | unlimited classes store nothing; otherwise the caller's bucket is there, made full if new, after a sweep if the table is large |
| `RateStoreObject.RateStore.Middleware` | internal/ratelimit/ratelimit.go:42-61 | decides and updates as specified |

## Left out

- HTTP handlers, routing, authentication, sessions, page rendering and blob URL signing: plumbing around the modelled operations.
- SQL text, JSON, YAML, tar and gzip: rows, answers and declarations are modelled as decoded; the parser takes the decoding of a declaration's body as a parameter.
- The source binding that a save's handler checks before the store is called (`internal/api/campaign_attempts.go:208-211`): a refusal that leaves the tables unchanged.
- The per-key rules for draft metadata (`internal/campaign/draft.go:82-106`): a draft carries whether its metadata pass them.
- Evidence expiry: the trigger that clears an attempt's data when its record is deleted is not part of the campaign model, whose records stay.
- Packages are fixed while a campaign run is considered; importing is modelled for attachments only.
- The execution event table and list queries: they record or show and decide nothing.
- Random identifiers do not repeat, and an object's digest is its name: taken for granted, as the code does.
- The class that sweeps lets others act between its batches; requests that take no lock, acting within a batch, are in the transition system only (`BlobSafety.SweepTakesOnlyOrphans`).
- A sweep's lock is taken to last until its callback returns; a database connection lost in the middle of a batch is not modelled.
- Plain evidence inserts take no lock and rely on the grace period: what they refer to is not covered by `BlobSafety.ReferencedObjectsStored`, and neither are digests named only by a scenario's default metadata.
- The annotation of `photo_uris` and `video_uris`: a form's references are given as a set of digests.
- The message texts of errors and of `reloadConflict`: only whether an error or conflict is recorded is modelled.
- The journal's attachment store (`retain`): an exchange carries whether the upload of a save's attachments succeeded, stopped or was refused, and whether the server finds them.
- Floating-point similarity: compared as exact rationals; test and run names are compared by rank, and the library's sort is modelled as insertion.
- Labels, rates and the Wilson bound: single expressions.
- Two directory writes at the same time: group and role requests are served one after the other, with a role map that does not change.
- The bootstrap grant and the creation of principals: only local bindings are inserted there.
- Rounding in the token bucket: tokens and times are reals, and each request is handled as a whole.
- Records inserted while a retention pass is under way, and a page size of zero.
- Answers are taken as decoded with exact keys: Go's decoder also accepts `Outcome` for `outcome`, the page does not, and the comparison of the two says nothing about such answers.
- SyncCompletions.GuardedJournal: one direction only, since the device cannot know whether the server took a stamped save or a completion; JournalConservation and CompletionConservation are exact.
- SyncRecords.ExactlyOnceSync: assumes that no close happened at the tester's finish time, since the server cannot tell the two apart.
- The look at the execution that `retryCreate` takes before it clears the error (`web/static/campaignoffline.js:273-274`): a retry while it is closed is modelled as one the server refuses again.
