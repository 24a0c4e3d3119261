# CCSync: proofs about publishing, installing, configuring and trusting

CCSync keeps one b-roll index on a NAS. A base rig publishes a new copy of it over the live one;
editors' machines are set up by a wizard; shell commands, group names and SSH trust tie the two
ends together. This project models the parts of it where a mistake loses rows, leaves a machine
half installed, or lets a word mean something else, and proves what they promise.

- **Publish** (`broll_index`, `drain`, `merge_spec`, `merge_steps`, `merge_theorems`, `live_index`,
  `conservation`, `reports`, `publish`, `renames`). Rows that editors ingested exist only in the live file.
  Export copies them into a bundle, the file is replaced by any other database, and apply merges
  the bundle back under new ids. `merge_spec` says without loops what one committed merge does;
  `live_index` runs it statement by statement, with a write allowed to raise anywhere, and is proved
  against it; `merge_theorems` and `conservation` prove what follows: the schema holds again at
  COMMIT, a second application changes nothing, nothing drained is lost, nothing published is
  disturbed, retries amount to one merge. `publish` puts the steps in order, each of which may fail,
  or may take effect and still be reported as failed. `renames` is the swap script and the rollback
  script, path by path.
- **The wizard** (`wizard_model`, `wizard_safety`, `wizard_runs`,
  `wizard_history`, `wizard`). One UI thread, workers that only put
  callbacks on a queue, pages with identity, and a computer that outlives every run. The invariant
  is proved for every sequence of events, `wizard_runs` says what follows for whole runs, `wizard_history` what must have happened for the wizard to
  be where it is, and `wizard` is
  the handlers and the pump as they run, proved equal to those runs.
- **The configuration file and the licence version** (`config_text`, `config_merge`,
  `config_meaning`, `config_theorems`, `ensure_config`, `texts`, `decimals`, `eula`).
- **Words and trust** (`shell_quote`, `markers`, `slugs`, `known_hosts`). Quoting is proved against
  the reading rules of IEEE Std 1003.1, Shell Command Language, sections 2.2.1 to 2.2.3 and 2.3.

`dafny verify dfyconfig.toml` checks everything. That the premises of the merge theorems can be met is
itself proved: `LiveFile.LiveIndex.Apply` without an exception commits, on every file that keeps its
schema, in a state that is such a merge.

## Where the code and its own words differ

The model follows the code. Each point is part of a contract or is a lemma.

- Exit 1 of a publish is said to mean that nothing was published, and the message of a failed swap that
  the live index is still in place. Both are false in exactly three families of refusals: the final
  clean-up refused (the new file is live, unmerged), a sidecar's rename refused once another file was
  set aside, and a way back refused, the last two mostly with no live file at all. The message is also
  printed when the script's answer is lost, whatever the script did
  (`SwapScript.FailureKeepsLiveExactlyWhen`, `SwapScript.Disk.SwapIn`, `Publishing.Nas.Publish`). The old
  files' content and the drained rows are kept in all of them.
- A failed `--apply-drain` says the live index is unchanged. That is so whenever the program's answer
  came back; a commit whose answer was lost is reported the same way (`Publishing.Nas.ApplyDrain`,
  `Publishing.LostAnswer`). Idempotence is what makes the retry safe.
- Escaping a value for TOML covers backslashes and quotes. A value with a control character is not a
  basic string afterwards (`EnsureConfig.TomlRoundTrip`).
- A published index older than the ingest tables takes no ledger at all, and the merge still commits
  and reports success (`Conservation.LedgerSurvivesExactlyWhenThereIsOne`).
- `--from-prev` naming the live file itself sets it aside and then fails
  (`SwapScript.Disk.Rollback`).
- The digest in a long group name is said to keep slugs apart. It does so up to digest collisions
  among long slugs, but every long slug's group is also the group of a short slug
  (`Slugs.LongNameIsAShortOne`).

## Model

| member | source | states |
|---|---|---|
| Drain.CollectItemVideos | server/broll_drain.py:122-124 | The ids it gathers are exactly the clips some item still points at, in whatever order the cursor gives rows. |
| Drain.CollectShareVideos | server/broll_drain.py:125-127 | The ids it gathers are exactly the clips of a share some batch archived into. |
| Drain.TakeDrain | server/broll_drain.py:105-167 | No live file, a live file older than the ingest tables, or the bundle of exactly the drained rows; every video's key goes along, drained or not. |
| Drain.ExportHoldsExactly | server/broll_drain.py:114-149 | From the rows alone: the bundle has exactly the clips an item points at or a batch archived into the share of, as they are, and the key of every clip. |
| Drain.ExportedChildrenExactly | server/broll_drain.py:150-153 | Of each of the four child tables the bundle has exactly the rows of the clips in it. |
| Drain.ExportedRestExactly | server/broll_drain.py:154-164 | Exactly those clips' vectors, exactly the roots of shares archived into or filed under a collection, and both ledgers whole. |
| Drain.DrainedItemsPointInside | server/broll_drain.py:117-164 | Every drained item's clip is among the drained clips, and its duplicate target is among the named keys. |
| Drain.DrainedVectorsBelong | server/broll_drain.py:157-160 | Every drained vector's own segment or transcript row is drained too, and belongs to the same clip. |
| Drain.ExportIsCoherent | server/broll_drain.py:117-164 | From any database that keeps its schema the bundle is closed over its pointers: duplicates, children, vectors, item clips and batches. |
| MergeSteps.MintOne | server/broll_drain.py:249-253 | Inserting one missing clip under the next rowid keeps the id map exact, traceable and one-to-one, and the unique index true. |
| MergeSteps.LiveKeyIsMapped | server/broll_drain.py:241-253 | A key that is live at any moment of the insert loop already has its bundle id mapped, so the insert never violates UNIQUE (share, rel_path). |
| MergeSteps.RepointOne | server/broll_drain.py:254-262 | One step of the second loop gives one inserted row its live duplicate target, or NULL, and leaves every other row, published or inserted, as it was. |
| MergeSteps.PointedMeansMerged | server/broll_drain.py:235-262 | After the second loop no inserted row holds a stale id: the videos table is the merged one. |
| MergeSteps.CarryOne | server/broll_drain.py:280-291 | Inserting one child of an inserted clip keeps the child id map exact and every earlier row as it was. |
| MergeSteps.MintedChildrenAreUnused | server/broll_drain.py:264-291 | No freshly minted child id is the key of any vector the file already holds. |
| MergeSteps.MoveOne | server/broll_drain.py:299-315 | So INSERT OR REPLACE into embeddings replaces nothing: each vector lands on an unused key, and two never on the same one. |
| LiveFile.LiveIndex.MatchKeys | server/broll_drain.py:222-233 | The id map before any insert holds exactly the bundle ids whose key is live, each mapped to that row. |
| LiveFile.LiveIndex.MergeVideos | server/broll_drain.py:235-262 | The two loops over videos: the table is the merged one, and the two counts add up to the bundle's clips. A write may raise at any point. |
| LiveFile.LiveIndex.MergeChildTable | server/broll_drain.py:268-291 | One child table: the rows of inserted clips are copied under fresh ids, nothing else changes. |
| LiveFile.LiveIndex.MergeChildren | server/broll_drain.py:264-291 | All four child tables, each with its own id map, and the count the report prints. |
| LiveFile.LiveIndex.MergeEmbeddings | server/broll_drain.py:293-315 | The vectors of inserted clips whose own row came across, re-pointed to it; the others are dropped; old vectors stay. |
| LiveFile.LiveIndex.MergeRoots | server/broll_drain.py:317-327 | INSERT OR IGNORE: published roots win; the count is the number of rows that appeared. |
| LiveFile.LiveIndex.MergeBatches | server/broll_drain.py:329-349 | INSERT OR REPLACE by uid: drained batches win, published ones under other uids stay. |
| LiveFile.LiveIndex.MergeItems | server/broll_drain.py:329-349 | The same for items, with both video pointers re-mapped or NULL. |
| LiveFile.LiveIndex.RunMerge | server/broll_drain.py:219-358 | Without an exception the statements between BEGIN and COMMIT make exactly one merge, and the report counts what happened; on a bundle with injective keys nothing but the outside world can raise. |
| LiveFile.LiveIndex.Apply | server/broll_drain.py:216-364 | All or nothing: a rollback leaves the file as it was at BEGIN, a commit is exactly one merge with a true report. |
| MergeTheorems.MapKeepsKeys | server/broll_drain.py:222-253 | Every bundle id in the map goes to the live row filed under the same (share, rel_path). |
| MergeTheorems.MapIsInjective | server/broll_drain.py:222-253 | Two bundle ids never map to one live id. |
| MergeTheorems.MapIsComplete | server/broll_drain.py:222-253 | The map has an id exactly when that id's key is live once the merge is done. |
| MergeTheorems.DuplicatesStayResolved | server/broll_drain.py:254-262 | Every duplicate_of in the merged file is NULL or an existing row. |
| MergeTheorems.ChildrenStayAttached | server/broll_drain.py:264-291 | Every child row belongs to an existing clip afterwards. |
| MergeTheorems.EmbeddingsStayAttached | server/broll_drain.py:293-315 | Every vector belongs to an existing row of its own clip afterwards, through the source word. |
| MergeTheorems.ItemsStayAttached | server/broll_drain.py:329-349 | Every item names an existing batch, and its pointers are NULL or existing clips. |
| MergeTheorems.MergeKeepsTheSchema | server/broll_drain.py:184-189 | The claim that the merge, run with foreign keys off, is correct at COMMIT: every foreign key and every UNIQUE key holds again, for every valid file and coherent bundle. |
| MergeTheorems.SecondMapIsTheFirst | server/broll_drain.py:222-253 | A second run rebuilds the first run's id map from keys alone. |
| MergeTheorems.MergeIsIdempotent | server/broll_drain.py:222-358 | Applying a bundle twice is applying it once: no row, no counter and not the search generation changes the second time. |
| Conservation.DrainedClipsSurvive | server/broll_drain.py:117-127 | For any valid old file and any valid replacement: every clip an item points at, or on a share a batch archived into, is in the merged file under its (share, rel_path). |
| Conservation.DrainedClipsLand | server/broll_drain.py:235-253 | Such a clip keeps the published row where there is one of its key; otherwise it has a new row whose columns are the table's: the old value where both schemas have the column, the table's default where only the new one does. |
| Conservation.NewClipsAreDrained | server/broll_drain.py:235-253 | Every row the merge added to videos is that of one such clip, and of no other. |
| Conservation.LedgerSurvives | server/broll_drain.py:329-349 | Every old item and its batch is there, column by column, and its clip pointer names the clip it named before; it is never nulled. |
| Conservation.LedgersHoldExactly | server/broll_drain.py:329-349 | The two ledgers row by row: the old file's, column by column, and of the published ones those whose uid it did not have, unchanged. |
| Conservation.GenerationCountsMerges | server/broll_drain.py:351-358 | The search generation moves by one if and only if a clip was inserted and the file keeps one; a missing one becomes 1. |
| Conservation.LedgerSurvivesExactlyWhenThereIsOne | server/broll_drain.py:334-338 | The exact condition: the ledger survives if and only if the published file has the ingest tables or there was nothing to carry. Otherwise it is dropped and the merge still commits. |
| Conservation.ArchivedSharesKeepARoot | server/broll_drain.py:317-327 | A share that was archived into, or filed under a collection, has a root afterwards if and only if the published file has share_roots; the published root wins where there is one, else it is the old one column by column. |
| Conservation.RootsHoldExactly | server/broll_drain.py:317-327 | Which shares have a root afterwards, exactly. |
| Conservation.DuplicatesAreResolved | server/broll_drain.py:254-262 | An inserted clip's duplicate pointer names the clip the old file's did, or is NULL when the merged file has no such clip. |
| Conservation.InsertedClipHasItsChildren | server/broll_drain.py:264-291 | An inserted clip ends with precisely its own children, one fresh row each, column by column. |
| Conservation.PublishedClipKeepsItsChildren | server/broll_drain.py:264-291 | A clip the published file already had keeps precisely its own children: nothing is doubled. |
| Conservation.VectorsFollowTheirRows | server/broll_drain.py:293-315 | A drained vector is in the merged file if and only if the published one has embeddings and the table of the vector's own row; then it is on the copy of that row, of the same clip, column by column. |
| Conservation.NewVectorsAreDrained | server/broll_drain.py:293-315 | Every vector the merge added is the copy of one vector of an inserted clip. |
| Conservation.VectorsPointByTheirWord | server/broll_drain.py:303-310 | The word segment names segments, any other word transcript_segments. |
| MergeReport.ReportCountsRows | server/broll_drain.py:212-213 | The printed report is how many rows each table gained; for the two ledgers, how many were written. |
| Conservation.ExportThenApplyIsIdentity | server/broll_drain.py:117-358 | Draining a file and applying the bundle to that same file changes nothing at all. |
| Conservation.RetriesAmountToOneMerge | server/publish_db.py:712-735 | Any sequence of attempts, rolled back, committed, or committed and reported as failed: with a commit among them the file equals one application, without one it is untouched. |
| Conservation.PublishedRowsSurvive | server/broll_drain.py:235-358 | Whatever the attempts, every published video, child, vector and share root keeps its id and its content. |
| Publishing.Nas.TakeDrain | server/publish_db.py:452-472 | An answer comes back exactly when the program ran and reported; a run that was not reported may still have written its bundle. |
| Publishing.Nas.ApplyBundle | server/publish_db.py:474-489 | A run that raises nothing merges, whether or not its answer comes back; the caller is told exactly of what was reported, and a failure whose answer came back changed nothing. |
| Publishing.PathsApart | server/publish_db.py:934-940 | The names a publish makes up from a time stamp never collide with the live ones or their sidecars. |
| Publishing.Nas.Swap | server/publish_db.py:934-954 | The swap step: which database the live path opens as, for every choice of refused commands and for an answer that is lost. |
| Publishing.Nas.Publish | server/publish_db.py:827-989 | One publish, its swap being the script of SwapIn: exit 1 if and only if something was refused or the script answered 1; exit 1 with the live files changed if and only if the script's refusals are of the families that do not keep them; the old files' content is always kept, the ledger always in the bundle first; exit 0 means the candidate is live with the drained rows merged, unless there was nothing to drain or the loss was allowed. |
| Publishing.RefusedEarlyExactlyWhen | server/publish_db.py:340-372 | Which publishes are refused before the NAS is touched, in the operator's flags and the world's answers, and that there is no other: a newer schema unless allowed, an older one only where the app does not step it, an unreadable one never, a shrink unless allowed. |
| Publishing.Nas.ApplyDrain | server/publish_db.py:712-735 | Exit 0 means merged. When the program runs and nothing raises, the rows are merged and exit 1 says exactly that its answer was lost; exit 1 with an answer leaves the file alone. |
| Publishing.LostAnswer | server/publish_db.py:724-733 | The input at which the message that nothing changed is false: for every live file and every bundle with a clip it lacks, a commit whose answer is lost ends in exit 1 and a changed file. |
| Publishing.Nas.PublishAndRetry | server/publish_db.py:961-983 | From a publish that put its candidate in place, any retries leave the candidate with the bundle in it at most once, exactly once when the last answer was 0; one clean retry is enough. |
| SwapScript.GroupsApart | server/publish_db.py:588-590 | Different names, none a sidecar's, give six different paths: what refusing a sidecar in --from-prev is needed for. |
| SwapScript.ExitCodesMean | server/install_dashboard_app.py:3724-3749 | What exit 0, 8 and 9 of the script say of its commands and of the files that were there. |
| SwapScript.FailureKeepsLiveExactlyWhen | server/publish_db.py:949-953 | The message that the live index is still in place is true of every failure but three families: the clean-up refused after the rename, a sidecar refused after another file was set aside, and a refused way back. |
| SwapScript.FailureLosesLiveFile | server/publish_db.py:949-953 | One input of each family, two of them with no live file left. |
| SwapScript.Disk.Rollback | server/publish_db.py:513-538 | For every choice of refused renames: the exit code, exactly; each database moves with its own -wal and -shm, no stale sidecar stays beside the restored one, and wherever the script stops no content is lost. Asked to restore the live file itself it leaves nothing live. |
| SwapScript.Disk.DoRollback | server/publish_db.py:627-690 | A sidecar's name is refused with nothing changed; otherwise everything Rollback promises, stopped runs and the live file naming itself included. |
| SwapScript.Disk.RollbackTwice | server/publish_db.py:513-538 | The same script with the two names swapped undoes it exactly when there was a live file; without one it refuses. |
| SwapScript.Disk.MoveGroup | server/install_dashboard_app.py:3708-3723 | Moving a database and its sidecars, for every choice of refused renames: when it succeeds, when nothing moved, and that no content is lost. |
| SwapScript.Disk.Exchange | server/install_dashboard_app.py:3741-3747 | The renames of the swap, for every choice of refused ones: the exit code, when the live files are where they were, when none is left, and that no content is lost. |
| SwapScript.Disk.SwapIn | server/install_dashboard_app.py:3724-3749 | The whole script, for every choice of refused commands: the exit code; the candidate is live and the old files kept when its rename goes through; the live files stay if and only if LiveStays says so; no live file is left if and only if LeavesNone says so; no content is lost and no other database is touched. |
| WizardModel.BreadcrumbRoundTrip | onboarding/steps.py:2708-2718 | The role written into the breadcrumb is the role read back. |
| WizardModel.OnlyRolesAreRead | onboarding/steps.py:2708-2718 | What follows the first colon is the role when it is base or editor; anything else names nobody. |
| WizardModel.CaseDoesNotMatter | onboarding/steps.py:2717-2718 | In capitals or not. |
| WizardSafety.WorkerStepKeeps | onboarding/onboard.py:1586-1790 | Each step of an install worker, in either role, keeps the invariant. |
| WizardSafety.PumpKeeps | onboarding/onboard.py:355-371 | Running any queued callback keeps the invariant. |
| WizardSafety.ReachableKeeps | onboarding/onboard.py:146-1790 | The invariant holds after every sequence of launches, clicks, thread steps, pumps, closes and crashes. |
| WizardSafety.OneInstallAtATime | onboarding/onboard.py:1425-1458 | Running install workers plus their waiting completions are one while installing and none otherwise, and the page is the install page that started it. |
| WizardSafety.OneSigninAtATime | onboarding/onboard.py:1020-1119 | At most one verification per page, one for the current page exactly when _verify_page is that page, and no privacy, install or finish page without a verified account. |
| WizardSafety.LateAnswersAreDropped | onboarding/onboard.py:1074-1084 | An answer for a page that has been left changes nothing but its own bookkeeping. |
| WizardSafety.InterruptedInstallIsRemembered | onboarding/onboard.py:246-264 | Whenever a clean slate has begun and no finish page has been reached since, its breadcrumb names that run's role and the next launch opens on it, in that role. |
| WizardHistory.LatestSlateIsOnDisk | onboarding/onboard.py:1477-1506 | In terms of the events alone, over any run: the latest clean slate whose breadcrumb could be written, with no finish page since, is on disk word for word, and the next launch opens on it as that role. |
| WizardHistory.CrumbChangesOnly | onboarding/steps.py:2636-2655 | Only the start of a clean slate writes the breadcrumb and only the finish page removes it; failures, closes, crashes and launches leave it. |
| WizardHistory.SlateBegins | onboarding/onboard.py:1477-1506 | A clean slate that begins is on disk under its role if its breadcrumb could be written; if not, whatever breadcrumb there was stays. |
| WizardHistory.FinishIsEarned | onboarding/onboard.py:1586-1712 | Over any run: the finish page is on screen, or about to be, only if that launch's worker made its last step successfully, after a clean slate that was carried out. |
| WizardHistory.WorkerHandsOver | onboarding/onboard.py:1676-1712 | Any failed step of a worker queues the failure and leaves the breadcrumb; the successful last one queues the finish page; the others queue nothing. |
| WizardHistory.WorkerGoesOn | onboarding/onboard.py:1586-1712 | A step that succeeds takes a worker to the next stage under its own role; only the clean slate touches the computer, whether it succeeds or not. |
| WizardHistory.CompletionsDoAsTheySay | onboarding/onboard.py:1776-1794 | A failure hands the page back and changes nothing else; the finish callback shows its page and takes the breadcrumb away. |
| WizardHistory.AccountIsAcceptedFirst | onboarding/onboard.py:1057-1117 | Over any run: nobody is past the sign-in page unless the dashboard accepted a sign-in of that launch. |
| WizardHistory.AddressIsCheckedFirst | onboarding/onboard.py:729-778 | Over any run: nobody is past the role page unless an address was checked and accepted in that launch. |
| WizardHistory.AnswerOnItsOwnPage | onboarding/onboard.py:1074-1117 | On its own page an accepted sign-in leads to the privacy page and a refused one keeps the page. |
| WizardHistory.LaunchOpens | onboarding/onboard.py:246-264 | A launch starts from the computer alone: the interrupted page if there is a breadcrumb, else the licence until it is accepted, then the welcome page. |
| WizardHistory.PressesStartExactlyWhen | onboarding/onboard.py:1425-1458 | When INSTALL, VERIFY and NEXT start a thread, which one, and that otherwise they change nothing. |
| WizardHistory.ClosingAsksExactlyDuringAnInstall | onboarding/onboard.py:429-455 | The window closes unless an install runs and the answer is no; the computer keeps what it has. |
| WizardHistory.ButtonsLeadWhere | onboarding/onboard.py:319-345 | For every page, exactly which pages have a button to it: none leads onto or off the finish page, BACK leaves the install page only while nothing installs, and following one changes the page alone. |
| WizardSafety.RecordedBeforeTouched | onboarding/onboard.py:1477-1506 | The computer is touched only by a worker whose own breadcrumb went down before. |
| WizardRuns.RefusalsTouchNothing | onboarding/onboard.py:1586-1599 | Over any run, from the press of INSTALL up to and including the pump of that attempt's refusal: the machine is untouched, the page is still that install page, and it can be pressed again once the flag falls. |
| WizardRuns.DrainSettles | onboarding/onboard.py:355-371 | Draining the queue leaves an install running exactly when its worker still is. |
| WizardRuns.InstallEnds | onboarding/onboard.py:1586-1790 | Over any run an install takes at most four steps of its worker; after them the worker is gone and draining the queue lowers the flag. |
| Wizard.OnboardWizard.Start | onboarding/onboard.py:246-264 | A launch opens on the interrupted page if there is a breadcrumb, in its role, else on the licence or past it. |
| Wizard.OnboardWizard.OnRoleNext | onboarding/onboard.py:729-778 | One address check at a time, started for the role on the radio. |
| Wizard.OnboardWizard.OnVerify | onboarding/onboard.py:1020-1057 | A second press on the same page starts nothing; otherwise one request for this page. |
| Wizard.OnboardWizard.OnBeginInstall | onboarding/onboard.py:1425-1458 | One worker at a time, none after a refusal. |
| WizardRuns.RoleAnswerMovesOnExactlyWhen | onboarding/onboard.py:759-774 | An answered address check leaves the page if and only if it is a role page, unedited, of the same role, and not refused; it disturbs no sign-in, no install and nothing on the computer. |
| WizardRuns.OneRoleCheckAtATime | onboarding/onboard.py:742-752 | Over every run: one address check while _role_checking is set, none otherwise. |
| WizardRuns.FinishIsFinal | onboarding/onboard.py:1784-1794 | Over every run: the finish page means no install, no breadcrumb and no open slate, and nothing but closing leads off it or changes the computer. |
| Wizard.OnboardWizard.Drain | onboarding/onboard.py:355-371 | Every queued callback, first in first out, each on the fields as they are at its turn; afterwards the queue is empty and an install is running exactly when its worker is. |
| Wizard.OnboardWizard.RunThread | onboarding/onboard.py:373-388 | A worker's step changes the threads, the queue and the machine, never the page. |
| Wizard.OnboardWizard.RunWorker | onboarding/onboard.py:1586-1774 | Workers plus waiting completions stay the same number; a completion is queued exactly when the step ends the worker; each step uses up one of the worker's four. |
| Wizard.OnboardWizard.OnCloseRequest | onboarding/onboard.py:429-455 | Free except during an install, where closing needs a yes. |
| Wizard.OnboardWizard.Run | onboarding/onboard.py:146-1790 | Any sequence of events, each through its handler, ends in the state the theorems over runs speak of. |
| ConfigText.AssignsOneKey | onboarding/steps.py:3673-3677 | A line assigns at most one bare key, so which waiting key is tried first cannot matter. |
| ConfigMeaning.AssignmentShape | onboarding/steps.py:3675 | White space, the key, white space, an equals sign: such a line assigns the key what follows. |
| ConfigMeaning.OnlyThatShapeAssigns | onboarding/steps.py:3675 | And no other line does. |
| ConfigMeaning.UnsetExactlyWhen | onboarding/steps.py:3639-3649 | A key read as `key = literal`, with or without a comment, is unset if and only if the literal is an empty string in either quotes. |
| ConfigMeaning.BareKeyTakesTheNextLine | onboarding/steps.py:3639-3644 | A key with nothing after its equals sign takes the next line that is not blank for its literal, whatever that line says; with no such line it is unset. |
| ConfigMeaning.BlankLiterals | onboarding/steps.py:3648-3649 | The blank literals are nothing at all and the two empty strings. |
| ConfigMerge.Seed | onboarding/steps.py:3667-3672 | The entries the loop collects are the forced ones and the defaults of keys that are absent or blank. |
| ConfigMerge.Overwrite | onboarding/steps.py:3673-3677 | The nested loops with the shrinking dictionary rewrite exactly the first assignment of every wanted key and leave exactly the keys nobody assigned. |
| ConfigMerge.Append | onboarding/steps.py:3678-3682 | A blank line where one is needed, the header, and the missing keys in order. |
| ConfigMerge.MergeConfigText | onboarding/steps.py:3652-3683 | The whole function equals its loop-free description, for every text and every pair of dicts. |
| ConfigTheorems.WantedIsSet | onboarding/steps.py:3654-3657 | The first line assigning each wanted key reads exactly `key = value` afterwards. |
| ConfigTheorems.OtherLinesStay | onboarding/steps.py:3654-3657 | Every line that is not some wanted key's first assignment keeps its place and its content. |
| ConfigTheorems.OtherKeysStay | onboarding/steps.py:3654-3657 | A key that is not set keeps its line, or its absence. |
| ConfigTheorems.NoKeyIsDoubled | onboarding/steps.py:3678-3682 | A line is added for a key exactly when no line assigned it, and then one. |
| ConfigMeaning.TailReads | onboarding/steps.py:3678-3683 | The added lines word for word: a blank one where needed, the installer's mark, one assignment for each key that had none. |
| ConfigMeaning.AddedInOrder | onboarding/steps.py:3681-3682 | In the order the keys are wanted in. |
| ConfigTheorems.WantedExactly | onboarding/steps.py:3659-3672 | A default is applied if and only if its key is not forced and was absent or blank. |
| ConfigTheorems.SetStaysSet | onboarding/steps.py:3639-3649 | A key with a value keeps its line and still counts as set, even where its literal runs on to the next line. |
| ConfigTheorems.MergeIsIdempotent | onboarding/steps.py:3652-3683 | Merging twice is merging once, with the defaults decided anew the second time. |
| EnsureConfig.TomlRoundTrip | onboarding/steps.py:3633-3636 | A TOML reader gets back exactly the value and stops at the closing quote if and only if the value has no control character but tabs; with one there is no string to read. |
| EnsureConfig.TomlIsNotBlank | onboarding/steps.py:3639-3649 | A value that is not empty is never mistaken for a blank one, even with a # in it. |
| EnsureConfig.BothAreDicts | onboarding/steps.py:3740-3815 | What a call forces and seeds names every key once, and only bare keys. |
| EnsureConfig.CallSets | onboarding/steps.py:3740-3815 | What one call forces and what it seeds, for every key there is, and that it names no key besides. |
| EnsureConfig.CallWrites | onboarding/steps.py:3740-3819 | The line one call leaves for any key: forced, seeded because unset, or untouched; a set key that is not forced stays set. |
| EnsureConfig.IdentityLines | onboarding/steps.py:3740-3744 | The lines of editor_name, dashboard_url and mode after a call, word for word. |
| EnsureConfig.RootLines | onboarding/steps.py:3766-3804 | The lines of local_root, canonical_prefix and remote, for a base rig and for an editor's machine. |
| EnsureConfig.SwitchLines | onboarding/steps.py:3762-3765 | Each privacy answer under its own key. |
| EnsureConfig.OtherKeysKeepTheirLine | onboarding/steps.py:3700-3702 | Every key the installer does not know keeps its line, or its absence. |
| EnsureConfig.EmptyStringIsUnset | onboarding/steps.py:3639-3649 | The empty string the installer writes counts as unset, so a later token is still taken. |
| EnsureConfig.DashboardTokenHistory | onboarding/steps.py:3746-3755 | After any calls the dashboard token is the last one that was not blank, else the file's own, else an empty string. |
| EnsureConfig.ReportTokenHistory | onboarding/steps.py:3756-3761 | The report token is the last one that was not blank or the file's own line: no blank ever erases it. |
| EnsureConfig.RemoteRootHistory | onboarding/steps.py:3805-3815 | A remote root that is set never changes again. |
| EnsureConfig.FirstRootStays | onboarding/steps.py:3805-3815 | The first editor run on a site that has a root sets it, for good. |
| EnsureConfig.RemoteHistory | onboarding/steps.py:3784-3804 | Without a name from the site, the remote's name on this machine is never replaced. |
| EnsureConfig.ConfigFile.EnsureConfig | onboarding/steps.py:3686-3819 | One call on the file: from its lines, or from the default text when it is missing or unreadable. |
| EnsureConfig.ConfigFile.Rerun | onboarding/steps.py:3686-3819 | Any number of calls in a row leave what the histories above describe. |
| Decimals.ReadShow | onboarding/steps.py:922-926 | A number written in decimal is read back as itself. |
| Decimals.ShownInTens | onboarding/steps.py:922-926 | Numerals are base ten: the tens, then the last digit. |
| Eula.EulaVersionTuple | onboarding/steps.py:916-927 | The loops compute the component numbers: split at dots, leading digits of each chunk, zero without any. |
| Eula.AtLeastMeans | onboarding/steps.py:930-933 | The padded comparison means: equal in every place, or larger in the first place that differs, whatever the lengths. |
| Eula.Total | onboarding/steps.py:930-933 | Of two versions one is at least the other. |
| Eula.Transitive | onboarding/steps.py:930-933 | At least is transitive. |
| Eula.Reflexive | onboarding/steps.py:930-933 | At least is reflexive. |
| Eula.BothWaysMeansSame | onboarding/steps.py:930-933 | Each at least the other means the same version, up to trailing zeros. |
| Eula.TrailingZerosDoNotCount | onboarding/steps.py:930-933 | Zeros added at the end change no comparison. |
| Eula.VersionRoundTrip | onboarding/steps.py:916-927 | A version written out is read back as the same numbers, so the order is numeric and not that of text. |
| Eula.SuffixDoesNotCount | onboarding/steps.py:920-926 | What follows a chunk's number is ignored. |
| Eula.NoNumberIsZero | onboarding/steps.py:920-926 | A chunk that does not begin with a digit is zero. |
| Eula.AcceptanceFile.Record | onboarding/steps.py:936-982 | After recording a version, exactly the wanted versions that are not empty and not above it are accepted. |
| Eula.AcceptanceFile.OlderIsAccepted | onboarding/steps.py:936-957 | Accepting a document accepts every older one. |
| Eula.AcceptanceFile.NothingIsAccepted | onboarding/steps.py:948-957 | Nothing is accepted without a record, without a version in it, or of a document that was not found. |
| Eula.AcceptedUpTo | onboarding/steps.py:936-957 | In numbers: a recorded version accepts a wanted one if and only if no first difference is in the wanted one's favour. |
| ShellQuoting.QuotedReads | server/common.py:898-900 | Wherever it stands outside quotes, a quoted value adds exactly the value to the word being read. |
| ShellQuoting.QuoteRoundTrip | server/common.py:898-900 | The shell reads a quoted value as one word, equal to it, with nothing to expand, for every value. |
| ShellQuoting.LineReads | server/common.py:809-895 | Every command line assembled from plain words, quoted values, double-quoted text, blanks and operators is read as exactly what was assembled. |
| Markers.WriteTakesTwoParses | server/common.py:861-869 | The write command is read twice, by the outer shell and by sh -c: printf gets the exact payload and the redirection the exact path. |
| Markers.ReadTakesTwoParses | server/common.py:831-835 | The read command is read twice: test and cat get the exact path, and a failed outer command is its own refusal. |
| Slugs.SlugifyIsValid | server/common.py:584-599 | Whatever slugify returns passes validate_slug and has no leading, trailing or doubled dash. |
| Slugs.SlugifyFailsExactlyWhenNothingIsKept | server/common.py:584-599 | It fails exactly on text without a letter or digit it could keep. |
| Slugs.SlugifyFixedPoints | server/common.py:584-599 | Its fixed points are exactly the tidy slugs. |
| Slugs.SlugifyKeepsEveryLetter | server/common.py:584-599 | The slug has exactly the letters and digits of the lower-cased text, in their order: only separators are lost. |
| Slugs.SlugifyTwice | server/common.py:584-599 | Slugifying twice is slugifying once. |
| Slugs.EitherSlash | server/common.py:591 | A path has one slug, whichever slash it is spelled with. |
| Slugs.ValidSlugs | server/common.py:776-794 | The valid slugs, character by character. |
| Slugs.GroupNameFits | server/common.py:433-451 | A group name exists for exactly the valid slugs; it begins with proj-, has slug characters only and at most 32 of them. |
| Slugs.ShortNamesAreInjective | server/common.py:433-443 | Slugs of at most 27 characters never share a group. |
| Slugs.LongNamesMeet | server/common.py:446-451 | Longer slugs share a group if and only if they share the readable head and the digest. |
| Slugs.GroupNameIs | server/common.py:433-451 | The name, outright: proj- and the slug while that fits, else the stretch of it that fits without its trailing dashes, a dash and the digest. |
| Slugs.LongNameIsAShortOne | server/common.py:446-451 | A long slug's group is also the group of one short slug, whatever the digest: injectivity ends at the length limit. |
| KnownHosts.SpellingsMeet | server/common.py:1367-1376 | Two (host, port) pairs share a spelling exactly when they are the same, or one host on port 22 is written like the other's bracketed form. |
| KnownHosts.SpelledAsOpenSshDoes | server/common.py:1367-1376 | The spelling, outright: the bare host on port 22, [host]:port on any other. |
| KnownHosts.SpellingIsInjective | server/common.py:1367-1376 | So without a leading bracket in host names the spelling tells every pair apart. |
| KnownHosts.SshTrust.KnownHostKey | server/common.py:1436-1458 | The first key recorded under the spelling, or none. |
| KnownHosts.SshTrust.SshClient | server/common.py:1484-1563 | One connection: pinned, recorded, first use or refused; a key is recorded only after an unpinned first use that got in. |
| KnownHosts.PinIsEnforced | server/common.py:1502-1506 | With a pin exactly the pinned key gets through, any other is refused as changed, and the file stays. |
| KnownHosts.PinnedRunsMeetThePin | server/common.py:1269-1292 | Over any run: a connection made while a pin is set gets through only with that pin, and with it whenever the server lets us in. |
| KnownHosts.RecordIsEnforced | server/common.py:1507-1512 | Without a pin the same of the recorded key. |
| KnownHosts.FirstUseRecords | server/common.py:1513-1563 | On first use any key of a server that lets us in is taken, and exactly then written down. |
| KnownHosts.LookupIsTheFirst | server/common.py:1436-1458 | The recorded key is that of the first entry under the spelling. |
| KnownHosts.ConnectionRecords | server/common.py:1461-1473 | A connection changes at most the answer for its own spelling, and only from none to the key just accepted. |
| KnownHosts.OthersAreUntouched | server/common.py:1461-1473 | Recording for one host and port never alters the answer for another. |
| KnownHosts.RecordedStays | server/common.py:1484-1563 | A recorded key stays the answer over any run, pins set and lifted included. |
| KnownHosts.SameKeyEveryTime | server/common.py:1484-1563 | In any run all connections to one host and port that got through without a pin met the same key. |
| KnownHosts.FirstRecordedKey | server/common.py:1484-1563 | And that key is the first one the file held for them. |
| KnownHosts.UnknownIsRefused | server/common.py:1513-1532 | Over any run without a pin and without first-use trust: the file never changes, a connection is refused as unknown exactly when the file had no key for it from the start, and one that gets through met the key it had. |

## Left out

Publishing
- `videos` is taken to exist in both files, and the structural columns (`share`, `rel_path`,
  `duplicate_of`, `video_id`, `source`, `source_id`, `batch_uid`) to exist in both schemas; other
  columns may differ, and are intersected as the code does.
- Publishing.Nas.ApplyBundle: the live file is taken to satisfy its schema, vectors included; a file
  with dangling vectors is not covered.
- Publishing.Nas.Publish: rows written between the drain and the swap are not modelled. A live path opens
  as the last commit in its -wal, or without one as its last checkpoint; a swap script cut off is one
  whose next commands were all refused. The set-aside path is taken to be free.
- Publishing.Nas.ApplyDrain: the live file is taken to exist.
- `search_generation` is a number, not the text of one; ids are unbounded, so rowid exhaustion is not
  modelled, and the next rowid is a counter above every id in the table.
- The percentage of the shrink refusal and the integrity checks of the candidate are one yes or no
  each; SSH, `docker exec`, uploads and SQLite itself are the answers they give.
- SwapScript.Disk.DoRollback: names are canonical. An alias of the live file, or of the set-aside name,
  is another path here; given one of the live file, the code sets it aside and finds nothing to put
  back. How the newest `.prev` file is found is not modelled.
- The music index, the health checks, API keys, fleet manifests and the report lines.

The wizard
- tkinter widgets, wording and fields; a page is its identity and kind. The Tailscale page's checks
  are left out: its NEXT is available at any time, which allows more runs than the code.
- Whether the licence has been accepted is asked at the launch; from the interrupted page a run may go on to
  the licence or past it, which allows more runs than the code.
- What the clean slate and the bootstrap do to the computer is one counter; a bootstrap child that
  outlives a crash of the wizard is not modelled.
- Breadcrumbs are the `phase` text; the JSON around it and its time stamp are not modelled. A
  breadcrumb that cannot be written is part of the model.

Configuration and licence
- ConfigMerge.MergeConfigText: works on lines; `splitlines` on form feeds and the like is not
  modelled, nor is a key with its equals sign on the next line. The literal of a key is compared with
  blank, it is not claimed to be the value: a `#` inside a string cuts it short, as in the code.
- White space is the ASCII kind; keys are bare keys without `#`. Lines and values hold no line break: a
  value with one would be two lines at the next run.
- EnsureConfig.ConfigFile.EnsureConfig: the local root, the canonical prefix and the site manifest
  arrive resolved; the set-aside copy of an unreadable file is not modelled.
- Eula.EulaVersionTuple: digits are ASCII; characters such as superscripts, on which the code raises,
  are not modelled. The document's hash and the date in the record are left out.

Words and trust
- Tokens of the shell stop at command substitution, braced parameters and comments; the
  `only_if_absent` form of the marker command, which uses them, is left out, as is JSON encoding of
  the payload.
- Lower case is any function that leaves slug characters alone; the digest is any function with six
  slug characters that do not begin or end in a dash.
- KnownHosts.SshTrust.SshClient: the file is its entries; hosts with blanks or commas, hashed
  entries, a corrupt file and a failed write are not modelled, nor is the parsing of a pin.
