# Verified models of five Brand3 components

This project models five parts of the repository in Dafny and proves what they promise.

- **Vault worker supervisor.** `VaultMachine` is the operating system the supervisor sees: directories with owners and
  modes, a process table in which exits are final, signal handlers, a clock, and a log of what happened. Its environment
  step lets children exit, time pass, and a running process write into directories it owns. `VaultSignalRelay` puts a
  step `Interleave`, which also runs the signal handler any number of times, between any two statements of `SignalRelay`
  and the child-stopping functions. `VaultRuntime`, `VaultRemoval`, `VaultWatch` and `VaultSupervisor` do the same
  for the preparation and removal of the secret files, the wait for the socket, supervision, and `main`. Every contract
  therefore holds for every placement of signals, exits and worker writes. Any system call may fail, and
  each that does is in the log. `VaultHistory` says what the log of a run must show: a clean start of the web child, stopped
  children, a cause for every error, one deciding read that determines the status, and a started web child unless something
  went wrong.
- **Runtime role configuration.** `RuntimeContract` holds the literal relation sets, `RuntimeAcl` access control lists and
  the statements that change them, `RuntimeReset` the reset-and-grant sequence, `RuntimeVerify` the verifier and the
  transaction. Its contract is about effective privileges: a superuser has all, and any other role has what it, PUBLIC or
  a role it is a member of was granted, and what they own. Results hold whether a REVOKE on a table leaves column grants alone, as the comment at
  scripts/configure_b3s_runtime_role.py:369 says, or reaches them, as PostgreSQL documents. A revoke
  on ALL FUNCTIONS leaves procedures alone, so EXECUTE on a SECURITY DEFINER procedure belongs to what is not reset; no
  migration creates a procedure.
- **Online presence inventory.** `SourceTokens`, `InventoryRows`, `GroupBy` and `FirstOccurrence` specify the merges;
  `Inventory` is the deduplication in place on row objects; `InventoryPipeline` is enrichment, the analysis mode and the
  whole collection, given the outcome of every scrape. URL normalization and pattern matching are arbitrary functions.
- **Evidence ledger.** `LedgerEvaluations` is the fold over checkpoint and snapshot rows. Its documented promise is false
  when a result that is no mapping comes between mappings; `PromiseHoldsIffUninterrupted` says exactly when it holds.
- **Review and adjudication.** `DecisionIds`, `DistinctTexts`, `InterventionBoard`, `DecisionRecords`, `AdjudicationApply`
  and `AdjudicationChain` follow a readiness row to a work order and a board record, through a completed decision, back to
  the order it closes. `ReviewWorksheets` and `RelationReview` validate returned worksheets and expand them into
  decisions. `CaseMatrix` fills the validation matrix. Two modules hold shared pieces: `Prelude` and `Collections`.

`dafny verify dfyconfig.toml` checks everything.

Code that updates state is written as methods with loops, or as classes (`SignalRelay`, `Machine`, `Connection`,
`InventoryRow`), and proved against functions and predicates; the lemmas are about those.

## Model

| member | source | states |
|---|---|---|
| VaultSupervisor.RunSupervisor | deploy/vault_worker_supervisor.py:768-843 | For every interleaving of signals, child exits, worker writes and failing calls: the web child is started only after a live worker showed the right socket and with every secret directory gone. Every failure has its cause in the log, rejected secrets are reported exactly if they were rejected, and unless something went wrong the worker and the web child are started. When main returns, every child was reached by the first recorded signal and, before the last removals, was observed to exit or was sent SIGTERM and then SIGKILL; no secret file or socket directory is left whose removal did not fail; the handler table is as before; and the status is the one that the log determines. While it has not returned, the secrets are gone and both children were polled alive in every round. Without root or a command the status is 78, reported, and nothing else changes |
| VaultSupervisor.RunInstalled | deploy/vault_worker_supervisor.py:780-843 | The same from the installed handlers on, with the saved ones put back at the end; with loaded secrets, an accepted run root and no failing call the worker is started, and the web child unless a signal, an exit, a wrong or missing socket, a refused removal or an empty command came in between |
| VaultSupervisor.FinishRun | deploy/vault_worker_supervisor.py:827-843 | However the try block was left, by an exception of either kind or with a status, the except and finally blocks leave an explained status, stopped children and removed directories |
| VaultSupervisor.Serve | deploy/vault_worker_supervisor.py:782-826 | On every way out of the try block the registered children are exactly the started ones, a web start was clean, every secret directory is either the one teardown removes or was already discarded, and the exception or status has its cause in the log: an unexpected error a failing call or a failed load, a rejection exactly the rejected secrets, a refused command an empty one |
| VaultSupervisor.ExceptBlock | deploy/vault_worker_supervisor.py:827-836 | The error is reported, then the status is decided by one read: 128 plus the first signal recorded before it, otherwise 78 for an expected and 70 for any other error |
| VaultSupervisor.Teardown | deploy/vault_worker_supervisor.py:837-843 | The finally block: each child of the process table was observed to exit, or sent SIGTERM and then SIGKILL, and all removals come after that; what was made is gone unless its own removal failed after that; the saved handlers are back |
| VaultSupervisor.StopAll | deploy/vault_worker_supervisor.py:838-838 | Terminating the registered children stops every child that was ever started |
| VaultSupervisor.RemoveRuntime | deploy/vault_worker_supervisor.py:839-842 | Once no child runs, the removals leave no secret file and no socket directory unless an unlink or rmdir of it, or the removal of a failed preparation, failed |
| VaultSupervisor.AccountedForLater | deploy/vault_worker_supervisor.py:779-842 | The account of where secrets may be survives every step until teardown |
| VaultSupervisor.RuntimeStaysGone | deploy/vault_worker_supervisor.py:837-843 | With every child stopped under a safe run root, what was removed stays removed while handlers are restored |
| VaultSupervisor.StatusStaysExplained | deploy/vault_worker_supervisor.py:826-843 | A status stays explained while teardown goes on |
| VaultSupervisor.StartWeb | deploy/vault_worker_supervisor.py:816-825 | The web child starts beside a worker whose socket was seen while it was alive, with no secret directory left, or a failed start raises an error with its cause |
| VaultSupervisor.ServeChildren | deploy/vault_worker_supervisor.py:826-826 | Both children are watched until one exits and the status is decided, or in every round of the bound |
| VaultSupervisor.StartWorker | deploy/vault_worker_supervisor.py:796-814 | Success means the worker was started, seen alive with no signal recorded, showed its socket, and the strict removal then left no secret directory and never failed; an error has its cause in the log |
| VaultSupervisor.AddWorker | deploy/vault_worker_supervisor.py:796-805 | A started worker is registered and has received any signal recorded before, during or after its registration |
| VaultSupervisor.BringUp | deploy/vault_worker_supervisor.py:806-814 | The wait and the strict removal together establish what the start of the web child needs, or fail with an expected error that has its cause in the log |
| VaultSupervisor.SpawnAndAdd | deploy/vault_worker_supervisor.py:613-636 | A spawned child is registered with the relay and settled; a failed spawn adds none, and is an expected error exactly for an empty command |
| VaultSupervisor.WebMayStart | deploy/vault_worker_supervisor.py:813-825 | A worker whose socket was seen and whose secret directory was removed strictly makes the start of the web child clean |
| VaultHistory.CalmKeepsWebStart | deploy/vault_worker_supervisor.py:816-826 | Later events that start no web child cannot undo a clean start |
| VaultHistory.StatusIsDetermined | deploy/vault_worker_supervisor.py:673-686 | The log determines the exit status: the deciding read is unique, follows the failure or the first observed exit, and no other status fits |
| VaultHistory.InterruptionGivesTheSignal | deploy/vault_worker_supervisor.py:827-831 | A startup that was interrupted ends with 128 plus the first signal, whenever the deciding read comes |
| VaultHistory.UntroubledRunStartsWeb | deploy/vault_worker_supervisor.py:768-843 | A run whose status is explained and in which no call failed, no load or command was refused, no signal, exit or wrong socket came and the socket did not stay missing has started the web child |
| VaultHistory.WorkerIsStarted | deploy/vault_worker_supervisor.py:782-805 | With loaded secrets, no failing call and an accepted run root, every run that ends has started the worker |
| VaultHistory.ReportIsExplained | deploy/vault_worker_supervisor.py:827-836 | A reported error has its cause in the log before the report |
| VaultHistory.ReportDecidesTheStatus | deploy/vault_worker_supervisor.py:827-836 | Without a signal, a run that reports an expected error ends with 78, and one that reports any other with 70 |
| VaultHistory.PortableCodesCollideIff | deploy/vault_worker_supervisor.py:685-686 | Two return codes are reported alike only if they are equal, or one is a death by signal n and the other an exit with 128 plus n |
| VaultWatch.WaitForSocket | deploy/vault_worker_supervisor.py:639-670 | Success means: polled alive before any signal was recorded, then an lstat showed a socket with the exact kind, mode and owners; each error has its cause in the log, and a timeout means that every round before the deadline looked and missed; it always ends |
| VaultWatch.StartupRound | deploy/vault_worker_supervisor.py:649-669 | One round either fails with a cause, lets at least 50 ms pass, or saw the socket of a living worker |
| VaultWatch.WorkerStillWanted | deploy/vault_worker_supervisor.py:650-654 | A round goes on only if the poll showed the worker alive and no signal had been recorded; otherwise the error says which |
| VaultWatch.LookForSocket | deploy/vault_worker_supervisor.py:655-669 | The outcome is decided by what the lstat showed: ready exactly on a node of the right kind, mode and owners, absence waits, anything else is an error |
| VaultWatch.Supervise | deploy/vault_worker_supervisor.py:673-682 | A status comes only after a child was seen to exit, the first to be seen unless a signal was recorded, after all others were stopped and after the read of the first recorded signal; without one, every round polled all children alive and paused |
| VaultWatch.RoundAndPause | deploy/vault_worker_supervisor.py:674-682 | A round without a status polled all children alive and lasts at least 100 ms |
| VaultWatch.PollRound | deploy/vault_worker_supervisor.py:675-681 | One pass over the children: all were polled alive, or the first that had exited concluded the run |
| VaultWatch.PollChild | deploy/vault_worker_supervisor.py:676-681 | One child: polled alive and nothing else happened, or the run is concluded by its code |
| VaultWatch.FinishAfterExit | deploy/vault_worker_supervisor.py:678-681 | All other children are stopped before the read; the status is 128 plus the first signal recorded before it, otherwise the portable code of the child that was polled |
| VaultWatch.DecidingRead | deploy/vault_worker_supervisor.py:679-680 | The value read is the first signal recorded so far |
| VaultRemoval.RemoveSecretFiles | deploy/vault_worker_supervisor.py:720-736 | Strict success means the directory is gone and no removal failed on the way, so an extra file left by the worker makes it fail, and failure means a removal was refused; once nobody can write, each of the four files is gone unless its own unlink failed |
| VaultRemoval.UnlinkEntry | deploy/vault_worker_supervisor.py:722-728 | After the call the entry is gone or its unlink failed since the call began |
| VaultRemoval.RemoveDirectory | deploy/vault_worker_supervisor.py:729-734 | Unless refused, the directory is gone and nothing failed |
| VaultRemoval.RemoveSocketDirectory | deploy/vault_worker_supervisor.py:748-758 | The socket directory is gone or its rmdir failed; once nobody can write, the same holds of the socket; nothing else is touched |
| VaultRemoval.StoppedMeansNoWriter | deploy/vault_worker_supervisor.py:509-519 | With a run root that group and others cannot write and no process running, a directory can only lose entries |
| VaultSignalRelay.SignalRelay.Add | deploy/vault_worker_supervisor.py:156-159 | Wherever signals land around the append and the check, afterwards no recorded signal has missed any registered child |
| VaultSignalRelay.SignalRelay.Forward | deploy/vault_worker_supervisor.py:158-159 | The check after the append forwards a signal that was recorded before it, so that all children are settled |
| VaultSignalRelay.SignalRelay.Handle | deploy/vault_worker_supervisor.py:161-165 | Records only the first signal and reaches every registered child with the one that landed |
| VaultSignalRelay.SignalRelay.Interleave | deploy/vault_worker_supervisor.py:138-165 | Any number of signals and environment steps keeps settled children settled; a newly recorded signal settles all |
| VaultSignalRelay.SignalRelay.Install | deploy/vault_worker_supervisor.py:146-149 | Takes over exactly the four handled signals and saves what was there |
| VaultSignalRelay.SignalRelay.Restore | deploy/vault_worker_supervisor.py:151-154 | Puts the saved handlers back, with signals arriving in between |
| VaultSignalRelay.TakenOverAndBack | deploy/vault_worker_supervisor.py:146-154 | Install followed by restore leaves the handler table as it was |
| VaultSignalRelay.SignalRelay.SignalChild | deploy/vault_worker_supervisor.py:689-695 | Afterwards the child was observed to exit or its group was sent the signal within the call |
| VaultSignalRelay.SignalRelay.TerminateChildren | deploy/vault_worker_supervisor.py:698-717 | Terminates for every behaviour of the children; each was observed to exit, or was sent SIGTERM and, at least the shutdown timeout later, SIGKILL |
| VaultSignalRelay.SignalRelay.PollLiving | deploy/vault_worker_supervisor.py:703-708 | The list never drops a child that was not observed to exit |
| VaultSignalRelay.SignalRelay.GracePeriod | deploy/vault_worker_supervisor.py:706-710 | The wait ends with no child left or after the deadline, and keeps every child not observed to exit |
| VaultSignalRelay.SignalRelay.SignalAll | deploy/vault_worker_supervisor.py:704-712 | Every listed child was signalled or had exited |
| VaultSignalRelay.EndOfChild | deploy/vault_worker_supervisor.py:703-717 | The passes of termination together stop each child, whichever lists it was on |
| VaultRuntime.PrepareRuntime | deploy/vault_worker_supervisor.py:459-506 | Success leaves both directories with exact owners, modes and contents under a safe run root; it fails unexpectedly exactly if one of its calls failed, and refuses exactly an unsafe run root, under which nothing is made; failure leaves nothing of a directory it made unless rmtree failed |
| VaultRuntime.ValidateRunRoot | deploy/vault_worker_supervisor.py:509-519 | The check passes only under a run root that root owns and that group and others cannot write |
| VaultRuntime.DiscardRuntime | deploy/vault_worker_supervisor.py:501-506 | Removal is attempted for both directories that were made |
| VaultRuntime.BuildRuntime | deploy/vault_worker_supervisor.py:471-500 | Whatever step fails, the out-parameters name exactly the directories made |
| VaultRuntime.MakeDirectory | deploy/vault_worker_supervisor.py:472-473 | A new directory, distinct from every existing one, and no other change |
| VaultRuntime.MaterializeFiles | deploy/vault_worker_supervisor.py:522-544 | On success the directory holds exactly the four files with their payloads, owner and mode |
| VaultRuntime.MaterializeFile | deploy/vault_worker_supervisor.py:533-541 | A file is created exclusively, owned, and holds its whole payload, or the call fails |
| VaultRuntime.WriteAll | deploy/vault_worker_supervisor.py:547-553 | However the kernel splits the writes, success means the whole payload was appended in order |
| VaultRuntime.SecretEntriesNames | deploy/vault_worker_supervisor.py:488-493 | The four payloads go to the four secret file names |
| VaultMachine.NobodyElseWrites | deploy/vault_worker_supervisor.py:509-519 | Under a safe run root and without children, no directory changes between two statements |
| VaultMachine.FirstLandedPrefix | deploy/vault_worker_supervisor.py:161-163 | The first recorded signal never changes as the run goes on |
| RuntimeContract.RuntimePolicyIsPartitioned | scripts/configure_b3s_runtime_role.py:35-117 | The literal name sets put every relation of the head in exactly one class, and no other relation in any |
| RuntimeReset.SequenceConfigures | scripts/configure_b3s_runtime_role.py:369-471 | For every prior list, and whether or not a table REVOKE reaches columns, the sequence leaves exactly the contract's grants and the prior grants it does not manage |
| RuntimeReset.AfterDirectResets | scripts/configure_b3s_runtime_role.py:371-416 | What the direct resets leave: with the weak REVOKE, the role's column grants survive them; grants on procedures always do |
| RuntimeReset.AfterColumnResets | scripts/configure_b3s_runtime_role.py:417-427 | The column loop removes the role's grants on every listed column and nothing else |
| RuntimeReset.AfterGives | scripts/configure_b3s_runtime_role.py:429-454 | The grants, some skipped when their list is empty, add exactly the contract |
| RuntimeReset.AfterGrants | scripts/configure_b3s_runtime_role.py:429-471 | The final revokes take nothing of the contract away |
| RuntimeReset.FinalRevokesTakeNothing | scripts/configure_b3s_runtime_role.py:455-471 | The revokes on the journal and the private relations hit no grant of the contract |
| RuntimeReset.Connection.ResetColumns | scripts/configure_b3s_runtime_role.py:417-427 | The loop executes one reset for each relation with columns |
| RuntimeReset.Connection.ResetAndGrant | scripts/configure_b3s_runtime_role.py:355-471 | The list after the sequence is the contract's grants plus the unmanaged prior ones |
| RuntimeReset.DirectGrantsAreConstant | scripts/configure_b3s_runtime_role.py:369-471 | The role's direct grants inside the managed objects do not depend on the prior list |
| RuntimeReset.OthersKeepTheirGrants | scripts/configure_b3s_runtime_role.py:377-384 | No other grantee's privileges change, except that PUBLIC loses TEMPORARY on the database |
| RuntimeReset.ConfiguringIsIdempotent | scripts/configure_b3s_runtime_role.py:355-471 | Configuring twice equals configuring once |
| RuntimeVerify.AcceptedIffResidueWithinContract | scripts/configure_b3s_runtime_role.py:355-669 | For every prior list and safe role, what the server lets the role do after the sequence is the contract's if and only if the grants the sequence leaves alone (PUBLIC's, and the role's own elsewhere) are within the contract |
| RuntimeVerify.ResidueNecessary | scripts/configure_b3s_runtime_role.py:474-669 | Any single grant outside the contract makes the verifier refuse |
| RuntimeVerify.ResidueSuffices | scripts/configure_b3s_runtime_role.py:355-669 | Nothing but those grants can make it refuse |
| RuntimeVerify.RowAcceptedIffExact | scripts/configure_b3s_runtime_role.py:571-621 | The checks on a row accept exactly if the role can do with the relation what its class allows, with no column-level excess; the catch-all branch is not taken for a relation of the head |
| RuntimeVerify.VerifyEffectivePrivileges | scripts/configure_b3s_runtime_role.py:474-669 | For a role that passed the role check: no error exactly if the effective privileges are those of the contract; the catch-all and the watermark failure cannot be returned |
| RuntimeVerify.WatermarkIsComplete | scripts/configure_b3s_runtime_role.py:623-627 | A watermark table that is an ordinary application table has complete DML once the rows are accepted |
| RuntimeVerify.CheckRows | scripts/configure_b3s_runtime_role.py:571-621 | The loop accepts exactly if every relation's privileges are those of its class |
| RuntimeVerify.CheckSequences | scripts/configure_b3s_runtime_role.py:629-653 | The loop accepts exactly if the owned sequences have USAGE and SELECT and the others nothing |
| RuntimeVerify.ColumnLoopIsNeeded | scripts/configure_b3s_runtime_role.py:417-427 | With the weak REVOKE, one stale column grant on a private relation makes the list without the column loop fail verification while the full sequence passes |
| RuntimeVerify.LoadRelations | scripts/configure_b3s_runtime_role.py:259-312 | Succeeds exactly if names and kinds are those of the head |
| RuntimeVerify.RequireSafeTargetRole | scripts/configure_b3s_runtime_role.py:193-245 | No error exactly for a login role that has none of the five special attributes, is a member of no role and owns nothing; each error says which of these fails |
| RuntimeAcl.CanIffGranted | scripts/configure_b3s_runtime_role.py:193-245 | Such a role can do exactly what it or PUBLIC was granted, while superusers can do everything and others act as the roles they are members of, directly or not |
| RuntimeVerify.SuperuserNeverMeetsContract | scripts/configure_b3s_runtime_role.py:207-216 | A superuser exceeds the contract whatever is granted |
| RuntimeVerify.MembershipCanExceedContract | scripts/configure_b3s_runtime_role.py:217-245 | A member of a role with more privileges, or of the owner of a relation, exceeds the contract whatever is granted to itself |
| RuntimeVerify.SequenceIsOwnedIff | scripts/configure_b3s_runtime_role.py:315-345 | The owned sequences are those that an application table owns |
| RuntimeVerify.ConfigureRuntimeRole | scripts/configure_b3s_runtime_role.py:672-742 | Commits, for a safe role, a list under which its effective privileges are the contract's, or changes nothing, and commits exactly if the inputs are admissible and the residue is within the contract |
| RuntimeVerify.ConfigureWithRuntimePolicy | scripts/configure_b3s_runtime_role.py:672-742 | The same for the literal relation sets |
| RuntimeVerify.ConfigureTwice | scripts/configure_b3s_runtime_role.py:672-742 | Two runs in a row: the second succeeds if and only if the first did, and changes nothing |
| RuntimeVerify.SecondRunChangesNothing | scripts/configure_b3s_runtime_role.py:672-742 | A configured list that meets the contract is what any further configuration leaves, and its residue is within the contract |
| RuntimeVerify.ConfiguredIsConsistent | scripts/configure_b3s_runtime_role.py:369-471 | A configured list names only existing objects and fitting privileges, so that it can be configured again |
| Inventory.DedupeRows | experiments/online_presence_inventory.py:522-545 | In place, the result refines the group-by, holds the first object of each group in order of first occurrence, and no other object changes |
| Inventory.InventoryRow.Absorb | experiments/online_presence_inventory.py:530-543 | Absorbing a row is the merge of the two values |
| InventoryPipeline.DeduplicatedRowsAreMerges | experiments/online_presence_inventory.py:522-545 | Each result row has the flags by disjunction, the maximal confidence, the first non-empty title, the merged sources, and method, status, error and length together from the first row that was read |
| InventoryRows.GroupMergeIsMerge | experiments/online_presence_inventory.py:530-543 | Merging row by row gives these fields for a group of any size |
| InventoryRows.ClassifiedByPlace | experiments/online_presence_inventory.py:136-168 | The relation to the brand says where the page lies, and the page type is the matched pattern unless there is none |
| InventoryRows.ConfidenceTellsTheRule | experiments/online_presence_inventory.py:136-168 | Each of the seven confidences stands for one rule of the classification |
| InventoryRows.MadeRowShowsItsFinding | experiments/online_presence_inventory.py:206-247 | A made row shows what was found, and is evidence about the brand exactly if its page is official with 200 characters and no search result about a related page |
| InventoryPipeline.DeduplicatingTwiceChangesNothing | experiments/online_presence_inventory.py:522-545 | A second deduplication changes nothing, for any normalization function |
| GroupBy.LoopGroups | experiments/online_presence_inventory.py:523-545 | The one-pass loop over dictionaries computes the group-by, keys in order of first occurrence |
| GroupBy.GroupedTwice | experiments/online_presence_inventory.py:522-545 | A group-by whose merge keeps the key is idempotent |
| SourceTokens.MergeToken | experiments/online_presence_inventory.py:548-554 | The nested loops compute the merge |
| SourceTokens.MergeRoundTrip | experiments/online_presence_inventory.py:548-554 | Splitting a merged value gives back exactly the distinct non-empty tokens of both values, in order |
| SourceTokens.MergeIsAssociative | experiments/online_presence_inventory.py:548-554 | Merging is associative |
| SourceTokens.MergeAddsOnlyNewTokens | experiments/online_presence_inventory.py:548-554 | Merging in a value whose tokens are all there, such as the value itself, adds nothing |
| SourceTokens.CollectIsSet | experiments/online_presence_inventory.py:548-554 | No token twice, none empty, none lost |
| SourceTokens.SplitJoin | experiments/online_presence_inventory.py:548-554 | Splitting undoes joining |
| SourceTokens.GroupMergesOnce | experiments/online_presence_inventory.py:532-532 | Merging a group row by row equals collecting all its tokens once |
| InventoryPipeline.MadePrimaryIsUsable | experiments/online_presence_inventory.py:206-247 | A made row of type primary with at least 200 characters is usable, and it is primary exactly if its URL is the input URL |
| InventoryPipeline.DeduplicatedPrimaryIsUsable | experiments/online_presence_inventory.py:522-545 | Deduplication keeps that, because rows of one URL are all primary or none is |
| InventoryPipeline.EnrichmentKeepsPrimariesUsable | experiments/online_presence_inventory.py:444-519 | Enrichment keeps it, also when scraping fails |
| InventoryPipeline.FallbackIsUnreachable | experiments/online_presence_inventory.py:633-655 | Then the late fallback of the analysis mode is never taken |
| InventoryPipeline.FallbackIsReachableOtherwise | experiments/online_presence_inventory.py:633-655 | Of arbitrary rows it can be taken |
| InventoryPipeline.ModeMeans | experiments/online_presence_inventory.py:633-655 | The bundle is recommended exactly for a usable first primary page with two further usable pages, and each other mode only when no earlier one applies |
| InventoryPipeline.CollectInventory | experiments/online_presence_inventory.py:250-283 | The rows are the deduplication of the rows made of the findings, with exactly the first min(budget, candidates) of the stable order enriched by their scrapes if wanted; whatever was found and whatever scrapes return or raise, the recommendation never rests on the fallback |
| InventoryPipeline.SortedCandidatesAreStable | experiments/online_presence_inventory.py:462-493 | The order is that of a stable sort of the candidates by priority and URL |
| InventoryPipeline.PriorityFollowsTheList | experiments/online_presence_inventory.py:478-493 | Primary pages come first, then related, documentation, support, news and trust pages, and then all others |
| InventoryPipeline.EnrichOfficialRows | experiments/online_presence_inventory.py:444-459 | Exactly the first min(budget, candidates) rows of that order are enriched, each as the outcome of its own scrape says, every other row is unchanged, and the count is returned |
| InventoryPipeline.EnrichRow | experiments/online_presence_inventory.py:496-519 | A scrape that is read completely gives its method, status, error, length and first non-empty title cut to 500, and is usable exactly if official with at least 200 characters; an error row without text results exactly if something raised; nothing else changes |
| InventoryPipeline.ReadPage | experiments/online_presence_inventory.py:497-509 | The try block raises exactly where the scrape says, before the title and the usable flags are touched, or reads everything |
| InventoryPipeline.EnrichInOrder | experiments/online_presence_inventory.py:449-459 | The loop with its break enriches exactly a prefix of the order |
| InventoryPipeline.Failed | experiments/online_presence_inventory.py:510-519 | The except block leaves an error row without text that is not usable |
| LedgerEvaluations.ScanEvaluations | scripts/evidence_ledger_measure.py:354-375 | The loops put all evaluations, checkpoints first and then snapshots; afterwards every component that was put holds its last entry, its result in every field but the evidence, and the evidence cut down to what the unbroken run of mappings showed, and if all its results are mappings, to their intersection |
| LedgerEvaluations.PutCheckpoint | scripts/evidence_ledger_measure.py:366-367 | The inner loop over one checkpoint row |
| LedgerEvaluations.PutSnapshot | scripts/evidence_ledger_measure.py:369-374 | The inner loop over one snapshot row, with the provenance or else the flow candidate |
| LedgerEvaluations.AfterHolds | scripts/evidence_ledger_measure.py:378-398 | For every scan and component the entry is the last one put, with the results combined in order |
| LedgerEvaluations.ComponentsInFirstOrder | scripts/evidence_ledger_measure.py:365-375 | Components come in the order in which they were first put, each once |
| LedgerEvaluations.PutEntry | scripts/evidence_ledger_measure.py:378-398 | One entry replaces the component's entry, combined with what was there |
| LedgerEvaluations.KeptIsTheLast | scripts/evidence_ledger_measure.py:386-392 | The kept result is the last one in every field but the evidence, and is the last one itself if that is no mapping or follows none |
| LedgerEvaluations.KeptIsFilteredLast | scripts/evidence_ledger_measure.py:386-392 | The kept evidence is the last result's list, in its order, cut down to what every earlier result of the unbroken run of mappings showed |
| LedgerEvaluations.AllMappingsKeepTheIntersection | scripts/evidence_ledger_measure.py:386-392 | If every result is a mapping, the kept evidence is, as a set, the intersection over all prompts |
| LedgerEvaluations.PromiseHoldsIffUninterrupted | scripts/evidence_ledger_measure.py:357-362 | The documented promise (only evidence that all prompts showed) holds for all results of a shape if and only if no earlier mapping is separated from a final mapping by something that is none |
| LedgerEvaluations.InterruptedBreaksThePromise | scripts/evidence_ledger_measure.py:386-392 | For every interrupted shape there are results that break it |
| DecisionIds.WorkOrderIdsAreDistinct | scripts/evidence_intervention_board.py:172-172 | Equal work-order ids mean equal type and run, for any type |
| DecisionIds.RecordIdsCollideIff | scripts/evidence_intervention_board.py:171-171 | Record ids are equal exactly for equal runs of types that agree once colons and slashes are replaced |
| DecisionIds.RecordIdsAreDistinct | scripts/evidence_intervention_board.py:168-172 | For types free of colon and slash, distinct pairs of type and run have distinct record ids |
| DecisionIds.RecordIdsCanCollide | scripts/evidence_intervention_board.py:171-172 | Without that condition two records share an id while their work orders do not |
| DistinctTexts.OneForEachKey | scripts/evidence_intervention_board.py:248-259 | The keys kept are the distinct keys in order of first occurrence |
| DistinctTexts.KeptIsTheFirst | scripts/evidence_intervention_board.py:248-259 | Each text kept is the first with its key |
| DistinctTexts.KeptStayUnique | scripts/evidence_adjudication_decisions.py:205-233 | Collecting the distinct ones of such a list again changes nothing |
| DistinctTexts.Unique | scripts/evidence_adjudication_decisions.py:224-233 | The distinct stripped non-empty texts in order of first occurrence |
| InterventionBoard.ReviewUrls | scripts/evidence_intervention_board.py:248-259 | One URL for every key over both groups, in order |
| InterventionBoard.AffectedMaterialFields | scripts/evidence_intervention_board.py:271-281 | The distinct non-empty fields in order |
| InterventionBoard.EveryRunHasItsCard | scripts/evidence_intervention_board.py:57-58 | Every run of every packet has its card on the board |
| InterventionBoard.EveryCardHasItsRun | scripts/evidence_intervention_board.py:57-58 | Every card comes from such a run |
| InterventionBoard.RecordShowsItsCard | scripts/evidence_intervention_board.py:202-216 | A board record shows its card: ids, kind, action, allowed decisions, required fields, URLs and fields |
| InterventionBoard.CardListsAffectedFields | scripts/evidence_intervention_board.py:271-281 | A card lists the overlapping fields, or the changed ones if none overlap |
| InterventionBoard.ProfileUrlListsTheReviewUrls | scripts/evidence_adjudication_decisions.py:205-213 | A completed board record names exactly the card's review URLs, in order |
| InterventionBoard.BoardRecordKeepsIds | scripts/evidence_intervention_board.py:202-216 | The ids of a board record survive completion unless other values are given for them |
| DecisionRecords.BuildDecisionRecord | scripts/evidence_adjudication_decisions.py:64-95 | Accepted exactly if the decision is allowed and every required field has a non-blank value; then the record holds the base values except for the required fields, which are filled in; a refusal lists exactly the blank ones |
| DecisionRecords.FillFields | scripts/evidence_adjudication_decisions.py:87-91 | The loop fills exactly the required names that are not given directly, also when they overwrite a base field |
| DecisionRecords.IdsSurviveIff | scripts/evidence_adjudication_decisions.py:77-91 | The record keeps both ids exactly if no required field of that name is filled with another value |
| DecisionRecords.CommaJoinFromTheFront | scripts/evidence_adjudication_decisions.py:205-233 | Texts are joined with commas, all of them and in order |
| AdjudicationApply.IndexBy | scripts/evidence_adjudication_apply.py:69-70 | The lookup dictionary finds the last decision with an id |
| AdjudicationApply.ClosesIffDecided | scripts/evidence_adjudication_apply.py:74-78 | An order closes exactly if its work-order id or its derived record id has a decision; the former is preferred |
| AdjudicationApply.Apply | scripts/evidence_adjudication_apply.py:72-81 | Closed and open orders are the two order-preserving sublists, each closed order with its own decision, none lost |
| Collections.EveryPositionIsOnOneSide | scripts/evidence_adjudication_apply.py:72-81 | Every order is on exactly one side, and each side keeps the order |
| Collections.SidesAddUp | scripts/evidence_adjudication_apply.py:93-97 | Closed and open counts add up to all orders |
| AdjudicationApply.DecisionCounts | scripts/evidence_adjudication_apply.py:240-245 | Each decision is counted as often as it was applied, and the counts add up to the closed orders |
| AdjudicationApply.ApplyDecisions | scripts/evidence_adjudication_apply.py:60-107 | The split, the counts, and a status that asks for recomputation exactly if a closed order does, and is closed only if nothing is open |
| AdjudicationApply.BuildApplyManifest | scripts/evidence_adjudication_apply.py:110-136 | Totals over all reports conserve closed orders, open orders and every decision's count |
| Collections.AddCounts | scripts/evidence_adjudication_apply.py:121-123 | Adding counts item by item, in any order, adds them for every key and in total |
| AdjudicationChain.TypesArePlain | src/research/evidence_vnext_report_work_orders.py:150-167 | Every intervention type is non-empty and free of colon and slash, and the alias type belongs to exactly one action |
| AdjudicationChain.FirstTypes | src/research/evidence_vnext_report_work_orders.py:150-167 | The types of the first four actions |
| AdjudicationChain.LaterTypes | src/research/evidence_vnext_report_work_orders.py:150-167 | The types of the other five actions |
| AdjudicationChain.LaterActionsComeLater | src/research/evidence_vnext_report_work_orders.py:150-167 | The actions of the other five types are none of the first four |
| AdjudicationChain.OtherActionsAreUnknown | src/research/evidence_vnext_report_work_orders.py:150-167 | Every further action has the type unknown |
| AdjudicationChain.PacketsAreFromReadiness | src/research/evidence_vnext_report_work_orders.py:170-232 | Each packet carries its type in its id, and all its runs have that type |
| AdjudicationChain.EveryHumanRowHasAnOrder | src/research/evidence_vnext_report_work_orders_support.py:140-187 | Every readiness row that needs a human and has a run id gets a work order of its type and run |
| AdjudicationChain.OrderHasRun | src/research/evidence_vnext_report_work_orders_support.py:140-187 | Every work order comes from such a run |
| AdjudicationChain.OrderAndCardShowTheRow | src/research/evidence_vnext_report_work_orders_support.py:140-187 | The work order and the card of a readiness row share their ids and show its run, brand and action, and what the profile of its type prescribes |
| AdjudicationChain.CompleteCard | scripts/evidence_adjudication_decisions.py:64-95 | Completing a board record yields a decision that carries the card's ids unless other ids are given |
| AdjudicationChain.ClosedOrderReportsTheDecision | scripts/evidence_adjudication_apply.py:217-228 | A closed order reports the decision, reviewer and rationale that were given, asks for recomputation if the order or the record does, and names the record |
| AdjudicationChain.WorkOrderLookup | scripts/evidence_adjudication_apply.py:69-77 | Looking up by work-order id finds the last decision about the order's type and run |
| AdjudicationChain.RecordLookup | scripts/evidence_adjudication_apply.py:70-77 | Looking up by record id finds the same one as long as types are plain |
| AdjudicationChain.DerivedRecordId | scripts/evidence_adjudication_apply.py:231-237 | The record id derived from a work order is the id of the board record of its type and run |
| AdjudicationChain.OrderClosesIffItsRunIsDecided | scripts/evidence_adjudication_apply.py:60-107 | From readiness rows to closed orders: a work order closes exactly if a decision was completed for a record of its type and run, and by the last such decision |
| AdjudicationChain.ClosesIffSanitizedTypeFits | scripts/evidence_adjudication_apply.py:74-78 | With arbitrary types on the board, exactly the decisions about its run whose type becomes the order's when colons and slashes are replaced close it |
| ReviewWorksheets.CheckWorksheet | scripts/apply_evidence_vault_coverage_supplement_reviews.py:466-496 | Accepted exactly if rows and entries are in bijection and every row is a review of its entry; otherwise the error says whether identities or a row failed |
| ReviewWorksheets.CheckRow | scripts/apply_evidence_vault_coverage_supplement_reviews.py:480-495 | A row passes exactly if columns and immutable cells are unchanged and decision, rationale, reviewer and time are valid |
| ReviewWorksheets.DistinctIffNoneIsLost | scripts/apply_evidence_vault_coverage_supplement_reviews.py:477-478 | Comparing the length with the size of the set decides distinctness |
| ReviewWorksheets.ValidatedRows | scripts/apply_evidence_vault_exact_relation_reviews.py:323-358 | The exact relation validator accepts exactly such worksheets, with a later duplicate replacing an earlier expected row |
| ReviewWorksheets.ValidatedEntries | scripts/apply_evidence_vault_coverage_supplement_reviews.py:466-496 | The coverage supplement validator accepts exactly such worksheets |
| ReviewWorksheets.ValidatedRelationRows | scripts/apply_evidence_vault_coverage_supplement_reviews.py:350-388 | The expected dictionary is filled relation by relation; unknown evidence or contracts raise |
| ReviewWorksheets.EveryEntryIsReviewedOnce | scripts/apply_evidence_vault_exact_relation_reviews.py:323-358 | In an accepted worksheet every entry has exactly one row, with its immutable cells and a decision |
| RelationReview.AtomicEntryKeys | src/services/evidence_vault_exact_relation_supplement.py:1073-1109 | The atomic worksheet has an entry for exactly the relations of atomic groups |
| RelationReview.CompositeEntryKeys | src/services/evidence_vault_exact_relation_supplement.py:1110-1176 | The composite worksheet has an entry for exactly the other groups |
| RelationReview.AcceptedWorksheetsAnswerAll | scripts/apply_evidence_vault_exact_relation_reviews.py:82-91 | Two accepted worksheets answer every group exactly once |
| RelationReview.ExpandComposite | scripts/apply_evidence_vault_exact_relation_reviews.py:109-119 | The loop extends the decisions by one for each relation of the row's group |
| RelationReview.ReviewRelations | scripts/apply_evidence_vault_exact_relation_reviews.py:81-119 | Succeeds exactly if both worksheets are accepted and share reviewer and time; then the decisions follow the rows |
| RelationReview.OneValueIff | scripts/apply_evidence_vault_exact_relation_reviews.py:92-100 | Collecting values into a set and comparing its size with one decides whether all rows share the value |
| RelationReview.NoRelationTwice | scripts/apply_evidence_vault_exact_relation_reviews.py:101-119 | No relation is decided twice |
| RelationReview.DecisionsFollowTheRows | scripts/apply_evidence_vault_exact_relation_reviews.py:101-119 | The decisions are about exactly the relations of the artifact, each as the row of its group says |
| RelationReview.AcceptedAndRejectedPartition | scripts/apply_evidence_vault_exact_relation_reviews.py:170-175 | Accepted and rejected relations partition the relations of the artifact |
| RelationReview.GroupAcceptedIff | scripts/apply_evidence_vault_exact_relation_reviews.py:187-195 | All relations of a group are accepted exactly if its single row was; a group without relations always counts |
| RelationReview.TileIsExpectedIff | scripts/apply_evidence_vault_exact_relation_reviews.py:184-196 | A tile is expected exactly if some group of it was accepted or has no relations |
| CaseMatrix.LoadRunIndex | scripts/evidence_packet_real_validation_batch_v2_1_runtime.py:146-171 | Every host that occurs is mapped to the first row with it |
| CaseMatrix.IndexHoldsHighestRuns | scripts/evidence_packet_real_validation_batch_v2_1_runtime.py:150-171 | With rows in descending order of id, that is the run with the highest id |
| CaseMatrix.FillIsGreedyAndOptimal | scripts/evidence_packet_real_validation_batch_v2_1_runtime.py:203-277 | Every primary case is decided, backups are used in order and only while the target is missed, and the group ends full or with every candidate examined; no other choice of backups selects more |
| CaseMatrix.FillIsUnique | scripts/evidence_packet_real_validation_batch_v2_1_runtime.py:203-277 | Only one sequence of decisions does that |
| CaseMatrix.TallyGroup | scripts/evidence_packet_real_validation_batch_v2_1_runtime.py:213-258 | The two loops with their target compute it |
| CaseMatrix.ExaminedIsShortest | scripts/evidence_packet_real_validation_batch_v2_1_runtime.py:234-256 | The backups examined are the shortest prefix that fills the group, or all |
| CaseMatrix.AddBackups | scripts/evidence_packet_real_validation_batch_v2_1_runtime.py:236-258 | The loop with its break examines exactly that prefix |
| CaseMatrix.DecidePrimary | scripts/evidence_packet_real_validation_batch_v2_1_runtime.py:213-231 | The loop decides every primary case |
| CaseMatrix.ResolveGroup | scripts/evidence_packet_real_validation_batch_v2_1_runtime.py:208-268 | Decisions, selection and the shared lists of one group; the gap is zero exactly if the target was reached, and otherwise what is missing to it |
| CaseMatrix.EveryDecisionIsListed | scripts/evidence_packet_real_validation_batch_v2_1_runtime.py:213-258 | Each decision is listed once, as selected with its case or as unresolved |
| CaseMatrix.EveryDecisionIsAccountedFor | scripts/evidence_packet_real_validation_batch_v2_1_runtime.py:270-276 | Resolved and unresolved totals add up to all decisions |
| CaseMatrix.ResolveCaseMatrix | scripts/evidence_packet_real_validation_batch_v2_1_runtime.py:203-277 | Every group is filled that way, and the totals account for every decision |
| CaseMatrix.DecisionsResolve | scripts/evidence_packet_real_validation_batch_v2_1_runtime.py:280-310 | Each decision is that of a candidate of the group against the index |
| CaseMatrix.SelectedIffSomeRunHasTheHost | scripts/evidence_packet_real_validation_batch_v2_1_runtime.py:280-310 | A candidate is selected exactly if its URL has a host that some run has; otherwise the reason says whether the host or the run is missing |
| CaseMatrix.SelectedCasesUseTheLatestRun | scripts/evidence_packet_real_validation_batch_v2_1_runtime.py:146-310 | A selected case uses the latest run of its URL's host |

## Left out

- VaultWatch.Supervise: takes a bound on the rounds, because the loop of the source has none; a run that is still supervising after that many rounds has no status, and its properties are stated for every bound.
- VaultSignalRelay.SignalRelay.Handle: runs as one step; a second signal that lands while the handler loops over the children is taken as landing before or after it.
- VaultSignalRelay.SignalRelay.Interleave: only signals whose handler is the relay's are delivered; a signal with its default action that ends the supervisor before install or after restore is not modelled.
- VaultSignalRelay.SignalRelay.SignalChild: killpg fails only because the group is gone, and reaches the group as a whole; descendants that left the group are not modelled.
- VaultSupervisor.RunSupervisor: loading and validating secrets, target and identities is one input, `loaded`; environments, umasks and command lines of the children are not modelled, and of a message to standard error only the error is kept.
- VaultRuntime.MaterializeFiles: descriptors are not modelled; a file is created, owned and written by path, and fsync can only fail.
- RuntimeVerify.ConfigureRuntimeRole: the manifest comparison and the assertion of the target connection are inputs, the role and database names are taken as already stripped, the advisory lock and connection failures are left out, and the catalog does not change during the transaction, so the repeated checks see what the first ones saw.
- RuntimeReset.SequenceConfigures: grants have no grantor and no grant option, so every REVOKE by the owner is effective; ownership, memberships and superusers enter through the role check and the contract.
- InventoryPipeline.CollectInventory: the collection steps are a list of findings; fetching, search and the order in which they run are left out, and confidences are real numbers without NaN.
- InventoryPipeline.EnrichRow: the outcome of a scrape, including the point at which it or reading it raises, is an input; values are already texts and numbers.
- RuntimeAcl.CanIffGranted: a member counts as able to act as the role whether or not it inherits; grants made to predefined roles are grants like others.
- Inventory.DedupeRows: rows are distinct objects, as the collection makes them.
- LedgerEvaluations.ScanEvaluations: keys and scan ids are texts; evidence items are compared as texts; judgments, pair and series summaries, and the reader with its statement guard would add only easy members.
- DecisionIds.RecordIdsCollideIff: run ids are integers or missing.
- DecisionRecords.BuildDecisionRecord: the text of a field that holds a list or a dictionary is whatever a map says; the manifest of decisions and its counts repeat those of the apply step.
- InterventionBoard.ReviewUrls: the key of a URL is an arbitrary function; the board's own summary is left out.
- AdjudicationChain.OrderClosesIffItsRunIsDecided: packets and work orders are not sorted, as closing depends on no order's position; statistics and texts of a packet are left out.
- AdjudicationApply.DecisionCounts: the keys are not sorted.
- ReviewWorksheets.CheckWorksheet: parsing a time is a parameter; cells beyond the header are a column of another name.
- RelationReview.ReviewRelations: that groups and relations of an artifact are distinct, and that an atomic group has one relation, is what its own validation provides; storing the decisions and comparing the resulting memory is left out.
- CaseMatrix.LoadRunIndex: the query and the normalization of hosts are parameters; start times of runs, and the counts of selected cases by source, are left out.
- HTTP probes, language model trials, markdown renderers and command lines are left out.
