# A model of the release, replica and evaluation cores, with proofs

This project models the parts of the repository whose correctness is hard to see from
reading one function, and proves what the design promises of them.

* **Database releases** (`deploy/sync/apply_db_update.py`, class `Deploy`). A journalled
  blue/green switch between two slots. The state is the journal, the uploaded and the
  claimed database, both slots, basis and receipt, sidecars, quarantine, the nginx include,
  the route nginx has actually loaded and the service units. Every method is a sequence of
  single effects; a crash may follow or precede any of them, commands and reads may fail, and
  whole schedules mix runs, uploads, unit exits, reloads and reboots. A second layer carries
  every history of effects out, call by call, on a volume that may lose whatever was not forced out.
* **Code deploys** (`deploy/sync/deploy_code.py`, class `CodeDeploy`). The same treatment for
  a working tree: deletions, pruning, forced checkout, service restart, record, and recovery.
* **The replica** (`deploy/sync/logical_delta.py`, with `build_fts_manifest.py`). The byte
  encoding with its decoder, the table digests, the keyed delta, the self-healing
  synchronisation, and the SQL scanner behind the trigger test.
* **Four small algorithms.** Average ranks and Spearman's correlation, the greedy labeller,
  the archive merge, the failure-streak debounce.

Files follow the components:

| files | component |
| - | - |
| `Manifests`, `ReleaseTypes`, `ReleaseInvariant`, `ReleaseSteps`, `ReleaseQuarantine`, `ReleaseTrail`, `ReleaseHost`, `ReleaseDeploy`, `ReleaseRuns` | the release machine, from its state to whole schedules |
| `Durability`, `DiskCalls`, `PowerLoss`, `PowerLimits`, `PowerWitnesses` | volumes that lose power, the machine's effects as system calls on them, whole histories, and the exact limits of what survives |
| `FileTree`, `Materialize`, `CodeSite`, `CodeDeploy`, `CodeRecovery` | the code deploy, and how the recovery of an interrupted rollback goes wrong |
| `Encodings`, `Digests`, `TableDigests`, `Deltas`, `KeyedTables`, `ReplicaTypes`, `Replica` | the replica |
| `SqlTokens`, `SqlTriggers` | the SQL scanner and the trigger test |
| `Ranks`, `Spearman`, `AdmissionLabels`, `DatasetMerge`, `QuestionChanges`, `FailureStreaks` | the four algorithms |

## How the outside is represented

* systemd, nginx, curl, git, uv and SQLite are commands that may succeed or fail, each with
  its effect on the modelled state. A failed command may have had its effect all the same. In a
  *calm* run nothing crashes and nothing fails; a calm run is *cooperative* when, in addition,
  probes answer as the slot they reach and there is time for at least one health poll. A run of the
  release machine may also be calm but for one trouble (`Fate`); these are the runs that exhibit what
  can happen; so may a replica round, whose last fsync fails (`lateFault`).
* A volume keeps each directory change (create, rename, unlink) pending until an fsync of its directory
  forces it out, together with the earlier changes to the names it involves; after a loss of power any
  subset of what is pending may be there. A rename between two directories is one change. A file's content
  is anything until the file was fsynced. The producer may or may not force out its uploads, a parameter
  of the theorem. The directories themselves are taken to exist.
* In the release machine a SHA-256 is the wrapped content, so it has no collisions. In the
  replica the hash is any function with 32-byte results, and a theorem that needs the absence
  of collisions asks for it only on the messages that are hashed for the tables in question.
* "The candidate passed the full-text check", "the file is base-only" and "the service
  answers healthily" are predicates of the content; what they check inside is not modelled.
* Nobody else edits the include, the claimed file, the sidecars or the journal. The producer
  never replaces a sidecar that is still there, and does not send a snapshot again while its quarantine is
  under way.

## What turned out to differ from the surrounding comments

* `finalize_blocked_invalid_authority` is recorded with a message that basis and receipt have not
  advanced. They have, exactly if a finalize before had stored them (`ReleaseRuns.BlockedPair`); and from every
  installed host whose slot is up a good upload, a run that dies right after storing the basis, and one that
  cannot read the authority, end in such a record over a new basis (`ReleaseRuns.BlockedOverNewBasis`).
* No effect stops, disables or rewrites the slot nginx has loaded, but a restart may take its live unit
  down. It is restarted only right after a health check of it got no answer although it was up, and only as
  the old slot before traffic is moved back or as the candidate of a release that is being finalized
  (`ReleaseRuns.OnlyTheseRestarts`, part of what `Schedule` promises). In each of these states it does happen
  (`ReleaseRuns.LoadedUnitGoesDown`), and from every installed host such a state is reached
  (`ReleaseRuns.CandidateGoesDown`). The slot's content and its enabled bit stay, and the run goes on only once
  it is up again.
* A calm recovery settles exactly when the journal is none of the three blocked states, the checkpoint was
  not written by another verifier version, and it is not a good upload waiting for the old release's answers
  while the unit of the committed slot is down (`Deploy.Reconcile`). Such an upload waits at its checkpoint
  (`ReleaseRuns.GoodUploadWaits`) and is settled by the recovery after (`ReleaseRuns.SecondRecoverySettles`).
* The recovery of a commit record raises, at every calm run, if the committed snapshot's sidecar has been
  published again with another manifest (`Deploy.ReconcileCommitted`, and `ReleaseRuns.SecondManifestBlocks` for a
  host on which it happens).
* What a durable journal is sure to come with has three limits, each with its exact condition and shown to be
  reached. (1) A verified release may be left with a base that is not whole if and only if the base was not
  forced out (`PowerLimits.BaseTornExactly`); over histories that begin without an upload that is if and only
  if the producer does not force out its uploads (`PowerWitnesses.BaseIsAsDurable`). (2) The claimed base is
  unlinked after the commit record was renamed into place, but that need not be on disk: a power loss brings
  the verified release back without its base if and only if the commit record was pending and did not survive,
  and the unlink did (`PowerLimits.OrphanedExactly`). Every history that ends with a commit record and the base
  gone, like those of `ReleaseRuns.GoodUploadCommits`, can meet it (`PowerWitnesses.CommitMayBeUndone`); basis
  and receipt are there then. (3) A file of a closed quarantine may be torn if and only if its content was not
  forced out, which needs a move that died between rename and fsync, since the replay recognises the rename and
  does not fsync again (`PowerLimits.EvidenceTornExactly`, `PowerWitnesses.EvidenceMayBeTorn`).
* `materialize` is exact when it succeeds, also across a path that turns from file to directory. The
  rollback of such a change does not succeed: deleting the new path meets a file above it
  (`Materialize.RollbackMeetsFile`), or a directory; nor does one that would bring back a versioned config
  the new release dropped (`Materialize.RollbackRefused`). `Materialize.MaterializesExactly` gives the exact condition for
  every tree, half-promoted ones included, and `Materialize.RollbackFromUntouched` what it comes to before the promotion has
  touched anything.
* The guard refuses a release that would overwrite an untracked config, and the rollback that follows
  the refusal deletes that config, because the refused release tracks it (`Materialize.RollbackDeletesConfig`;
  within the machine, the files left are those of `CodeDeploying.AfterRefusal`).
* A rollback entered from `activating` and interrupted is re-driven as an activation. If the tree on disk
  answers healthily, the recovery records the new release over it (`CodeDeploy.Reconcile`), which is right exactly
  if the rollback had nothing to delete and had come only upon files that are the same in both releases
  (`CodeRecovery.StillNewExactly`, `CodeRecovery.StillNewWithin`). `CodeRecovery.MixtureIsRecorded` is a deploy, stopped in its rollback, after which
  the recovery records a tree that is neither release.
* The delta never rewrites a key, and its comparison takes two values for equal that SQL's `IS` and `typeof` do
  not tell apart. `KeyedTables.TableDeltaIsExact` gives the exact condition, and
  `KeyedTables.DeltaKeepsKeyType` a pair of tables (key 1 against key 1.0) where the delta alone is wrong. Only the
  reconciliation and the rebuild make `sync_replica` right.
* A failed rebuild has replaced the published replica if and only if the rename took place and the fsync after it
  failed; it has been reconciled by then (`ReplicaSync.ReplaceWithBaseCopy`, and `ReplicaSync.Sync` for a whole round).
  `Replicas.FailedRoundPublishes` ends so.
* The labeller never answers `main` when the publication bound equals the horizon, although nothing is
  left to cover (`ObservedAdmissionIndex.Cover`).

## Model

| member | source | states |
|---|---|---|
| ReleaseRuns.Schedule | deploy/sync/apply_db_update.py:3002-3090 | after any schedule of crashing and complete runs, uploads, exits, reloads and reboots from the installation on: basis and receipt are those of the last commit unless a verified release had stored its own; the basis is a base-only artifact; the loaded slot was never stopped, disabled or rewritten, holds committed or doubly gated content, and was restarted while up only right after a recorded health check of it got no answer, before traffic moves back or in finalizing; no stranded claim committed; at most two rebuilds a claim under one verifier; every commit proven; every step of the history one of the program's, with no journal ahead of its files |
| ReleaseRuns.InvariantKeepsPromises | deploy/sync/apply_db_update.py:2233-2309 | the machine's invariant implies all of these promises in every state, also between two effects of a run |
| ReleaseRuns.InstalledIsSafe | deploy/sync/apply_db_update.py:3019-3025 | a freshly installed host satisfies the invariant |
| ReleaseRuns.UploadKeepsInv | deploy/sync/apply_db_update.py:3023-3054 | an upload between runs, also during recovery states, keeps the invariant |
| ReleaseRuns.RebootKeepsInv | deploy/sync/apply_db_update.py:2273-2277 | after a reboot nginx serves the included slot and that slot's unit comes up, since the included slot is always enabled |
| ReleaseRuns.BlockedPair | deploy/sync/apply_db_update.py:2420-2494 | a blocked record holds the new basis if and only if an earlier finalize had stored it, and the new receipt if and only if one had stored that |
| ReleaseRuns.BlockedOverNewBasis | deploy/sync/apply_db_update.py:2444-2479 | from every installed host whose slot is up, with any good upload of another base, two runs end in a blocked record over the new basis: one that dies after storing it, and one that cannot read the authority |
| ReleaseRuns.LoadedUnitGoesDown | deploy/sync/apply_db_update.py:2074-2085 | in every state where the live loaded unit may be restarted at all, a run whose health checks fail restarts it and leaves it down, enabled and with its content |
| ReleaseRuns.CandidateGoesDown | deploy/sync/apply_db_update.py:2257-2271 | from every installed host whose slot is up, with any good upload of another base, two runs end with the live candidate nginx had loaded restarted and down |
| ReleaseRuns.GoodUploadCommits | deploy/sync/apply_db_update.py:2496-2785 | from every installed host whose slot is up any good upload is committed by one calm run, and after a recovery its claimed base is gone |
| ReleaseRuns.GoodUploadWaits | deploy/sync/apply_db_update.py:2634-2712 | with the committed slot's unit down a good upload is settled neither by the run that claims it nor by the recovery after it |
| ReleaseRuns.SecondManifestBlocks | deploy/sync/apply_db_update.py:1992-2022 | once the sidecar of a committed snapshot is published again with another manifest, every calm run raises and leaves it so |
| ReleaseRuns.SecondRecoverySettles | deploy/sync/apply_db_update.py:2839-2947 | two cooperative recoveries under the checkpoint's verifier settle every entry that is not blocked |
| ReleaseInvariant.UnitsKeepInv | deploy/sync/apply_db_update.py:2065-2092 | stopping, starting, enabling or losing units keeps the invariant as long as a live unit serves the content its slot has and the slot traffic may go back to stays enabled |
| ReleaseInvariant.RouteKeepsInv | deploy/sync/apply_db_update.py:1279-1285 | rewriting the include and reloading nginx keep the invariant while either slot may carry traffic |
| ReleaseSteps.StartRebuild | deploy/sync/apply_db_update.py:3073-3080 | a bound claim may be journalled as rebuilding |
| ReleaseSteps.StartSwitch | deploy/sync/apply_db_update.py:2681-2712 | switching may be journalled only with a candidate that passed both gates and an oracle of the old release |
| ReleaseSteps.Verify | deploy/sync/apply_db_update.py:2750-2782 | consumer_verified may be journalled only with the route moved and proven while the old slot is down, for a claim that never crashed in between |
| ReleaseSteps.StoreBasis | deploy/sync/apply_db_update.py:2279-2284 | advancing the basis keeps the invariant |
| ReleaseSteps.StoreReceipt | deploy/sync/apply_db_update.py:2286-2300 | the receipt may follow the basis, never lead it |
| ReleaseSteps.Commit | deploy/sync/apply_db_update.py:2301-2306 | the commit record may follow basis and receipt, never lead them |
| ReleaseSteps.CountAttempt | deploy/sync/apply_db_update.py:2506-2552 | a rebuild may begin only within the retry count, under the checkpoint's verifier |
| ReleaseSteps.StayBeforeSwitch | deploy/sync/apply_db_update.py:2839-2947 | the retry count only grows, to one at most, and nothing else of the release changes |
| ReleaseTrail.TrailExtends | deploy/sync/apply_db_update.py:412-471 | each effect adds one step of the program to the history and leaves closed what the journal speaks of, also when it is cut short |
| ReleaseHost.Host.Store | deploy/sync/apply_db_update.py:412-471 | an atomic durable change either happened or did not when the process dies; if it did, it may not have been forced out |
| ReleaseHost.Host.Command | deploy/sync/apply_db_update.py:344-352 | a failed command may have had its effect |
| ReleaseHost.Host.SlotServing | deploy/sync/apply_db_update.py:750-759 | a health check that succeeds found the unit up, and each one is on record with the state it was made in |
| ReleaseHost.Host.RestartUnit | deploy/sync/apply_db_update.py:2074-2085 | a failed restart may leave the unit down; the live loaded unit may be restarted only when the last health check, in this very state, was of it and got no answer, and that check is recorded |
| ReleaseHost.Host.WaitServing | deploy/sync/apply_db_update.py:2263-2271 | polling succeeds only when the slot answers, and in a calm run whenever it does |
| ReleaseHost.Host.VerifyAnswers | deploy/sync/apply_db_update.py:1122-1137 | the gate passes only when the slot that was reached gives the expected answers |
| ReleaseDeploy.Deploy.JournalWrite | deploy/sync/apply_db_update.py:412-471 | the rollback and finalize states are checked against the disk before the entry replaces the old one; a refusal changes nothing |
| ReleaseDeploy.Deploy.SwitchInclude | deploy/sync/apply_db_update.py:1279-1285 | done means the include names the slot and nginx has loaded it; nothing else changes |
| ReleaseDeploy.Deploy.RetireCandidate | deploy/sync/apply_db_update.py:2065-2072 | the candidate ends disabled and down, and the old slot keeps its state |
| ReleaseDeploy.Deploy.EnsureSlotServing | deploy/sync/apply_db_update.py:2074-2085 | done means the old slot is up; content and enabled bit are kept; a live loaded one is only restarted after a health check without answer |
| ReleaseDeploy.Deploy.StopSlotAndConfirm | deploy/sync/apply_db_update.py:2087-2092 | only a slot nginx has not loaded may be stopped, and done means it is down |
| ReleaseDeploy.Deploy.MoveToQuarantine | deploy/sync/apply_db_update.py:1591-1612 | a captured file is at exactly one of its two places before and after; a replay of the move is recognised |
| ReleaseDeploy.Deploy.FileEvidence | deploy/sync/apply_db_update.py:1625-1803 | from any interruption the quarantine ends with the archive, record and entry fixed by the intent and the disk it was written on |
| ReleaseDeploy.Deploy.CompleteQuarantine | deploy/sync/apply_db_update.py:1625-1803 | as `FileEvidence`, and pruning leaves this directory whole |
| ReleaseDeploy.Deploy.PruneQuarantine | deploy/sync/apply_db_update.py:1805-1831 | this directory stays whole; of the others the newest stay whole, as many as configured |
| ReleaseDeploy.Deploy.Quarantine | deploy/sync/apply_db_update.py:2094-2152 | done means a quarantined journal; no further rebuild is begun |
| ReleaseDeploy.Deploy.TryRollback | deploy/sync/apply_db_update.py:2154-2231 | done means the old slot is up, included, loaded and answered as captured, and only then the candidate is retired |
| ReleaseDeploy.Deploy.MoveTrafficBack | deploy/sync/apply_db_update.py:2154-2231 | done means the include names the old slot again and nginx has loaded it; a cooperative run gets there |
| ReleaseDeploy.Deploy.RollbackPendingConsumer | deploy/sync/apply_db_update.py:2154-2231 | done means quarantined; a cooperative rollback always gets there |
| ReleaseDeploy.Deploy.ReadyToFinalize | deploy/sync/apply_db_update.py:2245-2277 | before the basis is written the new slot is enabled and the old one is not |
| ReleaseDeploy.Deploy.RestartIfDown | deploy/sync/apply_db_update.py:2257-2271 | done means the candidate is up; in every run a live one is only restarted after a health check without answer, and with every check failing it ends down |
| ReleaseDeploy.Deploy.AdvanceBasis | deploy/sync/apply_db_update.py:2279-2309 | basis, receipt, commit record, then the claimed files go; the whole new disk |
| ReleaseDeploy.Deploy.Finalize | deploy/sync/apply_db_update.py:2233-2309 | done is exactly the committed disk, an ordinary error leaves the disk as it was |
| ReleaseDeploy.Deploy.FinalizeWithFailureRecord | deploy/sync/apply_db_update.py:2444-2494 | a cooperative finalize commits; a blocked record leaves basis and receipt as it found them, and is what an unreadable authority ends in; a process that dies at the basis leaves the new one under the verified record |
| ReleaseDeploy.Deploy.RebuildSlot | deploy/sync/apply_db_update.py:975-985 | a full-text rebuild that fails or dies may leave the candidate slot with any content, and nothing else changed |
| ReleaseDeploy.Deploy.MaterializeAndVerify | deploy/sync/apply_db_update.py:958-987 | done means the candidate slot's content passed the full-text check; only the candidate slot changed |
| ReleaseDeploy.Deploy.BuildCandidate | deploy/sync/apply_db_update.py:2506-2552 | done means prepared and checked; a failed check ends quarantined |
| ReleaseDeploy.Deploy.HttpGate | deploy/sync/apply_db_update.py:2634-2679 | done means the candidate answered as its manifest says; probe trouble keeps the checkpoint, a wrong answer quarantines |
| ReleaseDeploy.Deploy.CaptureOracle | deploy/sync/apply_db_update.py:1287-1305 | the oracle binds the old slot, basis, receipt and the answers of the old release |
| ReleaseDeploy.Deploy.SwitchForward | deploy/sync/apply_db_update.py:2705-2748 | done means nginx serves the candidate and the public gate passed |
| ReleaseDeploy.Deploy.StopOld | deploy/sync/apply_db_update.py:2750-2785 | done means the route was proven with the old slot down and the release only goes forward |
| ReleaseDeploy.Deploy.RouteGate | deploy/sync/apply_db_update.py:2750-2782 | done means the route gave the candidate's answers with the old slot down |
| ReleaseDeploy.Deploy.ContinueRelease | deploy/sync/apply_db_update.py:2496-2785 | done means committed; a cooperative run ends quarantined exactly for content that fails a gate, otherwise retained at its checkpoint exactly if the old unit is down, otherwise committed |
| ReleaseDeploy.Deploy.ReconcileCommitted | deploy/sync/apply_db_update.py:1992-2022 | done means validated, and nothing claimed is left; a run in which nothing fails is done if and only if the sidecar, where still there, is the committed one, and drops the claimed base in any case |
| ReleaseDeploy.Deploy.ReconcileBeforeSwitch | deploy/sync/apply_db_update.py:2839-2947 | one retry under the same verifier, with the exact outcome of a cooperative one; a second crash ends quarantined without a further rebuild; another verifier only records the block |
| ReleaseDeploy.Deploy.Reconcile | deploy/sync/apply_db_update.py:2787-3000 | a cooperative recovery settles the journal if and only if the entry is not blocked, the verifier is the checkpoint's, and it is not a good claim whose old unit is down; that one waits at its checkpoint; a blocked entry changes nothing |
| ReleaseDeploy.Deploy.ApplyLocked | deploy/sync/apply_db_update.py:3019-3090 | every run keeps the invariant, a normal return is settled, and a cooperative run on an upload has the exact outcome of `ContinueRelease` |
| ReleaseDeploy.Newest | deploy/sync/apply_db_update.py:1805-1831 | the survivors are the newest, and as many as there may be |
| ReleaseDeploy.SurvivorsLeft | deploy/sync/apply_db_update.py:1805-1831 | removing the others leaves exactly the survivors |
| ReleaseQuarantine.ArchiveReached | deploy/sync/apply_db_update.py:1625-1803 | whatever was moved before an interruption, moving the rest gives the one archive of the intent |
| ReleaseQuarantine.ArchiveAccepted | deploy/sync/apply_db_update.py:1833-1990 | the archive and its record are what `_validate_quarantined_entry` accepts, also after pruning other directories |
| ReleaseQuarantine.MoveKeepsInv | deploy/sync/apply_db_update.py:1591-1612 | each rename keeps every captured file at exactly one place, with its content |
| ReleaseQuarantine.CloseKeepsInv | deploy/sync/apply_db_update.py:1780-1803 | the quarantined entry may be journalled once all evidence and the record are filed |
| Durability.ForcedFirst | deploy/sync/apply_db_update.py:354-371 | forcing some changes out before others leads to the same names as all of them in order |
| Durability.SyncDirPlaces | deploy/sync/apply_db_update.py:354-371 | after an fsync of a directory its names lead where the running system sees them, whatever is lost |
| Durability.MayExactly | deploy/sync/apply_db_update.py:354-371 | what is pending for a name, and what is surely on disk, are exactly what a power loss may make of it |
| Durability.ReplaceIsAtomic | deploy/sync/apply_db_update.py:354-371 | power loss at any point of temporary, fsync, rename, fsync leaves the old or the new file whole and all others as they were |
| Durability.RemoveIsAtomic | deploy/sync/apply_db_update.py:2055-2063 | likewise for a durable unlink |
| Durability.WriteIsAtomic | deploy/sync/apply_db_update.py:1240-1253 | likewise for either |
| Durability.RenameNotOvertaken | deploy/sync/apply_db_update.py:3051-3060 | a claim renamed without an fsync is on disk whenever the journal written after it is, and once that is complete nothing of the directory is left to chance |
| DiskCalls.CallsKeep | deploy/sync/apply_db_update.py:1591-1612 | after any number of its calls an effect has left every name it is not about where it was, also on disk |
| DiskCalls.CallsTrack | deploy/sync/apply_db_update.py:1591-1612 | the running system sees the machine's disk before the effect, and the one after it from a certain call on |
| PowerLoss.EffectImage | deploy/sync/apply_db_update.py:464-471 | power loss during a durable effect leaves the disk before it or after it, where nothing else is in the balance |
| PowerLoss.JournalForces | deploy/sync/apply_db_update.py:412-471 | the entry after a claim or a quarantine forces their renames out: afterwards every name of the directory is on disk as the machine sees it |
| PowerLoss.TookInv | deploy/sync/apply_db_update.py:2279-2308 | every effect, complete or cut short anywhere, keeps all that any entry that may come back speaks of |
| PowerLoss.ClosedCovered | deploy/sync/apply_db_update.py:1780-1803 | a quarantined entry that may be on disk has its whole archive on disk, each file whole unless its move was cut short |
| PowerLoss.HistoryIsCarriedOut | deploy/sync/apply_db_update.py:3019-3090 | every history of the machine can be carried out on a volume |
| PowerLoss.PowerLossNeverLeads | deploy/sync/apply_db_update.py:2279-2308 | for every history from the installation on, claims and quarantines included, and every way to carry it out with failed attempts and processes killed between any two calls: a durable commit record comes with the include, basis and receipt it names, a verified release with its include and claimed base or else already basis and receipt, a quarantined record with an accepted archive |
| PowerLoss.ScheduleSurvivesPowerLoss | deploy/sync/apply_db_update.py:3002-3090 | so it is for whatever `ReleaseRuns.Schedule` ends with |
| PowerLimits.RunLimits | deploy/sync/apply_db_update.py:2279-2308 | along every way to carry out a history: only the journal's last entry is pending for it, under a commit record that is not forced out the base and the verified entry are surely on disk, and a closed quarantine's files are in place |
| PowerLimits.OrphanedExactly | deploy/sync/apply_db_update.py:2301-2309 | an image shows a verified release without its claimed base if and only if the commit record was pending and did not survive, and an unlink of the base did |
| PowerLimits.MayBeOrphanedExactly | deploy/sync/apply_db_update.py:2301-2309 | there is such an image if and only if commit record and unlink are both pending |
| PowerLimits.BaseTornExactly | deploy/sync/apply_db_update.py:3051-3060 | a verified release may be left with a base that is not whole if and only if the base was not forced out |
| PowerLimits.EvidenceTornExactly | deploy/sync/apply_db_update.py:1591-1612 | a file of a closed quarantine may be torn if and only if it was not forced out, and then its move was cut short |
| PowerWitnesses.BaseIsAsDurable | deploy/sync/apply_db_update.py:3051-3060 | in every history from a host without an upload, however carried out: a verified release may be left without a whole base if and only if the producer does not force out its uploads |
| PowerWitnesses.CommitMayBeUndone | deploy/sync/apply_db_update.py:2301-2309 | every history that ends with a commit record and its base gone can be carried out so that a power loss brings the verified release back without its base |
| PowerWitnesses.EvidenceMayBeTorn | deploy/sync/apply_db_update.py:1591-1612 | every history that closes a quarantine over a base whose move was cut short can be carried out, with uploads nobody forced out, so that a power loss tears the base |
| PowerWitnesses.CutHistory | deploy/sync/apply_db_update.py:1591-1612 | from every installed disk there is such a history |
| PowerWitnesses.SomeVolume | deploy/sync/apply_db_update.py:3019-3025 | and a volume to carry it out on |
| FileTree.DeleteAllFiles | deploy/sync/deploy_code.py:401-427 | if every path can be deleted at the start, all are, and exactly these files are gone; pruning removes no file |
| FileTree.DeleteAllExactly | deploy/sync/deploy_code.py:401-427 | where no path to delete lies above another, all are deleted if and only if each could be at the start |
| FileTree.DeletableExactly | deploy/sync/deploy_code.py:412-418 | a deletion succeeds exactly when no file lies above the path and it is no directory |
| FileTree.BlockedDelete | deploy/sync/deploy_code.py:412-418 | a file kept above or below a path to delete stops the deletions |
| FileTree.CheckoutAllFiles | deploy/sync/deploy_code.py:253-263 | a forced checkout ends with its files and every other file that clashes with none of them |
| FileTree.StepsMakeCheckout | deploy/sync/deploy_code.py:253-263 | making room, clearing the path and writing the file add up to one forced entry |
| Materialize.MaterializeExact | deploy/sync/deploy_code.py:205-263 | from exactly base plus untracked files that clash with nothing, the tree ends at exactly the commit plus the same untracked files, also where files and directories swap |
| Materialize.MixtureConverges | deploy/sync/deploy_code.py:205-263 | from any mixture of two releases, once the deletions went through: exactly the commit, and every untracked file that clashes with none of it |
| Materialize.RollbackConverges | deploy/sync/deploy_code.py:523-537 | from any mixture back to the old release, once the deletions went through: exactly that, and the untracked files still there that the new release does not track |
| Materialize.RollbackFromMixture | deploy/sync/deploy_code.py:523-537 | a promotion stopped anywhere can be rolled back exactly, if no path changes its kind and the versioned configs are kept |
| Materialize.MaterializesExactly | deploy/sync/deploy_code.py:205-263 | from any tree whatever `materialize` succeeds if and only if the guard lets it pass and each path only the base tracks can be deleted |
| Materialize.RollbackFromUntouched | deploy/sync/deploy_code.py:389-427 | a promotion that died before touching the tree can be rolled back if and only if these two hold |
| Materialize.RollbackMeetsFile | deploy/sync/deploy_code.py:412-418 | a promotion from `p` to `p/mod.py` that never touched the tree cannot be rolled back |
| Materialize.RollbackRefused | deploy/sync/deploy_code.py:389-399 | nor one that drops the versioned config: bringing it back collides with the file still there |
| Materialize.RollbackKeepsUntracked | deploy/sync/deploy_code.py:389-399 | a rollback keeps the untracked files if and only if the refused release tracks none of them |
| Materialize.RollbackDeletesConfig | deploy/sync/deploy_code.py:389-399 | an operator's config that made the guard refuse a release is gone after the rollback |
| CodeSite.PromotesExactly | deploy/sync/deploy_code.py:511-513 | from between the releases, a successful promotion is exactly the new one |
| CodeSite.RevertsExactly | deploy/sync/deploy_code.py:523-537 | and a successful rollback exactly the old one with the untracked files that are left; it succeeds if and only if the guard passes and nothing blocks a deletion, and so it does in a smooth promotion |
| CodeSite.FreshIsSafe | deploy/sync/deploy_code.py:559-563 | a host with no journal and nothing deployed satisfies the invariant, whatever files it has |
| CodeDeploying.CodeDeploy.ApplyDeletions | deploy/sync/deploy_code.py:401-427 | effect by effect the same as deleting on the value; stops where that stops |
| CodeDeploying.CodeDeploy.PruneUp | deploy/sync/deploy_code.py:419-427 | removes emptied ancestors and nothing else |
| CodeDeploying.CodeDeploy.CheckoutEntry | deploy/sync/deploy_code.py:262-263 | one forced entry, effect by effect; wherever it stops, only its own path, and what had to make room, differ |
| CodeDeploying.CodeDeploy.MaterializeLive | deploy/sync/deploy_code.py:205-263 | a successful run is the specified tree; in a calm run it succeeds exactly when that exists |
| CodeDeploying.CodeDeploy.RestartServingSlot | deploy/sync/deploy_code.py:447-451 | done means the service runs this tree and is healthy |
| CodeDeploying.CodeDeploy.Rollback | deploy/sync/deploy_code.py:523-537 | done means tree, record and service are the old release, with the untracked files that are left; a calm one is done if and only if the tree is revertible and what that leaves answers |
| CodeDeploying.CodeDeploy.CommitRelease | deploy/sync/deploy_code.py:539-557 | done means tree, record and service are the new release and the journal is idle |
| CodeDeploying.CodeDeploy.Redrive | deploy/sync/deploy_code.py:578-597 | the health check decides the direction: a healthy tree is recorded as the new release whatever it is, which loses track exactly if it is not; an unhealthy one is rolled back |
| CodeDeploying.CodeDeploy.Reconcile | deploy/sync/deploy_code.py:559-605 | a calm recovery from promoting ends idle at the old release if and only if the tree, half-promoted or not, is revertible and answers then, and otherwise raises under the same journal; from serving at the new release; from activating where health points: with a healthy tree it is right if and only if the tree is the promoted one; track is lost only after a rollback from activating had begun |
| CodeDeploying.CompleteIsPromoted | deploy/sync/deploy_code.py:578-597 | recording the new release after a healthy restart is right if and only if the tree is exactly what the promotion makes of the files there before |
| CodeDeploying.CodeDeploy.DeployLocked | deploy/sync/deploy_code.py:624-676 | a normal return is the new release, complete, with the untracked files that clash with none of it; a release the guard refuses ends idle at the old one, without the untracked files that the refused one tracks |
| CodeDeploying.Deploys | deploy/sync/deploy_code.py:607-676 | from a host where nothing is deployed, after any series of deploys that crash anywhere: an idle journal means one complete release and no file that was not there before, unless a recovery had recorded a tree that is not its release |
| CodeRecovery.StillNewExactly | deploy/sync/deploy_code.py:578-597 | after a rollback stopped at any entry of its checkout the tree is still the new release if and only if there was nothing to delete and the entries done are the same in both |
| CodeRecovery.StillNewWithin | deploy/sync/deploy_code.py:578-597 | and if it is stopped in the midst of an entry, if and only if it was before and nothing at, above or below that path differs |
| CodeRecovery.DeletedIsChanged | deploy/sync/deploy_code.py:401-427 | nor is it after a rollback stopped at any later point of its deletions |
| CodeRecovery.MixtureIsRecorded | deploy/sync/deploy_code.py:559-605 | a deploy that fails its health check passes, in rolling back, through a state from which the recovery records the new release over a tree that is neither |
| Encodings.RowsRoundTrip | deploy/sync/logical_delta.py:334-378 | the decoder recovers every row from a table's byte stream |
| Encodings.FramesRoundTrip | deploy/sync/build_fts_manifest.py:267-276 | and every string from a framed row |
| Encodings.TakeValueOf | deploy/sync/logical_delta.py:334-347 | an encoded value is read back whatever follows it |
| Encodings.DecimalRoundTrip | deploy/sync/logical_delta.py:337-339 | decimal integers, negative ones included, read back |
| Digests.SortIsCanonical | deploy/sync/logical_delta.py:391-396 | sorting byte strings forgets exactly their order |
| Digests.SortedDigestIs | deploy/sync/logical_delta.py:381-400 | sorted-hash digests are equal exactly for equal multisets, without collisions on the messages hashed |
| Digests.SortedDigestIgnoresOrder | deploy/sync/logical_delta.py:381-400 | the order never matters, whatever the hash |
| TableDigests.TableDigest | deploy/sync/logical_delta.py:350-371 | the incremental digest is that of the whole stream |
| TableDigests.TableMultisetDigest | deploy/sync/logical_delta.py:381-400 | the loop computes the sorted-hash digest |
| TableDigests.TableDigestDetermines | deploy/sync/logical_delta.py:350-371 | equal ordered digests mean equal rows in equal order, and conversely |
| TableDigests.MultisetDigestDetermines | deploy/sync/logical_delta.py:381-400 | equal multiset digests mean equal rows, counted, and conversely |
| TableDigests.FtsTableDigest | deploy/sync/build_fts_manifest.py:272-284 | the producer's digest |
| TableDigests.ProducerAndConsumerAgree | deploy/sync/apply_db_update.py:391-402 | the consumer's digest is the producer's, in whatever order either reads |
| TableDigests.FtsDigestDetermines | deploy/sync/apply_db_update.py:391-402 | and it accepts exactly the producer's rows |
| Deltas.DeltaIsExact | deploy/sync/logical_delta.py:724-839 | deletes, inserts and updates in this order give the target exactly when every matched pair settles at the target's row |
| Deltas.NothingToDo | deploy/sync/logical_delta.py:764-777 | no operations, and nothing the comparison overlooks, exactly for equal tables |
| Deltas.UpdatesSettle | deploy/sync/logical_delta.py:818-830 | a matched row ends merged or as it was |
| KeyedTables.TableDeltaIsExact | deploy/sync/logical_delta.py:724-839 | for a keyed table: exactly when every matched pair has one representation |
| KeyedTables.TableNothingToDo | deploy/sync/logical_delta.py:764-777 | zero operations and one representation exactly when the tables were equal |
| KeyedTables.DeltaKeepsKeyType | deploy/sync/logical_delta.py:818-830 | key 1 against key 1.0: the delta leaves the integer |
| KeyedTables.ChangeIsExact | deploy/sync/logical_delta.py:695-839 | with null keys the whole replacement always reaches the target |
| KeyedTables.NoCountIsEqual | deploy/sync/logical_delta.py:764-777 | the same for either kind of table |
| KeyedTables.AppliedOk | deploy/sync/logical_delta.py:786-830 | the changed table is again a table with unique keys |
| KeyedTables.UpdatesIdle | deploy/sync/logical_delta.py:818-819 | a table whose every column is a key loses nothing by skipping its updates |
| ReplicaTypes.SameDigestIs | deploy/sync/logical_delta.py:504-518 | the comparison of one table succeeds exactly for equal rows |
| ReplicaTypes.AgreesIs | deploy/sync/logical_delta.py:484-538 | the reconciliation succeeds exactly for a replica equal to the snapshot, without FTS objects |
| ReplicaTypes.IncludedHasNoFts | deploy/sync/logical_delta.py:262-295 | what is copied holds no FTS table |
| ReplicaTypes.CopyIsEqual | deploy/sync/logical_delta.py:561-643 | a built copy equals the snapshot when its sequences can be kept |
| ReplicaTypes.EqualAgrees | deploy/sync/logical_delta.py:484-538 | an equal replica reconciles whatever the hash |
| Replicas.ReplicaSync.ValidateShape | deploy/sync/logical_delta.py:457-481 | passes only, and in a calm run always, for the same schema and pragmas without FTS objects |
| Replicas.ReplicaSync.Reconcile | deploy/sync/logical_delta.py:484-538 | passes only, and in a calm run always, when every table, the shape and the sequences agree |
| Replicas.ReplicaSync.Execute | deploy/sync/logical_delta.py:786-830 | a statement changes one table, unless a trigger fires, whose effect is anything |
| Replicas.ReplicaSync.ApplyChange | deploy/sync/logical_delta.py:786-830 | statement by statement, the change of one table |
| Replicas.ReplicaSync.ListTables | deploy/sync/logical_delta.py:783-785 | every table once, the cache generations last |
| Replicas.ReplicaSync.Transact | deploy/sync/logical_delta.py:779-839 | triggers are dropped before the writes and are all back after them; none fires in between |
| Replicas.ReplicaSync.ApplyDelta | deploy/sync/logical_delta.py:670-847 | commits every table's planned change with schema and pragmas as before and reports their number, or leaves the replica as it was |
| Replicas.ReplicaSync.BuildBaseCopy | deploy/sync/logical_delta.py:561-643 | the new file has the included schema, the pragmas, the rows and the sequences of the copied tables |
| Replicas.ReplicaSync.Publish | deploy/sync/logical_delta.py:656-658 | the rename takes place unless the first error is raised; the error after it leaves the new file in place |
| Replicas.ReplicaSync.ReplaceWithBaseCopy | deploy/sync/logical_delta.py:646-663 | a failed call has replaced the replica, by a reconciled one, if and only if it failed in the fsync after the rename; any other failure leaves the replica as it was; no temporary is left |
| Replicas.ReplicaSync.Sync | deploy/sync/logical_delta.py:850-876 | every normal return, in any mode, leaves a reconciled replica; a failed round has published a rebuilt one, which is reconciled, if and only if it failed in the fsync after the rename, and otherwise leaves the old one or a committed delta of it; a calm round succeeds on any snapshot that can be copied, but for that fsync |
| Replicas.FailedRoundPublishes | deploy/sync/logical_delta.py:646-663 | from any snapshot that can be copied, and no replica or one of another shape: a round that fails in its last fsync with the rebuilt replica published |
| Replicas.ReconciledIsEqual | deploy/sync/logical_delta.py:850-876 | a reconciled replica equals the snapshot: no FTS objects, schema, pragmas, typed rows, sequences |
| Replicas.DeltaReachesSnapshot | deploy/sync/logical_delta.py:695-839 | the delta alone reaches the snapshot exactly for representable tables with the right sequences |
| Replicas.NoOperationsIsEqual | deploy/sync/logical_delta.py:764-777 | zero reported operations and representable tables exactly when the replica equalled the snapshot |
| SqlTokens.Tokenize | deploy/sync/logical_delta.py:136-198 | the index scanner terminates and computes the token list of the text |
| SqlTokens.ReadIdentifier | deploy/sync/logical_delta.py:165-180 | a quoted identifier ends at its first delimiter that is not doubled |
| SqlTokens.ScanUndoesPrint | deploy/sync/build_fts_manifest.py:141-203 | tokens printed with any blanks, comments and literals between them scan back to the same tokens |
| SqlTokens.DoubledIsRead | deploy/sync/logical_delta.py:165-180 | an identifier printed with doubled delimiters reads back |
| SqlTriggers.TriggerMutatesFts | deploy/sync/logical_delta.py:201-259 | true exactly when some INSERT, REPLACE, UPDATE or DELETE, read with its longest run of words, names the FTS table |
| SqlTriggers.HitIsWrite | deploy/sync/logical_delta.py:201-259 | the index arithmetic finds exactly these statements |
| SqlTriggers.SameReadingSameAnswer | deploy/sync/build_fts_manifest.py:206-264 | case, and quoting where no keyword is meant, change nothing |
| SqlTriggers.LayoutDoesNotMatter | deploy/sync/build_fts_manifest.py:206-264 | nor do layout, comments and literals |
| Ranks.AverageRanks | evals/_shared/metrics.py:46-58 | the nested loops give each element the number smaller plus the middle of the places equal ones share |
| Ranks.GroupRank | evals/_shared/metrics.py:51-57 | the rank of a group in sorted order |
| Spearman.RanksAddUp | evals/_shared/metrics.py:46-58 | ranks add up to n(n+1)/2 |
| Spearman.RanksOnlyOrder | evals/_shared/metrics.py:46-58 | a strictly increasing map changes no rank |
| Spearman.DotBound | evals/_shared/metrics.py:66-72 | Cauchy-Schwarz |
| Spearman.Spearman | evals/_shared/metrics.py:61-72 | undefined exactly for fewer than two pairs or a constant side; otherwise the rank correlation, within one in absolute value, so that the clamp changes nothing |
| Spearman.CorrelationOnlyOrder | evals/_shared/metrics.py:61-72 | only the order of either side matters |
| Spearman.SameOrderIsOne | evals/_shared/metrics.py:61-72 | sides in the same order correlate at exactly one |
| AdmissionLabels.ObservedAdmissionIndex.constructor | evals/_shared/admission_labels.py:55-86 | one proof for each reference read twice, the horizon their latest end |
| AdmissionLabels.AllMatchesIs | evals/_shared/admission_labels.py:66-76 | a question's witnesses are exactly the items of any pass with its key |
| AdmissionLabels.BySourceIs | evals/_shared/admission_labels.py:69-76 | the listing of a source holds exactly its items |
| AdmissionLabels.ObservedAdmissionIndex.Cover | evals/_shared/admission_labels.py:105-122 | the pass reaches the horizon if and only if the greedy extension does, only by a chain of agreeing parts, and always when sound windows leave no gap |
| AdmissionLabels.ObservedAdmissionIndex.LabelOf | evals/_shared/admission_labels.py:88-126 | each of the eight answers exactly when its condition holds; main only by a chain up to the horizon, and always when sound windows leave no gap |
| AdmissionLabels.ChainCovers | evals/_shared/admission_labels.py:105-122 | a chain leaves no instant uncovered |
| AdmissionLabels.ChainIsCover | evals/_shared/admission_labels.py:105-122 | where all windows are sound, main is exactly coverage |
| AdmissionLabels.CoverSuffices | evals/_shared/admission_labels.py:105-122 | where sound windows leave no gap the greedy extension reaches the end |
| AdmissionLabels.Consumes | evals/_shared/admission_labels.py:111-118 | in order of their left ends, no window is passed over too early |
| DatasetMerge.Collection.AddObservation | evals/_shared/dataset_merge.py:30-38 | the row goes under its current key, and the earlier of two stays |
| DatasetMerge.Collection.MergeRecords | evals/_shared/dataset_merge.py:41-49 | afterwards the records are the least row per payload and the largest count per key of all observations; it fails exactly when a row belongs under neither key |
| DatasetMerge.MergeAll | evals/_shared/dataset_merge.py:41-49 | the same for any number of archives |
| DatasetMerge.OneRepresentation | evals/_shared/dataset_merge.py:26-49 | a set of observations has only one such record |
| DatasetMerge.OrderAndRepetitionDoNotMatter | evals/_shared/dataset_merge.py:41-49 | so archives merge to the same records in any order and with any repetition |
| QuestionChanges.Previous | evals/_shared/dataset_merge.py:151-166 | each question's states, each once |
| QuestionChanges.Current | evals/_shared/dataset_merge.py:167-169 | the current questions are those of either list, and the last state given for each stands |
| QuestionChanges.ChangesFor | evals/_shared/dataset_merge.py:167-187 | retained, updated and removed add up to the previous questions, added, retained and updated to the current ones |
| QuestionChanges.Changes | evals/_shared/dataset_merge.py:151-187 | the change list computed from the entries of both sides |
| FailureStreaks.StreakFile.SustainedFailures | scripts/collection_supervisor.py:269-298 | the file counts rounds, not checks; a check of the same run changes neither the file nor the answer |
| FailureStreaks.Checks | scripts/collection_supervisor.py:269-298 | after any consistent series of checks a source is reported exactly when it failed in each of the last three rounds |
| FailureStreaks.RoundsAreDistinct | scripts/collection_supervisor.py:281-285 | no two rounds are of the same run |
| FailureStreaks.StreakIs | scripts/collection_supervisor.py:290-298 | a count of n means failing in each of the last n rounds |
| FailureStreaks.RepeatingAddsNothing | scripts/collection_supervisor.py:281-285 | looking at the same run again adds no round |

## Left out

- CodeDeploying.Deploys: says nothing of the deploys after a recovery has recorded a tree that is not its release; when that happens is exact (`CodeDeploy.Reconcile`, `CodeRecovery.StillNewExactly`).
- CodeDeploying.CodeDeploy.DeployLocked: whether the host has a serving slot is fixed for a whole series of deploys; a slot that first appears between two of them is not modelled.
- ReleaseRuns.Schedule: unit exits, reloads and uploads happen between runs; a unit that exits within one is covered only as far as health checks may fail at any point.
- PowerLoss.ScheduleSurvivesPowerLoss: is about what is on disk after the loss of power; it does not go on with the runs after it.
- PowerLoss.PowerLossNeverLeads: says nothing of the slot database a commit record names, which the program forces out when it rebuilds it.
- ReleaseDeploy.Deploy.MoveToQuarantine: takes the directory it makes as there, and durable.
- ReleaseDeploy.Deploy.MaterializeAndVerify: what a rebuild makes of a base depends on the base and the installed verifier only.
- FailureStreaks.Checks: assumes that the streak file can be written; a write that fails leaves the older counts, which may be off by the rounds that were not recorded.
- Spearman.Spearman: is over the reals, with the square root kept as a ratio, because the rounding of floats is what the clamp is for.
- SqlTriggers.LayoutDoesNotMatter: takes `casefold`, `isspace` and `isalnum` as parameters and keeps the quoting of keywords, which does change the meaning.
- Legacy journal states, verifier upgrades beyond the identity check, and the `rebuild=False` branch of `_continue_release`, which has no caller.
- Timestamps, phase texts, messages, receipts' completion times, configuration and argument parsing.
- HTTP pagination, pacing and URL handling, the CDN, and how long nginx workers drain.
- What the full-text check, `verify_base_snapshot` and the schema gate look at inside a database; `airadar.db` is not part of this model.
- Ages of quarantine directories come from the file system; the order of directories of equal age is left open.
- The write-ahead files beside a slot database, and `uv`'s effect on `.venv`.
- Symbolic links above a path of the working tree; tracked links are modelled as entries.
- A database that SQLite accepts but whose rows break its own primary key, and generated columns.
- A crash in the middle of a replica round beyond what SQLite's rollback journal and the atomic rename give; the leftover temporary file is not modelled.
- Path and inode aliasing of the replica's files, a single yes or no here.
- The manifest's search probes, its JSON form and its self-hash.
- Publication bounds are an input of the labeller; the dates and regular expressions they come from are not modelled.
- `read_bases`: gathering archives from disk and checking reference manifests.
- The evaluation runners, judges, prompts and collection scripts, which would add only easy members.
