# Verification of the approval and execution pipeline

The pipeline takes an approved assignment through planning, execution and review by an agent, submits the
result to Moodle, and later deletes what it left on disk. Its components talk through directories and an
SQLite store, and any of them may crash at any time. This project models those durable protocols as state
machines and as imperative code over small abstractions of the file system and of the store, and proves what
holds in every run. `dafny verify dfyconfig.toml` checks everything.

| module | component |
|---|---|
| `JsonGrammar`, `JsonScanner`, `JsonTheorems` | the duplicate-key scanner of the fixture loader against RFC 8259 |
| `Traces`, `Inodes`, `Publication`, `PublicationGroup`, `PublicationRetry`, `StorageQuota`, `StorageTree` | link-based publication of metadata records, groups of them, and their admission into a limited tree |
| `Attempts` | what each caller of the group publication checks first, and which crashes inside it its next attempt gets over |
| `LabBarriers` | the ledger check of `PublicationGroup` with the decoders of both sides and the barriers of lab tombstones |
| `ResultSpool` | publication and recovery of results and bundles |
| `Tombstones`, `Retention`, `RetentionSafety`, `RetentionTheorems` | the two-party retention protocol with everybody that it has to keep out |
| `AgentReplay`, `ControllerReplay` | crash and rerun inside one consumption and inside one clearing |
| `Planning`, `Coordination`, `Reconciliation` | what retention plans, when the controller commits it, and its pass over the completion ledger |
| `RetentionAges` | coordinator and protocol together: the age of every deletion |
| `ArtifactManifest`, `CentralProtocol`, `Provenance`, `CentralBroker` | the digest chain of planner, executor and reviewer, the broker's step, and what becomes of its outcome |
| `ChainReservation` | the storage reserved for a whole chain when its first job is published |
| `WorkItems`, `WorkItemTheorems` | leased work items, the single lab, the execution outbox |
| `Submission`, `SubmissionTheorems`, `SubmissionWorker` | submission of an approved manifest to Moodle |

## Assumptions

- SHA-256 and canonical JSON are injective: a digest is represented by what it is the digest of.
- Lease tokens are fresh; every store transaction is atomic, and its moments do not decrease.
- `flock` gives mutual exclusion. Taking several job locks one after the other has the effect of taking them together,
  since a run that holds only some of them has done nothing yet.
- In `Retention`, `AgentReplay` and `ControllerReplay` the publication of one metadata record is one step. For what
  must never happen `Publication.FinalNameIsExact` is the reason: at every micro-step the final name is absent or
  exact. Which attempts get over a crash inside a publication is a different question for every caller, and `Attempts`
  answers it for each: the crash points of `AgentReplay` and `ControllerReplay` are those between publications.
- A trace is the complete sequence of states between single operations (`Traces`, `Inodes.MicroStep`); a process crash
  leaves one of them.
- In `RetentionAges` the records that the coordinator reads carry the ages that its query was asked for, and one clock
  is shared.
- Distinct events have distinct bundles wherever the life of a bundle matters.
- `json_decode` on one string literal is a given partial function.
- Only safety is claimed for torn stage files, for a crash inside a publication beyond what `Attempts` says, and for a
  partly deleted job tree.

## Where the code does less than one might expect

Each of these is a lemma with the failing run or state, or the exact condition from which it can be read.

- `Coordination.TwoMayBeOpen`: the coordinator scans for acknowledgements and then for open records. An
  acknowledgement that arrives in between satisfies both scans, and the cycle commits a second tombstone while
  the first has no receipt. `SecondOpensIffLate` says that this is the only way.
- `Coordination.StrandedForEver`: after the receipt nothing takes up an interrupted clean-up, because the scan
  passes over records with a receipt. `LeavesIffAttended` has the exact condition.
- `AgentReplay.BigWorkspaceBlocksRerun`: the trash counts towards the metadata limit that is checked before the
  trash is emptied, so a crash just after a large workspace was moved refuses every rerun.
- `AgentReplay.InterruptedPreflight`: a lab workspace whose removal was interrupted fails the recheck when its
  result had succeeded and some of its entries are gone already.
- `ControllerReplay.RerunConverges`, `RetentionTheorems.PartialJobRefused`: a partly deleted job tree is refused.
- `PublicationRetry.SiblingStageBlocksRetry`: the stage that a retry should finish is refused as unknown when an
  earlier record of the same directory is checked first.
- `Attempts.AckRetryIff`, `Publication.AbandonedStageCloses`: each attempt acknowledges at its own time
  (`retention_runtime.py:158-164`) and both coordinators read an acknowledgement before anybody recovers it, so one
  whose publication was cut off between the creation of its stage and the unlink is refused in every later attempt.
- `Attempts.CommitRetryIff`: each cycle commits at its own time, too, so a commit that was cut off after the first
  creation and before the record has its name is never taken up again.
- `Attempts.MarkerCrashCloses`, `Attempts.MarkerStageCloses`: the ledger of deletion markers knows no stages and the
  next clearing reads a marker before it is recovered, so a crash inside the publication of a marker closes the whole
  controller root. `ClearingRetryIff` has the exact condition.
- `Attempts.BarrierCrashCloses`: the agent measures its root and reads its intent before it recovers them, so a crash
  between a link and its unlink refuses every later attempt. `ConsumeRetryIff` has the exact condition.
- `LabBarriers.UnknownDispatchCloses`, `AgentReplay.UnknownDispatchBlocksRerun`: the ledger checks of both sides know
  job ids only, so the barrier of a report that has no job closes the root as soon as it is published, and a
  consumption that a crash cut off after that never goes on. `BarriersCloseLedgerIff` says that no other barrier does.
- `ChainReservation.ChainIsStranded`: the walk counts the bytes that directories allocate and no demand reserves them,
  so a chain that was admitted into the last of the space can be refused its review job. `ReservationSufficesIff` has
  the condition.
- `SubmissionTheorems.TwoWorkersFinalizeTwice`: with two workers finalize can be called on a submission that Moodle
  holds. `FinalizeMeetsHeldIff` says exactly when.
- `Reconciliation.MissingReceiptStops`: one recorded completion without its receipt stops retention for good.
- `WorkItemTheorems.AttemptsBoundBlocksClaims`: the attempts column has an upper bound that no claim resets.
  `AttemptsReach` comes there.
- `Provenance.StoredRecordDecodes`: a failed central outcome without provenance decodes, but the planner would stop at
  it; the store's query is what keeps it away.

## Model

| member | source | states |
|---|---|---|
| JsonScanner.SkipSpace | infra/moodle/fixture.php:581-585 | moves the offset over exactly the longest run of the four whitespace bytes |
| JsonScanner.ScanEscape | infra/moodle/fixture.php:611-622 | accepts the short escapes and four hexadecimal digits, and stops behind them |
| JsonScanner.ScanString | infra/moodle/fixture.php:587-625 | the scanned literal, decoded by the given partial decoder, or an error; the offset stands behind the closing quote |
| JsonScanner.ScanValue | infra/moodle/fixture.php:627-695 | one value of any kind, with the offset behind it, as the specification function of the grammar theorems says |
| JsonScanner.ScanObject | infra/moodle/fixture.php:630-637 | an object from behind its brace, empty or not |
| JsonScanner.ScanMembers | infra/moodle/fixture.php:638-660 | the loop over members carries exactly the set of decoded keys seen so far |
| JsonScanner.ScanMember | infra/moodle/fixture.php:639-652 | key, duplicate check, colon, value and gap, in that order of errors |
| JsonScanner.ScanArray | infra/moodle/fixture.php:661-679 | the loop over items up to the closing bracket |
| JsonScanner.RejectDuplicateKeys | infra/moodle/fixture.php:697-704 | the whole text is one value and gaps, or the first error |
| JsonTheorems.ValueComplete | infra/moodle/fixture.php:627-695 | every printed value of the grammar is scanned to its end, or refused exactly for a repeated key |
| JsonTheorems.ValueSound | infra/moodle/fixture.php:627-695 | whatever is scanned is the print of a grammar value without repeated keys, and what remains is the rest |
| JsonTheorems.MembersComplete | infra/moodle/fixture.php:638-660 | members are accepted exactly if their decoded keys are distinct from each other and from those seen |
| JsonTheorems.MembersSound | infra/moodle/fixture.php:638-660 | accepted members have distinct decoded keys and print to the text consumed |
| JsonTheorems.NumberComplete | infra/moodle/fixture.php:690-693 | every number of the grammar is matched in full |
| JsonTheorems.NumberSound | infra/moodle/fixture.php:690-693 | whatever the pattern matches is a number of the grammar |
| JsonTheorems.StringComplete | infra/moodle/fixture.php:587-625 | every string literal of the grammar that decodes is accepted |
| JsonTheorems.StringSound | infra/moodle/fixture.php:587-625 | every accepted literal is one of the grammar |
| JsonTheorems.AcceptsExactlyTheGrammar | infra/moodle/fixture.php:697-704 | a text is accepted if and only if it is a text of RFC 8259, sections 2 to 7, in which no object at any depth repeats a decoded key |
| JsonTheorems.RepeatedKeyIsReported | infra/moodle/fixture.php:640-646 | a grammar text is refused only for a repeated key, and then with the duplicate-key error |
| StorageQuota.RoundUpIsLeast | src/moodle_autotask/adapters/aws/storage_quota.py:233-234 | the rounded size is the least multiple of the block size that holds the file |
| StorageQuota.RoundUpMonotone | src/moodle_autotask/adapters/aws/storage_quota.py:233-234 | a larger file never rounds to fewer bytes |
| StorageQuota.RoundUpSubadditive | src/moodle_autotask/adapters/aws/storage_quota.py:233-234 | rounding two files separately costs at least as much as rounding them together |
| StorageQuota.DemandForFiles | src/moodle_autotask/adapters/aws/storage_quota.py:206-234 | the loop sums the rounded sizes and keeps the node count |
| StorageTree.MeasureDirectory | src/moodle_autotask/adapters/aws/storage_quota.py:278-344 | the recursive walk with its running total counts every node that is not excluded once, with all that it allocates, and fails exactly if something is neither a directory nor a file with one name |
| StorageTree.MeasureNode | src/moodle_autotask/adapters/aws/storage_quota.py:347-374 | a single node: a file needs exactly one link |
| StorageTree.EntryAdds | src/moodle_autotask/adapters/aws/storage_quota.py:278-344 | a new entry adds exactly what its whole tree holds, directories included |
| StorageTree.AdmittedEntryFits | src/moodle_autotask/adapters/aws/storage_quota.py:151-203 | a new entry that holds no more than was admitted leaves the tree inside its limit and the file system its headroom; when a published job does so is `ChainReservation.PublishedJobHolds` |
| Inodes.OneLink | src/moodle_autotask/adapters/aws/retention_fs.py:1912-1953 | an inode with one link has no second name |
| Inodes.TwoLinks | src/moodle_autotask/adapters/aws/retention_fs.py:1513-1530 | two names and a link count of two are all the names of an inode |
| Publication.Creates | src/moodle_autotask/adapters/aws/retention_fs.py:1417-1424 | creating the stage leaves the final name and every other name alone |
| Publication.Writes | src/moodle_autotask/adapters/aws/retention_fs.py:1425-1430 | each partial write extends the stage by the next bytes of the record and changes nothing else |
| Publication.Links | src/moodle_autotask/adapters/aws/retention_fs.py:1441-1443 | linking a complete stage gives the final name exactly the record's bytes |
| Publication.Unlinks | src/moodle_autotask/adapters/aws/retention_fs.py:1513-1530 | dropping the stage leaves one link under the final name |
| Publication.MetadataRoot.ReadStaging | src/moodle_autotask/adapters/aws/retention_fs.py:1533-1569 | true exactly if the name holds these bytes with this link count |
| Publication.MetadataRoot.RecoverLinked | src/moodle_autotask/adapters/aws/retention_fs.py:1513-1530 | drops the stage exactly if stage and final name are the two links of the complete record |
| Publication.MetadataRoot.StageBytes | src/moodle_autotask/adapters/aws/retention_fs.py:1417-1440 | from an absent record to a complete stage; the trace is the complete sequence of single file operations, and the final name stays absent at each |
| Publication.MetadataRoot.LinkStage | src/moodle_autotask/adapters/aws/retention_fs.py:1441-1452 | from a complete stage to one link under the final name; the complete trace passes through the linked state |
| Publication.MetadataRoot.Publish | src/moodle_autotask/adapters/aws/retention_fs.py:1398-1452 | succeeds exactly when the name is absent, staged, linked or already these bytes; then one link and no stage; otherwise nothing changes; its trace is the complete sequence of single file operations, each state of the stated shape |
| Publication.FinalNameIsExact | src/moodle_autotask/adapters/aws/retention_fs.py:1398-1452 | at every micro-step the final name is absent or shows exactly the bytes being published |
| Publication.RetryConverges | src/moodle_autotask/adapters/aws/retention_fs.py:1398-1452 | from every crash point the same call goes through again if and only if the stage is not torn |
| Publication.OccupiedNameRefuses | src/moodle_autotask/adapters/aws/retention_fs.py:1404-1412 | a published or linked name refuses any other bytes |
| Publication.OtherBytesRetryIff | src/moodle_autotask/adapters/aws/retention_fs.py:1398-1452 | after a crash at any micro-step a retry that brings other bytes, as an acknowledgement with a new time does, goes through if and only if nothing had been created yet |
| Publication.AbandonedStageCloses | src/moodle_autotask/adapters/aws/retention_fs.py:1572-1580 | the stage that such a crash leaves refuses every other record of that directory |
| PublicationGroup.Measure | src/moodle_autotask/adapters/aws/storage_quota.py:278-344 | walking the names measures what the inodes hold, and fails exactly if some file has a second link |
| PublicationGroup.RecoverGroup | src/moodle_autotask/adapters/aws/retention_fs.py:298-299 | every linked pair of the group is finished; in its complete trace only stages go away; refused exactly if a record is neither absent, staged, linked nor published |
| PublicationGroup.RecoveredStatus | src/moodle_autotask/adapters/aws/retention_fs.py:1583-1588 | recovery turns linked records of the group into published ones and changes no other status |
| PublicationGroup.PeakDemand | src/moodle_autotask/adapters/aws/retention_fs.py:1591-1618 | what the publication of one record still needs at its peak, by its status |
| PublicationGroup.GroupDemand | src/moodle_autotask/adapters/aws/retention_fs.py:301-303 | the sum of the peaks, or a refusal if a name shows anything unexpected |
| PublicationGroup.Advances | src/moodle_autotask/adapters/aws/retention_fs.py:482-484 | the micro-steps of one record keep the picture of the whole group |
| PublicationGroup.BlockedAtTurn | src/moodle_autotask/adapters/aws/retention_fs.py:1572-1580 | when its turn comes, a record meets a foreign stage exactly if a later record of the same directory was staged at the start |
| PublicationGroup.PublishNext | src/moodle_autotask/adapters/aws/retention_fs.py:1398-1452 | one record's turn succeeds exactly if it is small enough and no sibling stage blocks it; complete trace |
| PublicationGroup.PublishEach | src/moodle_autotask/adapters/aws/retention_fs.py:482-484 | the loop succeeds exactly if no record is blocked, and every directory of its complete trace is one of the group's |
| PublicationGroup.PublishGroup | src/moodle_autotask/adapters/aws/retention_fs.py:288-316 | recover, check the ledger, where a staged deletion marker is never accepted, admit, publish: succeeds exactly under the stated guard, and every directory of its complete trace is a recovery or an admitted publication |
| PublicationRetry.StaysAdmitted | src/moodle_autotask/adapters/aws/retention_fs.py:288-316 | names and block-rounded inode bytes stay within the hard limit at every micro-step of an admitted group, whatever mix of absent, staged and final entries it starts from |
| PublicationRetry.RecoveryHoldsLess | src/moodle_autotask/adapters/aws/retention_fs.py:1583-1588 | recovery never adds to what is held |
| PublicationRetry.RetryAfterRecovery | src/moodle_autotask/adapters/aws/retention_fs.py:288-316 | a crash during recovery does not change whether the next attempt goes through |
| PublicationRetry.GroupRetryConverges | src/moodle_autotask/adapters/aws/retention_fs.py:288-316 | after a crash anywhere in an admitted group the same call goes through if and only if the stage under way is not torn, is not a complete stage with an earlier sibling published, is not a staged deletion marker, and the ledger accepts what is there |
| PublicationRetry.SiblingStageBlocksRetry | src/moodle_autotask/adapters/aws/retention_fs.py:1572-1580 | two records of one directory: a crash before the second link leaves a stage that refuses every retry |
| Tombstones.BarriersAreJobsIff | src/moodle_autotask/adapters/aws/retention_fs.py:1696-1699 | every barrier of a tombstone is one of its jobs if and only if there are as many barriers as jobs |
| LabBarriers.FirstGroupGoesThrough | src/moodle_autotask/adapters/aws/retention_fs.py:448-485 | into an empty root, the controller's shared one or the agent's private one, the barriers of any tombstone are published with its record or its intent, whatever the barriers are |
| LabBarriers.BarriersCloseLedgerIff | src/moodle_autotask/adapters/aws/retention_fs.py:339-398 | on either side, after its publication the ledger takes the same group again if and only if every barrier is a job, with the decoder that the ledger check really uses |
| LabBarriers.BarrierBeyondJobsCloses | src/moodle_autotask/adapters/aws/retention_fs.py:1634-1699 | on either side, one published lab tombstone with a barrier beyond its jobs refuses every later group of that root |
| LabBarriers.UnknownDispatchCloses | src/moodle_autotask/adapters/aws/retention_fs.py:339-398 | a concrete lab tombstone with a dispatch record whose report has no job: on either side its group goes through and then closes the root |
| Attempts.PrepareRetryIff | src/moodle_autotask/adapters/aws/retention_fs.py:410-446 | a preparation that a crash cut off at any micro-step goes on if and only if its stage is not torn and its decoder accepts it, and room is asked for again only if nothing is there |
| Attempts.CommitRetryIff | src/moodle_autotask/adapters/aws/retention_fs.py:448-485 | a commit that a crash cut off at any micro-step is taken up by the next cycle, which brings a later time, if and only if nothing had been created or the record itself has its final name and the ledger accepts the group |
| Attempts.ConsumeRetryIff | src/moodle_autotask/adapters/aws/retention_fs.py:535-562 | a consumption that a crash cut off inside its barriers and intent goes on if and only if the same group would be published, the intent, once it is there, has one name, and before that no record of the group has two names and the root is open to a new chain |
| Attempts.AckRetryIff | src/moodle_autotask/adapters/aws/retention_fs.py:590-602 | an acknowledgement that a crash cut off goes on, read by both coordinators or published again with another time, if and only if its stage had not been created or is gone again |
| Attempts.ClearingRetryIff | src/moodle_autotask/adapters/aws/retention_fs.py:935-992 | a clearing that a crash cut off inside its marker or its receipt goes on if and only if the marker had not been created or has one name again, and the stage of the receipt is not torn |
| Attempts.MarkerStageCloses | src/moodle_autotask/adapters/aws/retention_fs.py:1702-1708 | as long as the stage of a deletion marker is there, every group of the controller's root that does not finish it is refused, prepared records included |
| Attempts.MarkerCrashCloses | src/moodle_autotask/adapters/aws/retention_fs.py:942-970 | the two crashes, just before the link and just before the unlink of the first marker of an empty root, with what they close |
| Attempts.BarrierCrashCloses | src/moodle_autotask/adapters/aws/retention_fs.py:318-337 | a crash just before the unlink of the first agent barrier refuses that consumption and every first attempt of another |
| Tombstones.BarriersCover | src/moodle_autotask/adapters/aws/retention_fs.py:50-51 | every job of a tombstone and its dispatch record are among its barriers |
| RetentionSafety.KeepsRetentionRun | src/moodle_autotask/adapters/aws/retention_fs.py:1260-1291 | a step of one run leaves what every other retention run knows intact, because their job locks exclude each other |
| RetentionSafety.KeepsWorkRun | src/moodle_autotask/adapters/aws/retention_fs.py:1260-1291 | and what publishers, executors and dispatchers know after their barrier check |
| RetentionSafety.CommitLedgers | src/moodle_autotask/adapters/aws/retention_fs.py:448-485 | publishing barriers before the record keeps the meaning of both ledgers |
| RetentionSafety.ConsumeLedgers | src/moodle_autotask/adapters/aws/retention_fs.py:487-602 | so do the agent's barriers, intent, deletions and acknowledgement in their order |
| RetentionSafety.ClearLedgers | src/moodle_autotask/adapters/aws/retention_fs.py:880-992 | so do the marker, the deletions, the receipt and the clean-up |
| RetentionSafety.DispatchDispatched | src/moodle_autotask/adapters/aws/agent_spool.py:644-719 | intent before call, command after it: the call log stays free of repeated keys |
| RetentionTheorems.NextKeepsInv | src/moodle_autotask/adapters/aws/retention_fs.py:448-992 | every step of controller, agent, broker, executor or dispatcher keeps the protocol's invariant, and undoes no barrier |
| RetentionTheorems.AfterKeepsInv | src/moodle_autotask/adapters/aws/retention_fs.py:448-992 | so does every run, with crashes and refusals anywhere |
| RetentionTheorems.OrderingHolds | src/moodle_autotask/adapters/aws/retention_fs.py:448-992 | in every reachable state a committed record has its barriers with the same bytes; an acknowledgement has its intent, its barriers and nothing of the agent's left; a receipt has its acknowledgement and no job or dispatch record left |
| RetentionTheorems.StepDeletes | src/moodle_autotask/adapters/aws/retention_fs.py:579-588 | only a run past its checks deletes, and only its own targets, bundles included; an executor removes only the workspace of its own job |
| RetentionTheorems.ControllerDeletesAfterAck | src/moodle_autotask/adapters/aws/retention_fs.py:880-992 | jobs and dispatch records go only under an acknowledgement, at or after the eligible time |
| RetentionTheorems.AgentDeletesAfterIntent | src/moodle_autotask/adapters/aws/retention_fs.py:502-507 | results, trash and bundles go only under a durable intent for them, at or after the eligible time |
| RetentionTheorems.WorkspacesGoForAReason | src/moodle_autotask/adapters/aws/agent_cli.py:306-317 | so do workspaces, except that an executor, under the lock of a job without a barrier, starts its own afresh |
| RetentionTheorems.NoResurrection | src/moodle_autotask/adapters/aws/retention_fs.py:1245-1291 | barriers stay with their bytes, and once one is there no job directory, workspace or result of its job comes into being, over every run |
| RetentionTheorems.CompletedStaysAway | src/moodle_autotask/adapters/aws/retention_fs.py:1079-1105 | a completed tombstone keeps its jobs, workspaces, results and dispatch record away for ever, cleaned or not |
| RetentionTheorems.DispatchedAtMostOnce | src/moodle_autotask/adapters/aws/agent_spool.py:644-719 | the remote command service is called at most once per execution key over every run, also after the dispatch record is deleted; every transcript is of the command that call returned |
| RetentionTheorems.PartialJobRefused | src/moodle_autotask/adapters/aws/retention_fs.py:994-1021 | a job tree that a crash split stops every later clearing of its tombstone |
| AgentReplay.AgentRetention.PublishRecords | src/moodle_autotask/adapters/aws/retention_fs.py:552-562 | barriers and intent appear one by one, in order; the trace is complete, one operation a step |
| AgentReplay.AgentRetention.RemoveTrash | src/moodle_autotask/adapters/aws/retention_fs.py:2772-2800 | a trash tree loses its leaves, in any order, and then itself; every state of the complete trace is one a rerun can continue from |
| AgentReplay.AgentRetention.RemoveWorkspace | src/moodle_autotask/adapters/aws/retention_fs.py:1229-1242 | one workspace goes through the trash, or an interrupted removal is finished; complete trace |
| AgentReplay.AgentRetention.RemoveWorkspaces | src/moodle_autotask/adapters/aws/retention_fs.py:579-582 | all workspaces are gone before any result; complete trace |
| AgentReplay.AgentRetention.UnlinkResults | src/moodle_autotask/adapters/aws/retention_fs.py:583-586 | then the results, in job order; complete trace |
| AgentReplay.AgentRetention.Consume | src/moodle_autotask/adapters/aws/retention_fs.py:487-602 | succeeds exactly under the start guard, which includes the check of the barrier ledger, and the acknowledgement guard, ends in the fully consumed state, and its complete trace passes only through the stated crash states; the acknowledgement is published in one step |
| AgentReplay.InterruptedPreflight | src/moodle_autotask/adapters/aws/retention_fs.py:604-862 | from every crash state the retry's checks pass exactly if the leftovers of lab workspaces pass |
| AgentReplay.RerunConverges | src/moodle_autotask/adapters/aws/retention_fs.py:487-602 | from every crash point between the publications of the intent and of the acknowledgement a rerun, at whatever later time, starts if and only if the leftovers pass, the trash fits the metadata limit and the ledger takes all barriers, which for this tombstone's means that every barrier is a job; it ends in the same final state with an acknowledgement of its own time |
| AgentReplay.BarringRestartIff | src/moodle_autotask/adapters/aws/retention_fs.py:535-562 | from every crash point between the publications of two records the next attempt starts if and only if there is still room and every barrier published so far is a job |
| AgentReplay.UnknownDispatchBlocksRerun | src/moodle_autotask/adapters/aws/retention_fs.py:388-393 | a concrete lab consumption that starts and, after a crash behind its intent, never starts again, with an empty trash and passing leftovers |
| AgentReplay.EmptyTrashFits | src/moodle_autotask/adapters/aws/retention_fs.py:289-316 | with an empty trash the rerun always has room, and starts if and only if the ledger takes all barriers |
| AgentReplay.BigWorkspaceBlocksRerun | src/moodle_autotask/adapters/aws/retention_fs.py:289-316 | a workspace larger than the metadata limit, moved just before a crash, refuses every rerun |
| ControllerReplay.ControllerRetention.DeleteJob | src/moodle_autotask/adapters/aws/retention_fs.py:971-975 | one job tree goes, in more than one operation; complete trace |
| ControllerReplay.ControllerRetention.DeleteJobs | src/moodle_autotask/adapters/aws/retention_fs.py:969-975 | all jobs go, in order; complete trace |
| ControllerReplay.ControllerRetention.Finish | src/moodle_autotask/adapters/aws/retention_fs.py:976-991 | dispatch record, receipt, clean-up, in that order; complete trace |
| ControllerReplay.ControllerRetention.CleanUp | src/moodle_autotask/adapters/aws/retention_fs.py:1079-1105 | prepared record, committed record and marker are unlinked in that order |
| ControllerReplay.ControllerRetention.ConsumeAck | src/moodle_autotask/adapters/aws/retention_fs.py:880-992 | succeeds exactly under the clearing guard, ends in the cleared state, and its complete trace passes only through the stated crash states |
| ControllerReplay.RerunConverges | src/moodle_autotask/adapters/aws/retention_fs.py:880-1053 | from every seam after the marker a rerun ends in the same final state with a receipt, if and only if the crash did not split a job tree |
| ResultSpool.ResultSpool.RecoverOne | src/moodle_autotask/adapters/aws/agent_cli.py:1357-1391 | one temporary is finished or dropped; a consistent directory is never refused and its final names do not change; complete trace |
| ResultSpool.ResultSpool.Recover | src/moodle_autotask/adapters/aws/agent_cli.py:1066-1101 | afterwards no temporary is left and every final name has one link and complete bytes, in whatever order the directory lists them; complete trace |
| ResultSpool.ResultSpool.Stage | src/moodle_autotask/adapters/aws/agent_cli.py:1321-1323 | a temporary grows chunk by chunk while no final name changes; complete trace |
| ResultSpool.ResultSpool.Link | src/moodle_autotask/adapters/aws/agent_cli.py:1325-1333 | the final name appears at the link and at no other operation of the complete trace |
| ResultSpool.ResultSpool.PublishResult | src/moodle_autotask/adapters/aws/agent_cli.py:1295-1344 | publishes exactly if the name is free and the write admitted; otherwise final names are untouched; every state of the complete trace is recoverable |
| ResultSpool.ResultSpool.PublishBundle | src/moodle_autotask/adapters/aws/agent_cli.py:893-938 | publishes under the digest of the bytes; the same bytes again change nothing; complete trace |
| ResultSpool.PairHasTwoLinks | src/moodle_autotask/adapters/aws/agent_cli.py:1104-1136 | a temporary that is not the only name of its inode is the second link of its own final name |
| ResultSpool.ConsistentRecovered | src/moodle_autotask/adapters/aws/agent_cli.py:1357-1391 | without temporaries every final name stands alone, settled and complete |
| ResultSpool.WriteOnce | src/moodle_autotask/adapters/aws/agent_cli.py:1295-1344 | over any sequence of attempts a final name keeps its bytes, and every name that has come is some attempt's with that attempt's bytes |
| SubmissionWorker.FindNext | src/moodle_autotask/adapters/moodle/approval_state.py:1293-1302 | the first claimable row in query order, or none is claimable |
| SubmissionWorker.SubmissionWorker.ProcessSubmission | src/moodle_autotask/adapters/aws/worker.py:434-518 | idle exactly if nothing is claimable; otherwise the claimed row is carried through the phases of the machine and the claim is over at the end |
| SubmissionWorker.SubmissionWorker.ConfirmSaved | src/moodle_autotask/adapters/aws/worker.py:503-512 | without drafts, completion follows a verification that returned a receipt |
| SubmissionWorker.SubmissionWorker.ContinueDraft | src/moodle_autotask/adapters/aws/worker.py:494-502 | with drafts, the saved draft is verified and recorded before anything is finalized |
| SubmissionWorker.SubmissionWorker.FinalizeSubmission | src/moodle_autotask/adapters/aws/worker.py:521-568 | reconcile first, then draft check, finalize and verification |
| SubmissionTheorems.NextKeepsInv | src/moodle_autotask/adapters/moodle/approval_state.py:1263-1397 | every store transaction, remote call, crash, lease expiry and lost response keeps the invariant of rows, leases and calls |
| SubmissionTheorems.AfterKeepsInv | src/moodle_autotask/adapters/moodle/approval_state.py:1263-1397 | so does every run of any number of workers |
| SubmissionTheorems.SavedAtMostOnce | src/moodle_autotask/adapters/aws/worker.py:434-518 | save is called at most once per event over every run |
| SubmissionTheorems.CallsAreApproved | src/moodle_autotask/adapters/moodle/approval_state.py:1214-1261 | every remote call concerns a row with a human submit decision on that exact manifest |
| SubmissionTheorems.SubmittedIsVerified | src/moodle_autotask/adapters/moodle/approval_state.py:1554-1616 | a submitted row has the decision and a receipt that a verification of its manifest returned |
| SubmissionTheorems.DecisionStays | src/moodle_autotask/adapters/moodle/approval_state.py:1214-1261 | a decided row keeps manifest and decision |
| SubmissionTheorems.SoloFinalizesOnce | src/moodle_autotask/adapters/aws/worker.py:521-568 | with one worker at a time finalize is never called once Moodle holds the submission |
| SubmissionTheorems.FinalizeMeetsHeldIff | src/moodle_autotask/adapters/aws/worker.py:521-568 | with any number of workers, a finalize call meets a submission that Moodle already holds if and only if, of all saves and finalizes that reached Moodle for the event since this worker's own draft check, another worker's finalize came last |
| SubmissionTheorems.FinalizeMeetsHeldIffOvertaken | src/moodle_autotask/adapters/aws/worker.py:434-568 | where Moodle had no exact draft before, that is so if and only if another worker's finalize of the event took effect after this worker's draft check |
| SubmissionTheorems.TwoWorkersFinalizeTwice | src/moodle_autotask/adapters/aws/worker.py:521-568 | with two workers it happens: a concrete run from an empty store |
| WorkItems.SelectWork | src/moodle_autotask/adapters/moodle/approval_state.py:700-720 | the first eligible row that does not have to wait for the lab, or every eligible row has to |
| WorkItems.WorkStore.ClaimWork | src/moodle_autotask/adapters/moodle/approval_state.py:663-741 | hands out that row under a fresh lease and counts the attempt; refused only at the bound of the attempts column |
| WorkItems.WorkStore.FinishClaim | src/moodle_autotask/adapters/moodle/approval_state.py:1531-1552 | takes effect exactly under the claim's own live lease, and writes the row that the operation describes |
| WorkItemTheorems.NextKeepsInv | src/moodle_autotask/adapters/moodle/approval_state.py:663-866 | every claim and every operation of any claim ever handed out keeps the store's invariant |
| WorkItemTheorems.StoreIsSound | src/moodle_autotask/adapters/moodle/approval_state.py:226-253 | over every run at most one item occupies the lab or is about to; every finish directly follows its own claim; every row meets the table checks and decodes; the corruption probe never fires |
| WorkItemTheorems.TokensFinishOnce | src/moodle_autotask/adapters/moodle/approval_state.py:1531-1552 | between two finishes of an event lies the claim of the second one's token |
| WorkItemTheorems.StatusNeverFalls | src/moodle_autotask/adapters/moodle/approval_state.py:1464-1494 | no operation moves an item's status back |
| WorkItemTheorems.ChoiceIsAccepted | src/moodle_autotask/adapters/aws/worker.py:165-322 | every operation that the worker chooses for an item it has claimed passes the store's checks of that item, in every reachable state |
| WorkItemTheorems.NeverCompletedTwice | src/moodle_autotask/adapters/aws/worker.py:165-322 | over every run the worker never completes an execution that is already in the outbox |
| WorkItemTheorems.AttemptsReach | src/moodle_autotask/adapters/moodle/approval_state.py:663-741 | a run from an empty store brings an item to any number of attempts, the bound included |
| WorkItemTheorems.AttemptsBoundBlocksClaims | src/moodle_autotask/adapters/moodle/approval_state.py:727-734 | an item at the bound of the attempts column blocks every claim while it is first |
| Reconciliation.ReadPage | src/moodle_autotask/adapters/moodle/approval_state.py:1020-1027 | the first receipts behind the cursor in key order, up to the limit |
| Reconciliation.CompletionStore.ReconciliationPage | src/moodle_autotask/adapters/moodle/approval_state.py:1010-1055 | a page, a wrap that resets the cursor, or an empty ledger |
| Reconciliation.Coordinator.Reconcile | src/moodle_autotask/adapters/aws/retention_runtime.py:92-111 | one cycle up to the retention work, with the flag that skips reconciliation once after a wrap |
| Reconciliation.PagesIsCeiling | src/moodle_autotask/adapters/aws/retention_runtime.py:92-111 | the number of pages is the ceiling of the number of receipts over the limit |
| Reconciliation.PassFrom | src/moodle_autotask/adapters/moodle/approval_state.py:1010-1088 | from any position a pass reads the rest of the ledger, each receipt once |
| Reconciliation.PassTheorem | src/moodle_autotask/adapters/aws/retention_runtime.py:92-111 | a pass is exactly that many page cycles, whose pages put together are the ledger, plus one wrap cycle, and the next cycle reaches the retention work |
| Reconciliation.NoCycleIsWasted | src/moodle_autotask/adapters/aws/retention_runtime.py:92-111 | every earlier cycle of the pass is a page |
| Reconciliation.MissingReceiptStops | src/moodle_autotask/adapters/aws/retention_runtime.py:92-108 | with a recorded completion whose receipt is missing, from any position and over any number of cycles: the full pages before it are passed, and every later cycle ends in the conflict on its page, so neither the wrap nor the retention work is reached again |
| Coordination.RetentionCoordinator.ActionableAck | src/moodle_autotask/adapters/aws/retention_fs.py:1117-1163 | the first committed record in directory order that is acknowledged and not completed |
| Coordination.RetentionCoordinator.ActionableCommitted | src/moodle_autotask/adapters/aws/retention_fs.py:1165-1199 | whether some committed record is not acknowledged |
| Coordination.RetentionCoordinator.CommitFirst | src/moodle_autotask/adapters/aws/retention_runtime.py:120-143 | commits exactly the first plan that is not completed, at this cycle's time, unless the record exists with another time |
| Coordination.RetentionCoordinator.Cycle | src/moodle_autotask/adapters/aws/retention_runtime.py:112-143 | acknowledgement first, then waiting, then committing; each cycle is a run of the step machine, with what the agent does between the two scans |
| Coordination.AtMostTwoOpen | src/moodle_autotask/adapters/aws/retention_runtime.py:112-143 | in every reachable state at most one commitment lacks its acknowledgement and at most two lack their receipt |
| Coordination.SecondOpensIffLate | src/moodle_autotask/adapters/aws/retention_runtime.py:112-119 | a commit leaves two open if and only if an acknowledgement came between the two scans of its cycle |
| Coordination.AtMostOneOpen | src/moodle_autotask/adapters/aws/retention_runtime.py:112-143 | over every run without such an acknowledgement at most one committed tombstone lacks its receipt |
| Coordination.TwoMayBeOpen | src/moodle_autotask/adapters/aws/retention_runtime.py:112-119 | a concrete run with two open commitments |
| Coordination.BundleAfterScratch | src/moodle_autotask/adapters/aws/retention_runtime.py:130-143 | an event's bundle is committed only after its scratch has its receipt |
| Coordination.CommittedInAge | src/moodle_autotask/adapters/aws/retention.py:108-218 | nothing is committed before creation plus scratch age, or delivery plus evidence age |
| RetentionAges.AfterKeepsInv | src/moodle_autotask/adapters/aws/retention_runtime.py:92-143 | in every run of coordinator and protocol together the coordinator's books are the ledgers, and every committed record is one that it chose, at that time |
| RetentionAges.Projects | src/moodle_autotask/adapters/aws/retention_runtime.py:92-143 | a joint run is a run of the protocol on one side and a run of the coordinator on the other |
| RetentionAges.BundlesDeletedInAge | src/moodle_autotask/adapters/aws/retention_fs.py:579-588 | a bundle is deleted only when its delivery plus the evidence age has passed and the scratch of its event is gone from both sides |
| RetentionAges.AgentScratchDeletedInAge | src/moodle_autotask/adapters/aws/retention_fs.py:579-588 | what the agent holds of an execution is deleted only when its creation plus the scratch age has passed, but for a workspace that its executor starts afresh |
| RetentionAges.ControllerScratchDeletedInAge | src/moodle_autotask/adapters/aws/retention_fs.py:969-991 | so are the controller's job directories and the dispatch record |
| RetentionAges.ChosenBundleGoes | src/moodle_autotask/adapters/aws/retention_fs.py:487-602 | from every state in which the coordinator has chosen a bundle that is due, undisturbed, a run of the protocol deletes it and acknowledges it, and the coordinator learns of both |
| Coordination.StrandedForEver | src/moodle_autotask/adapters/aws/retention_fs.py:1117-1163 | a committed record whose clean-up a crash cut off after the receipt is never taken up again |
| Coordination.LeavesIffAttended | src/moodle_autotask/adapters/aws/retention_fs.py:1117-1163 | a committed record with its receipt leaves the ledger in some run if and only if the coordinator stands at its clearing or its clean-up |
| Coordination.CrashStrands | src/moodle_autotask/adapters/aws/retention_fs.py:988-992 | a crash right after the receipt does that |
| Planning.PlanRetention | src/moodle_autotask/adapters/aws/retention.py:108-218 | the first plans up to the limit that are not completed; refused exactly if an inconsistent or repeated record comes before the limit is reached |
| Planning.PlansAreWellFormed | src/moodle_autotask/adapters/aws/retention.py:108-218 | every plan is due and passes the decoder's checks; scratch comes before evidence |
| Planning.PlansRespectAges | src/moodle_autotask/adapters/aws/retention.py:108-218 | no plan before the age of the execution or of the delivery |
| Planning.RoundTrip | src/moodle_autotask/adapters/aws/retention.py:221-226 | a tombstone survives encoding if it is well formed, and nothing else decodes to it |
| Planning.PlansSurvive | src/moodle_autotask/adapters/aws/retention.py:293-410 | every planned tombstone is read back unchanged |
| Planning.IdentifierFixesTombstone | src/moodle_autotask/adapters/aws/retention.py:293-410 | well-formed tombstones with the same identifier are the same |
| ArtifactManifest.ValidateManifest | src/moodle_autotask/adapters/aws/central_protocol.py:77-118 | the scan accepts exactly the bounded, strictly ordered, collision-free manifests with true totals |
| ArtifactManifest.OutcomeManifestFollows | src/moodle_autotask/adapters/moodle/approval_state.py:2478-2523 | what the protocol accepts the approval store accepts |
| CentralProtocol.ValidateTerminalChain | src/moodle_autotask/adapters/aws/central_protocol.py:861-952 | the loop accepts exactly the failed or rejected prefixes whose records are bound to each other |
| CentralProtocol.ReviewerFixesJobs | src/moodle_autotask/adapters/aws/central_protocol.py:697-786 | two accepted job triples with the same reviewer job id are identical |
| CentralProtocol.ReviewerFixesResults | src/moodle_autotask/adapters/aws/central_protocol.py:789-858 | and accepted result chains over them agree on the planner's and the executor's results |
| CentralProtocol.ChainHasPrefix | src/moodle_autotask/adapters/aws/central_protocol.py:955-999 | an accepted chain stays acceptable as a job prefix when its results are gone |
| Provenance.TerminalIsValid | src/moodle_autotask/adapters/aws/central_protocol.py:1002-1114 | for every accepted terminal chain the built provenance passes its own validation |
| Provenance.BudgetIsValid | src/moodle_autotask/adapters/aws/central_protocol.py:1016-1066 | so it does for every successful prefix that the next job's size cuts off |
| Provenance.StoredRecordDecodes | src/moodle_autotask/adapters/moodle/approval_state.py:2311-2466 | every outcome that the store takes decodes as a retention record, which the planner accepts exactly if it has provenance |
| Provenance.PlannedFromStored | src/moodle_autotask/adapters/aws/retention.py:108-218 | once old enough, a stored outcome is planned for deletion of exactly its jobs, by tombstones that decode unchanged |
| CentralBroker.Broker.EnsureJob | src/moodle_autotask/adapters/aws/agent_spool.py:482-624 | publishes exactly a valid job that fits, has no barrier, conflicts with nothing published and, if it is there, finds the root within its limit, and otherwise is admitted and fetched; nothing published is lost or changed; over budget and refused are told apart in the code's order |
| CentralBroker.Broker.TerminalProgress | src/moodle_autotask/adapters/aws/agent_spool.py:405-435 | reads the durable jobs back, validates the chain and reports it, or refuses |
| CentralBroker.Broker.StepCentral | src/moodle_autotask/adapters/aws/agent_spool.py:279-403 | one step equals the specification without second checks: none of the checks on re-read records ever fails |
| CentralBroker.Broker.AwaitPlan | src/moodle_autotask/adapters/aws/agent_spool.py:287-312 | the part from the planner's result on |
| CentralBroker.Broker.AwaitExecution | src/moodle_autotask/adapters/aws/agent_spool.py:313-354 | the part from the executor's result on |
| CentralBroker.Broker.AwaitReview | src/moodle_autotask/adapters/aws/agent_spool.py:355-403 | the part from the review result on |
| CentralBroker.AcceptedIsValid | src/moodle_autotask/adapters/moodle/approval_state.py:2148-2226 | the provenance of every accepted chain passes the store's validation |
| CentralBroker.EveryExitIsBacked | src/moodle_autotask/adapters/aws/agent_spool.py:279-425 | ledger and spool hold the chain that an exit reports, and the validators accept it as complete, terminal or cut off |
| CentralBroker.EveryExitCompletes | src/moodle_autotask/adapters/moodle/approval_state.py:786-866 | the store takes every exit: its provenance validates, binds to the item and matches the outcome |
| CentralBroker.EveryExitIsCollected | src/moodle_autotask/adapters/moodle/approval_state.py:2311-2466 | its stored payload decodes, and its tombstones are planned and survive their codec |
| CentralBroker.StepIsOrderly | src/moodle_autotask/adapters/aws/agent_spool.py:482-624 | a step loses or changes no published job, adds only its own sound jobs that fit, have no barrier and were admitted and fetched, and is pending only on the result of a job that it has published |
| CentralBroker.ChainEndsWell | src/moodle_autotask/adapters/aws/agent_spool.py:365-403 | for a recorded complete chain the step ends accepted, with that chain's provenance and those three jobs in the ledger |
| CentralBroker.AcceptedExactlyOnChains | src/moodle_autotask/adapters/aws/agent_spool.py:279-403 | the step reports acceptance if and only if such a chain is there |
| CentralBroker.SomeWorkIsAccepted | src/moodle_autotask/adapters/aws/agent_spool.py:279-403 | there is a work item and a spool whose step ends in acceptance |
| ChainReservation.ExecutorJobBytes | src/moodle_autotask/adapters/aws/agent_spool.py:482-520 | the executor's canonical job is the planner's plus 259 bytes plus the plan |
| ChainReservation.ReviewerJobBytes | src/moodle_autotask/adapters/aws/agent_spool.py:482-520 | the review job is the planner's plus 632 bytes plus the plan and the execution |
| ChainReservation.PlanBytes | src/moodle_autotask/adapters/aws/central_protocol.py:172-205 | a planner's result is at least 360 bytes longer than its plan |
| ChainReservation.EnvelopeBytes | src/moodle_autotask/adapters/aws/agent_spool.py:1179-1198 | the dependency envelope is 654 bytes |
| ChainReservation.ReservationCoversChain | src/moodle_autotask/adapters/aws/agent_spool.py:1149-1176 | the chain reservation dominates the three job demands together, in block-rounded bytes and in nodes, for every block size, input set, plan and execution within the result bound |
| ChainReservation.PublishedJobHolds | src/moodle_autotask/adapters/aws/storage_quota.py:206-344 | what the admission walk counts of a published job is its demand plus the bytes that its two directories allocate, so it keeps within the demand if and only if they allocate none |
| ChainReservation.LaterJobsAdmittedIff | src/moodle_autotask/adapters/aws/storage_quota.py:151-203 | in an admitted chain that nothing else disturbs the planner's job is admitted; the executor's and the review's are if and only if the directory bytes of the jobs before them still fit |
| ChainReservation.ReservationSufficesIff | src/moodle_autotask/adapters/aws/storage_quota.py:151-203 | the review job is admitted under every limit under which the chain was if and only if the slack of the reservation over the three demands covers the bytes of the four directories made before |
| ChainReservation.ChainIsStranded | src/moodle_autotask/adapters/aws/storage_quota.py:278-344 | a concrete chain, with blocks of 4096 bytes, that is admitted and whose review job is then refused |

## Left out

- Lab protocol records: the checks of lab jobs, dispatch records and lab provenance, and the broker's lab step apart from its dispatch.
- fsync and the order in which writes reach the disk after a power loss; a crash here is a process crash.
- Owner, mode, symbolic link and descriptor checks, umask and the Windows branches.
- Failing system calls other than those that the code tests for, such as a mode change that fails right after a link.
- `Retention`: admission is left to `PublicationGroup` and `AgentReplay`, and a refusal is a stop; preflight checks of file contents are left out; prepared records are not tracked.
- `AgentReplay`, `ControllerReplay`: crash points inside the publication of one record, which are those of `Attempts`; evidence tombstones, whose only target is one file.
- `Attempts`: preflight checks and the locks, which a crash does not change; soft admission of the other root is a given truth value.
- `Coordination`: the prepared ledger, soft admission and the bookkeeping of completed plans are stops; records offered to a cycle are arbitrary.
- `StorageTree`: changes of the tree while it is measured, and expected owners and modes.
- `ChainReservation`: values inside an envelope are given by their canonical text; escaping is not modelled; the jobs root itself does not grow by a block when a job's name is added.
- `CentralProtocol`: plan steps, texts, prepared inputs, evidence texts, findings and size bounds are one flag of the record that carries them.
- `CentralBroker`: summaries and reports; the zip container of a bundle, which is its list of files here.
- `Submission`: error codes, notifications, and the read-only offer before a decision; a save that fails otherwise than with the adapter's runtime error, after which the code fails the row without verifying.
- `ResultSpool`: results and bundles lie in one directory here and in two in the code, with names that cannot meet.
- `WorkItems`: error codes that do not steer the worker, notifications, schema migrations.
- `Planning`: the size bound of a metadata record and the text form of digests and identifiers.
- The command-line programs, AWS and Moodle clients, presigned transfer, health checks and messages.
