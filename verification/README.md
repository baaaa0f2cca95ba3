# Verified model of the password book's sync core

This project models, in Dafny 4.11, how the password book keeps encrypted entries in step between a
server and its clients, and proves what that machinery guarantees. It has four parts.

**The server** (`Server`, `SyncService`, `ServerInvariant`, `ServerHistory`, `Authority`, `ServerChanges`, `Rekey`,
`Pulling`, `KeyDelivery`). Tables of entries, groups, members, users and key envelopes; steps that push a
mutation, upload keys, administer users and groups, and clean tombstones. `SyncService.Service` is the
mutable service; its methods are proved to move the tables exactly as the functions of `Server` do,
and the invariants and history theorems are about runs of those functions. Two history fields, the
accepted writes in order and every envelope key ever inserted, are read by no operation.

**The client** (`Client`, `Engine`, `Agreement`, `Ancestor`, `ClientSafety`, `Cursor`, `CursorExample`,
`Labels`, `Mirror`, `Exchange`, `RekeyFlow`, `RoundSpec`, `RoundKeys`, `RoundTexts`, `WorldRuns`, `WorldExamples`).
Local rows, waiting changes, keys, recycle bin, held groups and cursor. `Engine.SyncEngine` is the mutable
engine and calls `SyncService.Service`; `RoundSpec` says what a whole round of it can come to, failures
included, and that each is a run of the `World` of `Agreement`, the theorem about one client and the server
under everything anybody does. `RoundKeys` says what a round does with keys and `RoundTexts` with texts,
`Exchange` how a text gets from one client to another, `Mirror` joins the cursor to the rows, `RekeyFlow`
is a key rotation from commit to end.

**The merger** (`StringLiteral`, `Json`, `JsonText`, `JsonSpacing`, `StringOrder`, `Merge`, `MergeCorrect`,
`MergeLaws`, `ConflictMark`). JSON trees with ordered members and raw string spellings, their texts with any white
space, the recursive three-way merge, its conflict list, and the conflict marks.

**Four small pieces** (`DekCache`, `RateLimit`, `Hub`, `LengthPrefix`). The data-key cache with its byte
arrays, the fixed-window limiter, the notification hub under interleaving, the length-prefixed encoding.

Modelling choices. Each push of one mutation, key upload, pull and admin request is one atomic step.
Encryption is ideal: a sealed text opens only with its key, entry and group. A wrapped key, an
attestation verdict, a clock value, a fresh key, the order in which a table lists its rows and the
answers of the network are parameters. The vault stays unlocked except in `DekCache`.

Run `dafny verify dfyconfig.toml` to check everything.

## What the code does not guarantee

Each of these is proved together with the exact condition or a concrete state.

- A push that names another group than the one its entry is stored in can put a finished entry back
  behind its group (`Rekey.ForeignPushRaisesStale`).
- Any accepted push clears a pending rekey when nothing is behind the current version, even if no rekey
  took place (`Rekey.PendingLostWithoutRekey`).
- A page filled with other groups' rows makes the cursor jump over the client's own later rows
  (`Cursor.RoundKeepsComplete`, `CursorExample.CursorJumps`).
- A live change that does not open overwrites an unpushed edit, a deletion or a conflict
  (`ClientSafety.EditSurvivesChange`, `ClientSafety.DeletionFate`, `ClientSafety.ConflictRowFate`,
  `WorldExamples.UnreadableChangeExample`).
- A field removed on one side, or on both, comes back as null in the merged document (`MergeLaws.EqualSidesMerge`,
  `MergeLaws.UnchangedSideGivesWay`).
- Re-encryption replaces the user's side of an unresolved conflict (`ClientSafety.ReencryptOverwritesConflicts`).
- An edit made while an earlier edit without a base, a resolution or a restore still waits to be pushed
  takes the user's own text as the base of the next merge (`Ancestor.EditKeepsBases`, `Ancestor.EditAfterResolve`).
- A refused deletion can lower the version of its tombstone, and the restored entry is then pushed under
  a version it is not sealed under (`Labels.EditsKeepLabels`, `WorldExamples.RestoreMislabelsExample`).
- A stale-version answer holds the group until this client itself runs a rekey or restarts (`ClientSafety.HeldUntilRekey`).
- An edit or deletion made while the same entry is being pushed can be lost (`Agreement.LateAcceptance`,
  `Agreement.DeletionDuringPush`).
- A client that loses a race for a rekey keeps the wrong key and is not sent the right one by an
  ordinary round (`KeyDelivery.RaceLoserNeverGetsTheKey`).
- A conflict below two keys cannot be resolved by choosing a side. Choosing an absent side blanks the
  document at a path of one key; at a path of two keys it makes null of the object around the field, and
  the siblings are lost (`ConflictMark.ResolveMergedConflict`, `ConflictMark.SiblingLostExample`).

Where comments and code disagree, the model follows the code: `server/sync/notify.go:48` speaks of the
users of the groups but every subscriber is notified; `client/core/syncer/engine.go:632-633` says a push
conflict keeps the server's text in the base snapshot but the snapshot is left as it was;
`client/core/syncer/engine.go:431-433` announces a pull of one group but names the group only as a key
version declaration.

## Model

| member | source | states |
|---|---|---|
| SyncService.Service.UpsertEntry | server/store/sqlite.go:584-604 | the counter goes up by one, the row is stored under it, an existing row keeps its group, and the write is the next one of the history |
| SyncService.Service.CountEntriesBelowKV | server/store/sqlite.go:369-376 | exactly the number of live entries of the group below the version |
| SyncService.Service.MaybeFinishRekey | server/sync/push.go:115-129 | clears the pending flag and the older envelopes exactly when no live entry is behind, and otherwise changes nothing |
| SyncService.Service.PushOne | server/sync/push.go:36-111 | one mutation: the same checks in the same order, one answer, the whole new state; a notification exactly for an acceptance |
| SyncService.Service.Push | server/sync/push.go:16-33 | a batch is its mutations one after the other, and the notified groups are those of the accepted ones |
| SyncService.Service.ActiveMemberIDs | server/sync/envelopes.go:153-172 | lists every active member of the group once and nobody else |
| SyncService.Service.InsertAll | server/store/sqlite.go:606-631 | the insert loop succeeds exactly when no named key exists and no user is named twice |
| SyncService.Service.OnlyNames | server/sync/envelopes.go:42-48 | true exactly if every submitted user is an active member |
| SyncService.Service.NamesAll | server/sync/envelopes.go:65-70 | true exactly if every active member is submitted |
| SyncService.Service.AppendKeys | server/sync/envelopes.go:86-117 | appending: the whole new state, or no change on a clash |
| SyncService.Service.CommitKeys | server/sync/envelopes.go:121-149 | a rekey commit: the whole new state, envelopes replaced, version raised, and the rotation finished at once if nothing is behind |
| SyncService.Service.UploadKeys | server/sync/envelopes.go:17-74 | every branch of the upload, with its error code and state |
| SyncService.Service.CreateUser | server/api/admin.go:44-89 | a new active user, or the refusal: a missing field, a failed attestation, a taken name or public key |
| SyncService.Service.ListUsers | server/api/sync.go:201-218 | every active user with their public key |
| SyncService.Service.Revoke | server/api/admin.go:92-166 | user inactive, envelopes gone, every group of the user left and flagged |
| SyncService.Service.KeyfileReset | server/api/admin.go:169-234 | for an active user with a valid attestation: the new public key, envelopes gone, groups flagged, memberships kept |
| SyncService.Service.CreateGroup | server/api/admin.go:237-267 | a group at version 1; an active admin joins it |
| SyncService.Service.AddMember | server/api/admin.go:294-329 | adds the membership of an active user to an existing group |
| SyncService.Service.RemoveMember | server/api/admin.go:462-498 | membership and the user's envelopes of the group gone, group flagged |
| SyncService.Service.TriggerRekey | server/api/admin.go:376-398 | flags the group |
| SyncService.Service.Archive | server/api/admin.go:401-435 | archives a group whose name was confirmed |
| SyncService.Service.Unarchive | server/api/admin.go:438-459 | takes a group out of the archive |
| SyncService.Service.CleanTombstones | server/store/sqlite.go:648-652 | drops the old tombstones and no other row |
| SyncService.Service.PullChanges | server/store/sqlite.go:321-328 | the rows above the cursor in ascending order, at most the limit |
| SyncService.Service.PullEnvelopes | server/sync/pull.go:100-114 | exactly the user's envelopes above the declared versions, of one group if only that was asked for |
| SyncService.Service.PullOwn | server/sync/pull.go:85-98 | the page cut down to the user's groups |
| SyncService.Service.GroupStates | server/sync/pull.go:153-175 | the state of each group, each group once |
| SyncService.Service.MissingEnvelopes | server/sync/pull.go:177-219 | the active members without a current envelope and all active members, both sorted; nobody for an archived group |
| SyncService.Service.Pull | server/sync/pull.go:63-133 | the whole response: counter, own changes, own envelopes above the declared versions, the state of every group; a pull of a single group is refused to non-members |
| ServerInvariant.StepKeepsInv | server/sync/push.go:36-111 | every server step keeps the invariant: numbering, latest rows, chains, envelopes of active members only and never ahead of their group |
| ServerInvariant.ReachableInv | server/store/sqlite.go:467-473 | the invariant holds after every run from the empty server |
| ServerHistory.OneWritePerBase | server/sync/push.go:65-83 | over the whole history at most one mutation per entry and nonzero BaseSeq was accepted |
| ServerHistory.WritesFormChain | server/sync/push.go:65-111 | after any run, over any stretch without a cleanup: each write of an entry stored when the stretch began, or written earlier in it, names the entry's previous write |
| ServerHistory.BatchInv | server/sync/push.go:16-33 | a batch answers every mutation, keeps the invariant and only extends the history |
| ServerHistory.BatchResults | server/sync/push.go:16-111 | a refused mutation of a batch changes nothing; an accepted one answers with the number under which its row stays in the history |
| ServerHistory.EnvelopesNeverOverwritten | server/sync/envelopes.go:86-149 | an envelope that is still there after a step has the value it had |
| ServerHistory.OldKeysKept | server/store/sqlite.go:643-646 | except for cutting someone off, no step deletes an envelope while a live entry of its group is still at that version |
| ServerHistory.CountUsers | server/sync/envelopes.go:58-70 | equal length and both inclusions mean: each member exactly once |
| ServerHistory.RekeyNamesEachMemberOnce | server/sync/envelopes.go:56-71 | a rekey is accepted if and only if it names every active member exactly once; then nobody lacks an envelope |
| ServerHistory.WrappingMissingCompletes | server/sync/pull.go:177-219 | an upload for exactly the missing members is accepted and completes the group, keeping all envelopes |
| ServerHistory.RunNeverGrants | server/sync/envelopes.go:42-48 | a user outside a group is granted nothing in it over any run without readmission |
| ServerHistory.RemovedUserIsSealedOff | server/api/admin.go:120-140 | after a removal or revocation, over any run without readmission, the user is never given an envelope above the version of the group at the removal, and every accepted mutation of the group carries at least every version committed before it |
| Rekey.PushAndStale | server/sync/push.go:84-111 | the exact effect of an accepted push on the stale entries of every group |
| Rekey.ForeignPushRaisesStale | server/sync/push.go:65-83 | a push can put an entry back behind its group exactly when it names another group and is live and below that group's version |
| Rekey.ForeignPushExample | server/store/sqlite.go:594-598 | a state reached from the empty server, and the push |
| Rekey.StepShrinksStale | server/sync/push.go:84-111 | with mutations naming the entry's own group, only a rekey commit adds stale entries |
| Rekey.PushSettles | server/sync/push.go:115-129 | an accepted push clears the pending flag exactly when it leaves nothing behind |
| Rekey.PendingLostWithoutRekey | server/sync/push.go:115-129 | after a removal an ordinary push clears the pending flag without a rekey exactly when nothing else is stale |
| Rekey.PendingLostExample | server/sync/push.go:115-129 | such a state and push |
| Rekey.SettlingRun | server/sync/push.go:84-129 | over a run without further rekeys, stale entries only leave, and an entry leaves with its first accepted push |
| Rekey.RekeyConverges | server/sync/push.go:84-129 | once every stale entry was pushed, pending is clear, no older envelope is left and all live entries are at the version |
| Rekey.OwnGroupRunsNotAhead | server/sync/push.go:60-63 | no live entry is ever ahead of its group |
| Authority.AcceptedIff | server/sync/push.go:36-83 | a mutation is accepted if and only if its author is a member of an existing group that is not archived, it fits, and version and base are the stored ones; otherwise nothing changes |
| Authority.RefusalTellsWhy | server/sync/push.go:36-83 | each error code is true of the tables, and a conflict brings exactly the stored row |
| Authority.AcceptedIsStored | server/sync/push.go:84-111 | an accepted mutation is from then on the stored row, with the next number, and nothing else of entries, members and users changes |
| Authority.UploadAcceptedIff | server/sync/envelopes.go:17-74 | an upload is accepted if and only if its author may write and it adds missing envelopes of active members or names every active member once for the next version |
| Authority.UploadIsStored | server/sync/envelopes.go:86-149 | every envelope of an accepted upload is stored as sent, and the group is at its version |
| Authority.OutsiderChangesNothing | server/sync/envelopes.go:17-37 | pushes and uploads of a non-member, or to an archived group, leave the whole state as it was |
| Authority.RemovedUserCannotWrite | server/sync/push.go:37-44 | over every run after a removal or revocation without readmission, nothing the user sends to the group changes anything, and no accepted push of the group is theirs |
| Authority.RevocationTakesEffect | server/api/admin.go:113-140 | a confirmed revocation: inactive, out of every group, each of those flagged, no envelope left, all else as before |
| Authority.RevokedForever | server/api/admin.go:184-188 | over every run whatsoever a revoked user stays revoked, in no group, without envelopes, and without effect |
| Authority.ResetLocksOut | server/api/admin.go:169-220 | after a key reset the user keeps the groups, lacks an envelope in each, and each is flagged; without attestation nothing happens |
| ServerChanges.EntryChanges | server/sync/push.go:36-111 | of all steps, a stored entry changes exactly by an accepted mutation of it or by the cleaning of an old tombstone |
| ServerChanges.MemberChanges | server/api/admin.go:294-329 | members come exactly by admission of an active user and go exactly by confirmed removal or revocation |
| ServerChanges.FlagChanges | server/sync/push.go:115-129 | a rekey is pending exactly while one was asked for and no accepted push or rekey has left the group without stale entries since |
| ServerChanges.FlagLasts | server/api/admin.go:376-398 | so a flag lasts over every run in which nothing settles the group |
| ServerChanges.GroupChanges | server/sync/envelopes.go:121-149 | version and archiving change by an accepted rekey, a confirmed archiving and an unarchiving alone |
| ServerChanges.GroupAppears | server/api/admin.go:237-267 | a group appears at version 1, neither pending nor archived, and only by creation under a name |
| ServerChanges.UserChanges | server/api/admin.go:44-234 | how a user's record comes about and changes: attested enrolment under a free name and key, confirmed revocation, attested new key |
| ServerChanges.UsernamesUnique | server/api/admin.go:61-70 | in every reachable state no two users share a user name |
| ServerChanges.EnvelopeAppears | server/sync/envelopes.go:86-149 | an envelope appears exactly by an accepted upload that names its user, group and version |
| ServerChanges.EnvelopeGoes | server/store/sqlite.go:633-646 | an envelope goes exactly when its user is cut off or reset, or its group settles at a later version |
| ServerChanges.ArchivedGroupFrozen | server/api/admin.go:401-459 | over every run without unarchiving, no mutation or upload reaches an archived group: entries, keys and version stay |
| KeyDelivery.DeliveredIff | server/sync/pull.go:100-114 | an envelope is delivered exactly when it is newer than every key the client has for the group |
| KeyDelivery.RaceLoserRefused | server/sync/envelopes.go:86-117 | after one member's rekey a second upload for the same version is refused without effect |
| KeyDelivery.EventsKeepKey | server/sync/pull.go:100-114 | over ordinary rounds, later rekeys and first keys, a key stored for a group's version stays as it is |
| KeyDelivery.RaceLoserNeverGetsTheKey | client/core/syncer/rekey.go:36-75 | the client that lost keeps its own key over every such run, and no live change sealed under the winning key ever opens |
| RoundSpec.PullTeachesDelivered | client/core/syncer/engine.go:350-359 | the keys an ordinary pull teaches are of versions above those declared |
| RoundKeys.LearnsLast | client/core/syncer/engine.go:350-359 | opening envelopes leaves under each slot the key of the last envelope for it before the first that does not open, and all other keys as they were |
| RoundKeys.PullTeachesAll | server/sync/pull.go:100-114 | a pull whose envelopes open leaves the client with the key of every envelope the server has for it above what it declared |
| RoundKeys.PullTellsGroups | server/sync/pull.go:153-219 | a pull tells of each group once: version, flag, archiving, the active members, and which of them lack an envelope; of an archived group nobody |
| RoundKeys.PullOfOneGroup | server/sync/pull.go:63-133 | a pull of one group brings the group's rows alone, and its envelopes |
| RoundKeys.OnlyActiveWrapped | client/core/syncer/rekey.go:52-66 | an envelope is made only for an active user among those listed, and sealed for that user's own key |
| RoundKeys.RoundTeachesAll | client/core/syncer/engine.go:269-347 | and it still has all of them at the end of the round, full pulls, wrapping and rekeys of its own included |
| RoundKeys.TaughtKeyOpens | client/core/syncer/engine.go:350-359 | what was sealed with such a key opens after the round |
| RoundKeys.GivingCompletes | client/core/syncer/wrap.go:10-73 | a wrapping that succeeds leaves nobody without an envelope, and gives the missing members the client's key |
| RoundKeys.RotationCommits | client/core/syncer/rekey.go:11-85 | a pending rekey with the key at hand puts the group at the next version with an envelope of the new key for every active member, unless the upload is lost |
| RoundKeys.RotatedReaches | server/sync/pull.go:100-114 | the new key then reaches every such member with their next pull |
| RoundKeys.RoundServesGroups | client/core/syncer/engine.go:386-429 | a round that gets through its coordination does both for every group of the user that is not archived, whatever it does for the others |
| RoundTexts.GroupPulledWhenNeeded | client/core/syncer/engine.go:390-406 | exactly a group new to the client or back from the archive is pulled from the beginning, and before anything else |
| RoundTexts.GroupIsNoted | client/core/syncer/engine.go:407-409 | the version and archiving the pull told of are noted, whatever becomes of wrapping and rekeying |
| RoundTexts.StoppedAtEnvelope | client/core/syncer/engine.go:298-302 | a round stopped by an envelope that does not open keeps the keys of those before it and changes nothing else |
| RoundTexts.FirstKeyOnlyOnce | client/core/syncer/wrap.go:21-53 | a first key is made only by a client without any key of the group; one that lacks just this version stops the round |
| RoundTexts.FailedRekeyKeepsRows | client/core/syncer/rekey.go:46-75 | a rekey attempt whose upload is refused or lost changes neither the server nor any row |
| RoundTexts.AttemptReleases | client/core/syncer/rekey.go:19-28 | however a rekey attempt ends, the group is no longer held |
| RoundTexts.BatchDelivers | server/sync/push.go:16-33 | a mutation the server can take is accepted in any batch of different entries, and stored as sent |
| RoundTexts.PushDelivers | client/core/syncer/engine.go:577-651 | a push that gets its answer delivers every dirty row the server can take, and the row is clean at its new number |
| RoundTexts.RoundDelivers | client/core/syncer/engine.go:310-326 | and so does a round, for a row that nothing it pulled touches |
| RoundTexts.CleanRowStays | client/core/syncer/engine.go:577-605 | a clean row is neither sent nor changed by a push |
| RoundTexts.PulledIsShown | client/core/syncer/engine.go:310-326 | however the push goes, a pulled version that opens and has nothing in its way is shown after the round |
| RoundTexts.WaitingIsShown | client/core/syncer/engine.go:362-383 | and so is one that was waiting for a key which has come |
| Pulling.PageMembers | server/store/sqlite.go:321-328 | a page holds only stored rows above the cursor, ascending, within the limit |
| Pulling.PageComplete | server/store/sqlite.go:321-328 | a page omits a row above the cursor only if it is full and ends before it |
| Pulling.MineMembers | server/sync/pull.go:85-98 | the group filter keeps exactly the rows of the user's groups, in order |
| Cursor.RoundKeepsComplete | client/core/syncer/engine.go:328-340 | a round keeps the cursor complete if and only if it is not the case that its page is full of foreign rows while an own row is stored above the cursor |
| Cursor.CursorComplete | client/core/syncer/engine.go:328-340 | over any interleaving of steps and rounds with fixed groups and no such page: every stored version of the user's groups at or below last_seq was handed to the engine, and last_seq never falls |
| CursorExample.DensePage | server/store/sqlite.go:321-328 | without gaps a page is the next versions up to the limit |
| CursorExample.CursorJumps | client/core/syncer/engine.go:332-335 | a run from the empty server in which one round jumps over a row the client never receives |
| Client.SealOpensOnlyItsOwn | client/core/vault/crypt.go:58-101 | a sealed text opens for its own entry and group under its own key and otherwise not |
| Agreement.ApplyKeepsOk | client/core/syncer/engine.go:454-574 | applying any committed change keeps the agreement |
| Agreement.FlushKeepsOk | client/core/syncer/engine.go:362-383 | so does flushing the waiting entries |
| Agreement.ResultsKeepOk | client/core/syncer/engine.go:608-651 | so do the answers to a batch whose rows are still as sent |
| Agreement.ReencryptKeepsOk | client/core/syncer/rekey.go:87-127 | so does re-encryption |
| Agreement.EditsKeepOk | client/core/core.go:840-1086 | so do edit, delete, restore and resolve |
| Agreement.PushAmongOk | server/sync/push.go:16-33 | every answer of a batch is true of the history, whatever others do between its mutations |
| Agreement.AgreementHolds | client/core/syncer/engine.go:454-729 | in every reachable state a clean row holds exactly the committed ciphertext at its Seq, a dirty row's Seq is 0 or really its entry's, and a cached text is the sealed one |
| Agreement.PulledGenuine | server/sync/pull.go:85-98 | every change of a pull is one the history holds |
| Agreement.LateAcceptance | client/core/syncer/engine.go:608-628 | an acceptance arriving after the row changed keeps the agreement if and only if the row is gone, a tombstone, or still what was sent |
| Agreement.DeletionDuringPush | client/core/syncer/engine.go:610-617 | a deletion made during the push of its entry: the row goes, and the server has the entry deleted if and only if what was sent was itself a deletion |
| Ancestor.EditKeepsBases | client/core/core.go:855-868 | an edit keeps the merge bases genuine unless it takes its snapshot from a row still to be pushed, and then exactly if the server had that text |
| Ancestor.EditAfterResolve | client/core/core.go:1037-1086 | an edit between resolving a conflict and pushing takes the user's own choice as merge base |
| Ancestor.ResultsAddNoBase | client/core/syncer/engine.go:608-651 | push answers introduce no merge base |
| Ancestor.BasesAreServerTexts | client/core/core.go:840-889 | over every run without such edits, each base of a three-way merge is a text the server committed for the entry |
| ClientSafety.EditSurvivesChange | client/core/syncer/engine.go:454-574 | an unpushed edit stays the cached text awaiting a push or decision, or becomes its merge with the very text that came, if and only if the change is not a live one that has its key and does not open |
| WorldExamples.UnreadableChangeExample | client/core/syncer/engine.go:495-505 | a reachable world in which such a change destroys an edit |
| ClientSafety.EditSurvivesPushConflict | client/core/syncer/engine.go:680-712 | a refused push leaves the edit as cached text awaiting a push or decision, or as its conflict-free merge with the text the refusal brought |
| ClientSafety.ReplayChangesNothing | client/core/syncer/engine.go:458-460 | a replay at or below a conflict row's Seq changes nothing if it deletes or opens, and rows only if it does not open |
| ClientSafety.ConflictRowFate | client/core/syncer/engine.go:561-566 | when the user's side of an unresolved conflict survives a change, exactly |
| ClientSafety.DeletionFate | client/core/syncer/engine.go:518-525 | a waiting deletion survives a change if and only if it opens or waits, and is no new tombstone |
| ClientSafety.DeletionStays | client/core/syncer/engine.go:609-694 | a waiting deletion stays deleted, dirty and empty over every run of readable live changes, flushes, refused pushes, re-encryptions and other entries' events |
| ClientSafety.DeletionEndsWithItsPush | client/core/syncer/engine.go:609-617 | its own accepted push removes the row |
| ClientSafety.DeleteEntryWaits | client/core/core.go:892-917 | deleting an entry makes it a waiting deletion |
| ClientSafety.HeldUntilRekey | client/core/syncer/engine.go:643-648 | after a stale-version answer the group is held, and nothing of it sent, over any run without a rekey |
| Exchange.OpenedChangeIsShown | client/core/syncer/engine.go:506-573 | a live change that opens and meets neither a replay nor anything of the user's becomes the clean row with its text |
| Exchange.WaitsUntilTheKey | client/core/syncer/engine.go:480-494 | a change that comes before its key waits, and ends as if it had come after |
| Exchange.DeletionIsShown | client/core/syncer/engine.go:455-479 | a deletion takes the clean row and recycles it; a row with changes becomes a conflict at its Seq |
| Exchange.TombstoneStands | client/core/syncer/engine.go:518-525 | a local tombstone stands against a live version that opens, and is to be pushed again |
| Exchange.BareConflictMarks | client/core/syncer/engine.go:634-641 | a conflict answer without the server's version marks the row and keeps all it holds |
| Exchange.OtherRefusalsKeepRows | client/core/syncer/engine.go:642-650 | every other refusal leaves the tables as they were; a stale version holds the group |
| Exchange.CurrentRowIsTaken | server/sync/push.go:36-111 | a row resting on the stored version is accepted if and only if its author may write, it fits, and its version is the group's |
| Exchange.EditCarries | client/core/core.go:840-889 | an edit is sealed afresh under the version last noted for the group, opens to its text, and keeps the Seq of the row |
| Exchange.RefusedPushIsTakenNext | client/core/syncer/engine.go:680-729 | what a push conflict leaves rests on the server's version: a merge carries the merged text, a deletion stays one, a conflict keeps both sides, and the next push is refused for no base |
| Exchange.PulledOverEditIsTakenNext | client/core/syncer/engine.go:531-573 | the same for a pulled version that meets an unpushed edit |
| Exchange.ResolutionIsTakenNext | client/core/core.go:1037-1086 | and for a resolved conflict, which carries the chosen text |
| Exchange.NothingToResolve | client/core/core.go:1037-1086 | without a conflict, a text to take or the key, resolving changes nothing |
| Exchange.RestoredIff | client/core/core.go:960-1006 | a restore happens if and only if there is a local tombstone with a recycled ciphertext that opens |
| Exchange.RestoreUndoesDelete | client/core/core.go:892-1024 | restoring after deleting gives the row back with ciphertext, text, version and Seq, if the ciphertext opens |
| Exchange.NextEditStartsFromAccepted | client/core/syncer/engine.go:608-628 | after its acceptance an edit is the clean row, and the merge base of the next one |
| Exchange.EditReachesReader | client/core/syncer/engine.go:454-651 | an accepted edit is shown, with its text and number, by every reader with the key and nothing of their own in the way |
| Exchange.DeletionReachesReader | client/core/syncer/engine.go:455-479 | and an accepted deletion takes the entry from them |
| Exchange.SameTextNeverConflicts | client/core/syncer/engine.go:531-573 | a pulled version with the text of the unpushed edit ends in a conflict if and only if text or base does not read as an object |
| ClientSafety.ReencryptRows | client/core/syncer/rekey.go:87-127 | row by row, what the pass changes and what it leaves |
| ClientSafety.ReencryptPreservesMeaning | client/core/syncer/rekey.go:87-127 | rows that open end at the new version with the same text, dirty, at the same Seq, the cache unchanged without conflict; other rows are untouched |
| ClientSafety.ReencryptOverwritesConflicts | client/core/syncer/rekey.go:114-121 | in a conflict row the user's text is kept if and only if it equals the server's |
| Labels.EditsKeepLabels | client/core/core.go:960-1024 | an edit leaves every live dirty row sealed under the version it is labelled with if and only if it is not a restore whose recycled text is sealed under another |
| Labels.LabelsHold | client/core/syncer/engine.go:454-729 | over every run of client and server in which no restore mislabels, every live dirty row is sealed under its label |
| WorldExamples.RestoreMislabelsExample | client/core/core.go:1001-1006 | a reachable world in which a restore mislabels: the refused deletion lowered the version |
| RekeyFlow.PushRotates | server/sync/push.go:84-129 | a push during a rotation keeps the group, adds nothing stale and clears the group when nothing is stale |
| RekeyFlow.OneBatchSettles | client/core/syncer/engine.go:577-651 | a client with a ready row for every stale entry settles the group with one batch |
| RekeyFlow.RekeyByOneClient | client/core/syncer/rekey.go:11-85 | commit, store the key, re-encrypt and push, with other groups' pushes in between: the rotation is over and every live entry is at the new version |
| Engine.SyncEngine.EncryptPlaintext | client/core/vault/crypt.go:58-77 | seals under the key held for the version, or fails and changes nothing |
| Engine.SyncEngine.TryAutoMerge | client/core/syncer/engine.go:656-673 | the merged document exactly if the three-way merge succeeds without conflict |
| Engine.SyncEngine.ApplyOneChange | client/core/syncer/engine.go:454-574 | the whole new local state for every kind of change |
| Engine.SyncEngine.ApplyRemoteTombstone | client/core/syncer/engine.go:455-479 | a tombstone: replay, conflict or removal, with the recycle bin |
| Engine.SyncEngine.StorePlaintext | client/core/syncer/engine.go:506-573 | a readable change: replay, local tombstone, merge, conflict or plain store |
| Engine.SyncEngine.ApplyAll | client/core/syncer/engine.go:444-451 | changes are applied one after the other |
| Engine.SyncEngine.FlushPendingEntries | client/core/syncer/engine.go:362-383 | every waiting entry is visited once and applied if its key has come |
| Engine.SyncEngine.CollectDirty | client/core/syncer/engine.go:588-602 | exactly the dirty rows of groups not held |
| Engine.SyncEngine.HandlePushResult | client/core/syncer/engine.go:609-650 | the whole new state for every answer |
| Engine.SyncEngine.HandlePushResults | client/core/syncer/engine.go:608-651 | answers are handled one after the other |
| Engine.SyncEngine.ResolveRefusal | client/core/syncer/engine.go:680-712 | a push conflict: tombstone kept, merged, or marked |
| Engine.SyncEngine.WriteMergedDirty | client/core/syncer/engine.go:715-729 | stores the sealed merge, or fails without the key |
| Engine.SyncEngine.PushDirty | client/core/syncer/engine.go:577-651 | client and server after one push, as functions of both before |
| Engine.SyncEngine.LocalKeyVersions | client/core/syncer/engine.go:811-817 | the highest version held, group by group |
| Engine.SyncEngine.ReencryptGroupEntries | client/core/syncer/rekey.go:87-124 | every row is visited once; without the new key nothing changes |
| Engine.SyncEngine.WrapFor | client/core/syncer/rekey.go:52-66 | one envelope for every listed member with a known key |
| Engine.SyncEngine.AutoWrap | client/core/syncer/wrap.go:10-73 | cold start, refusal or append: client and server afterwards |
| Engine.SyncEngine.AutoRekey | client/core/syncer/rekey.go:11-85 | every way a rekey attempt can end, for client and server; once begun, it releases the group in all of them |
| Engine.SyncEngine.ApplyEnvelopes | client/core/syncer/engine.go:350-359 | the keys after the envelopes were opened in turn, up to the first that does not open |
| Engine.SyncEngine.PullGroupFull | client/core/syncer/engine.go:432-441 | a pull from the beginning: lost, stopped at an envelope, or applied whole |
| Engine.SyncEngine.Refresh | client/core/syncer/engine.go:390-409 | the full pull is made exactly for a group that is new or left the archive |
| Engine.SyncEngine.GiveEnvelopes | client/core/syncer/engine.go:418-422 | wrapping happens exactly if members lack envelopes |
| Engine.SyncEngine.RotateKey | client/core/syncer/engine.go:424-428 | a rekey attempt happens exactly if one is pending |
| Engine.SyncEngine.ApplyGroup | client/core/syncer/engine.go:388-428 | one group: full pull, note, wrapping, rekey, in order and up to the first failure |
| Engine.SyncEngine.ApplyGroups | client/core/syncer/engine.go:386-429 | the groups one after the other, up to the first failure |
| Engine.SyncEngine.Finish | client/core/syncer/engine.go:312-340 | waiting entries, changes, push; the cursor moves only if all succeed, to the last change or the server's counter |
| Engine.SyncEngine.SyncOnce | client/core/syncer/engine.go:269-347 | one round of client and server with every way it can fail; it keeps the agreement |
| Engine.SyncEngine.Put | client/core/core.go:840-889 | an edit: version, base snapshot, Seq and cache of the new row |
| Engine.SyncEngine.Delete | client/core/core.go:892-917 | a dirty empty tombstone at the same Seq, the old ciphertext in the recycle bin |
| Engine.SyncEngine.Restore | client/core/core.go:960-1024 | a tombstone becomes the recycled entry again exactly if its text opens |
| Engine.SyncEngine.Resolve | client/core/core.go:1037-1086 | a conflict row takes the chosen text, sealed and dirty |
| RoundSpec.RoundMoves | client/core/syncer/engine.go:269-347 | whatever a round meets, client and server move as some run of the world does |
| RoundSpec.RoundKeepsAgreement | client/core/syncer/engine.go:269-347 | a round keeps the agreement, and moves the cursor at its end only, to where the pull calls for |
| RoundSpec.GroupMoves | client/core/syncer/engine.go:386-429 | the coordination of one group is a run of the world |
| RoundSpec.RekeyMoves | client/core/syncer/rekey.go:11-85 | every ending of a rekey attempt is a run of the world |
| RoundSpec.WrapsEveryone | client/core/syncer/rekey.go:52-66 | with every member's public key known, the envelopes name exactly the listed members |
| RoundSpec.Learned | client/core/syncer/engine.go:350-359 | what envelopes teach depends on them alone, and every key comes out of one of them |
| WorldRuns.PushUninterrupted | server/sync/push.go:16-33 | a push with nobody in between is the batch of the server |
| Mirror.ApplyMirrors | client/core/syncer/engine.go:454-574 | applying a change accounts for it: clean row with its text, or on the list of those that did not open, waiting for its key, the user has a say, or gone |
| Mirror.OldFlushKeeps | client/core/syncer/engine.go:362-383 | flushing an older waiting version does not undo that when the row is the user's |
| Mirror.OldFlushHides | client/core/syncer/engine.go:362-383 | behind a clean row, an older version that waits and has its key takes the row back |
| Mirror.NextFaithful | client/core/syncer/engine.go:269-347 | every move of an orderly run keeps all own versions at or below the cursor accounted for |
| Mirror.MirrorHolds | client/core/syncer/engine.go:269-347 | over every orderly run: each stored version of the client's groups at or below last_seq is the entry's clean row and its text the one shown (or it is listed as not opening), waits for its key, is the user's to decide, or is a deletion whose row is gone |
| Mirror.TextsShown | client/core/syncer/engine.go:506-573 | if besides all that is applied opens, the client shows of each such live version exactly the text sealed in it |
| Merge.Merger.MergeOne | internal/merge/merge.go:141-160 | result and appended conflicts of one value |
| Merge.Merger.MergeObjects | internal/merge/merge.go:112-138 | result and appended conflicts of one object level |
| Merge.Merger.CheckImmutable | internal/merge/merge.go:66-73 | whether some immutable field of the base was changed |
| Merge.Merger.Run | internal/merge/merge.go:49-86 | every error case and the merged document |
| MergeCorrect.MergeFate | internal/merge/merge.go:112-160 | the value at every reached path is ours, theirs or the common one, as the three-way rule says, absent written as null |
| MergeCorrect.ConflictsSound | internal/merge/merge.go:141-160 | every reported conflict is at a path where all three tests fail and the values are not all objects |
| MergeCorrect.ConflictsComplete | internal/merge/merge.go:141-160 | every such path is reported |
| MergeCorrect.ConflictPathsDistinct | internal/merge/merge.go:112-138 | no path is reported twice |
| MergeCorrect.MergeJSONCorrect | internal/merge/merge.go:49-86 | the contract of a merge: fate of every path, and the conflict list as a set of paths |
| MergeCorrect.MergeJSONSymmetric | internal/merge/merge.go:49-174 | swapping the sides gives the same paths and, without conflicts, the same document |
| MergeLaws.MergedIff | internal/merge/merge.go:49-73 | a merge succeeds if and only if both sides are there and read as objects, the base is absent or does, and no immutable field the base has differs in ours |
| MergeLaws.AbsentBaseMerges | internal/merge/merge.go:61-73 | without an ancestor two readable documents always merge |
| MergeLaws.EqualSidesMerge | internal/merge/merge.go:141-149 | equal sides merge into themselves without conflict, except that a key only the ancestor has comes back as null |
| MergeLaws.UnchangedSideGivesWay | internal/merge/merge.go:141-149 | a side equal to the ancestor gives way to the other without conflict, with the same exception |
| ConflictMark.MarkRoundTrip | internal/merge/merge.go:183-206 | the parser inverts the printer for all calm texts |
| JsonSpacing.SpelledCalm | internal/merge/merge.go:183-187 | every JSON text is calm, whatever white space stands between its tokens |
| JsonSpacing.PrintSpells | internal/merge/merge.go:214-222 | a document's compact print is one of its spellings |
| JsonSpacing.ReadSpelled | internal/merge/merge.go:88-93 | reading any spelling of a document gives the document back |
| StringLiteral.UnescapeEscape | internal/merge/merge.go:183-187 | decoding an encoded string gives it back |
| StringLiteral.EscapeOk | internal/merge/merge.go:183-187 | what the encoder writes is a string the grammar allows |
| ConflictMark.SplitDotted | internal/merge/merge.go:118-122 | a dotted path of plain keys splits into its keys |
| ConflictMark.Fields.GetFieldByPath | internal/merge/merge.go:287-312 | the value at the first one or two keys of the path, if it is there |
| ConflictMark.Fields.SetFieldByPath | internal/merge/merge.go:315-331 | the members after the write in place, or the failure with the members as they were; what the encoder rejects below an object leaves nothing in its place |
| ConflictMark.Fields.Marshal | internal/merge/merge.go:176-178 | the encoding of the members: nothing as soon as one value is no JSON, null for a missing one |
| ConflictMark.Fields.MarshalObject | internal/merge/merge.go:96-109 | the document, or no bytes at all |
| ConflictMark.MarkReads | internal/merge/merge.go:189-206 | a mark gives back both sides, however they are spaced |
| ConflictMark.ResolveMarked | internal/merge/merge.go:248-331 | resolving a marked field at a path of one or two keys, for every spacing of the two sides: a present side goes to its place and every other member stays; an absent one blanks the document at one key and makes null of the enclosing object at two |
| ConflictMark.ResolveManually | internal/merge/merge.go:248-331 | resolving by hand puts the value at the first two keys of the path and leaves all else, and crashes exactly if the enclosing value is null |
| ConflictMark.ResolveMergedConflict | internal/merge/merge.go:248-331 | which conflicts of a merge can be resolved by choosing a side: refused exactly below two keys, blank exactly for an absent side at one key, the enclosing object null exactly for an absent side at two |
| ConflictMark.SiblingLostExample | internal/merge/merge.go:324-329 | a merge and a choice that lose a sibling field |
| ConflictMark.UpdatedAt | internal/merge/merge.go:315-331 | the update reads back at its path |
| JsonText.PrintDecodes | internal/merge/merge.go:214-232 | a printed text determines the tree, raw spellings included, and what follows it |
| JsonText.PrintInjective | internal/merge/merge.go:214-222 | equal compacted texts mean equal trees, key order and spelling included |
| Json.MapRoundTrip | internal/merge/merge.go:88-101 | writing an object out and reading it back gives the same members |
| StringOrder.SortedKeys | internal/merge/merge.go:113-117 | the key list is sorted and has exactly the given keys |
| DekCache.ReadsUnderItsKek | client/core/vault/dekcache.go:12-56 | after any calls a key is read exactly if it is the last one stored for its group and version and was stored under the present key-encryption key |
| DekCache.ReadsLastStored | client/core/vault/dekcache.go:12-56 | under one key-encryption key the table holds, for every group and version, the key last stored while unlocked |
| DekCache.Vault.SetDEK | client/core/vault/dekcache.go:40-56 | stores a copy in slot and table, zeroes the replaced array, and fails when locked |
| DekCache.Vault.GetDEK | client/core/vault/dekcache.go:12-36 | while unlocked answers what the table holds despite the single slot, in a fresh array |
| DekCache.Vault.UnwrapDEK | client/core/vault/dekcache.go:60-80 | stores and returns what the envelope holds |
| DekCache.Vault.HasAnyDEK | client/core/vault/dekcache.go:102-119 | while unlocked true exactly if some version is stored |
| DekCache.Vault.InvalidateGroupDEKs | client/core/vault/dekcache.go:122-130 | drops all versions of the group and zeroes its slot |
| DekCache.Vault.Lock | client/core/vault/vault.go:242-261 | zeroes the key-encryption key, the private key, its scalar, the cache key and every slot, and forgets them |
| DekCache.Vault.Unlock | client/core/vault/vault.go:154-180 | opens with empty slots over the same table and owns the arrays given; a private key that does not parse leaves the vault as it was, an unreadable device state locks it again, and both zero the arrays |
| DekCache.Wipe | internal/crypto/wipe.go:9-13 | all bytes are zero |
| DekCache.Perform | client/core/vault/dekcache.go:12-130 | any one call moves the table as specified, although the caller zeroes what it got |
| DekCache.Replay | client/core/vault/dekcache.go:12-130 | over any sequence of calls with returned arrays zeroed, every read while unlocked answers the key last stored under that key-encryption key |
| RateLimit.FixedWindowLimiter.Allow | server/middleware/ratelimit.go:36-61 | answer and counters of one call, cleaning included |
| RateLimit.FixedWindowLimiter.RemoveBefore | server/middleware/ratelimit.go:46-50 | removes exactly the windows begun before the cutoff |
| RateLimit.Serve | server/middleware/ratelimit.go:36-61 | the object's answers over any sequence of calls |
| RateLimit.TidyingNeverShows | server/middleware/ratelimit.go:43-51 | the cleaning, at any threshold, changes no answer |
| RateLimit.AtMostTwiceTheLimit | server/middleware/ratelimit.go:53-60 | in any span of one window's length at most 2*limit - 1 calls of a key pass |
| RateLimit.RefusedAtTheLimit | server/middleware/ratelimit.go:53-60 | a refused call comes after limit calls of its key that passed less than a window ago |
| RateLimit.TwiceTheLimitReached | server/middleware/ratelimit.go:53-60 | and that many can pass, for every limit and every window of at least two milliseconds |
| Hub.HubSafe | server/sync/notify.go:23-79 | under every interleaving no channel is closed twice or sent to after closing, and every registered one is open |
| Hub.StepSafe | server/sync/notify.go:23-79 | every step keeps each open channel in exactly one pair of hands |
| Hub.DetachedAreClosed | server/sync/notify.go:66-79 | every channel a disconnect took is still to be closed by it or closed |
| Hub.NotifyReachesAll | server/sync/notify.go:50-62 | every subscriber has a signal waiting after a notification |
| Hub.RegistrationChanges | server/sync/notify.go:23-47 | a channel is registered exactly from its subscription to its cancelling or the user's disconnect |
| Hub.SignalChanges | server/sync/notify.go:50-79 | a signal waits exactly from a notification of a registered channel, or a disconnect, until it is received |
| Hub.SubscriberHears | server/sync/notify.go:23-62 | over every run in which it is neither cancelled nor disconnected, a subscriber has a signal after each notification |
| Hub.NotifyHub.Subscribe | server/sync/notify.go:23-47 | a new channel, registered for the user |
| Hub.NotifyHub.Cancel | server/sync/notify.go:33-45 | the channel is no longer registered, and an empty set goes |
| Hub.NotifyHub.Notify | server/sync/notify.go:50-62 | signals every registered channel |
| Hub.NotifyHub.DisconnectUser | server/sync/notify.go:66-79 | closes exactly the user's channels, each once |
| LengthPrefix.LpAppend | internal/crypto/sm4gcm.go:36-49 | appends length and content, or nothing for a field that does not fit |
| LengthPrefix.LengthPrefixed | internal/crypto/sm4gcm.go:52-58 | the encoding, which the decoder turns back into the fields that fit |
| LengthPrefix.ValueOfBigEndian | internal/crypto/kdf.go:34-39 | the fixed-width big-endian form determines the number |
| LengthPrefix.DecodeEncode | internal/crypto/sm4gcm.go:52-58 | decoding inverts encoding |
| LengthPrefix.EncodeDecode | internal/crypto/sm4gcm.go:52-58 | the decoder accepts nothing but encodings |
| LengthPrefix.EncodingsEqualIff | internal/crypto/sm4gcm.go:36-58 | two lists have one encoding if and only if they agree after dropping fields of 2^32 bytes or more |
| LengthPrefix.Injective | internal/crypto/sm4gcm.go:52-58 | lists of fields that fit are determined by their encoding |
| LengthPrefix.LongFieldVanishes | internal/crypto/sm4gcm.go:39-41 | a field that does not fit leaves no trace |
| LengthPrefix.EntryMessagesEqualIff | internal/crypto/hmacsm3.go:76-87 | messages coincide if and only if entry, group, version (negatives as 0), nonce and ciphertext do |
| LengthPrefix.EntryMessageParts | internal/crypto/hmacsm3.go:76-87 | the message decodes to entry, group, version in eight bytes, nonce and ciphertext, in this order |
| LengthPrefix.FourBytes | internal/crypto/sm4gcm.go:43-46 | the length comes most significant byte first |

## Left out

- ConflictMark.ResolveMarked: `ResolveField` as a whole is a function; its map operations and its encoder are the methods of `ConflictMark.Fields`.
- Json.MapRoundTrip: a key written twice in one object keeps its last value, as decoding does; a byte sequence that is no UTF-8 is not modelled.
- Merge.Merger.Run: documents come in as trees, so a mark always holds compact sides; `ResolveMarked` covers every spacing.
- Agreement.AgreementHolds: an edit is not made between sending a batch and handling its answers; what happens then is `LateAcceptance`.
- Mirror.MirrorHolds: asks of the run that the groups do not change, that no page is full of foreign rows, that no change that does not open meets another waiting version of its entry, and that what a full pull or a flush brings is current or above what is being pulled; `CursorJumps`, `UnreadableChangeExample` and `OldFlushHides` say what happens otherwise.
- Cursor.CursorComplete: the full pull on joining or unarchiving a group is not a round; it takes one page and its completeness is not claimed.
- Engine.SyncEngine.SyncOnce: the mutex against a second round, token refresh and progress events are not modelled; a repeated attempt after a refused token is one request.
- RekeyFlow.RekeyByOneClient: other clients push only to other groups between commit and closing batch; `Rekey.RekeyConverges` covers arbitrary runs.
- SyncService.Service.PushOne: device ids, time stamps of changes, audit entries and failed transactions are not modelled.
- DekCache.Vault.Unlock: deriving the keys and reading the key file are parameters; the read of the device state is a verdict.
- RateLimit.FixedWindowLimiter.Allow: the nil limiter and the mutex are not modelled.
- Interleavings inside one server request: reads outside the transaction are taken together with it.
- Agreement of all clients on one key per group and version: false, see the race above.
- Delivery of a deletion across a change of key version: only that it is kept.
- The display name of a group in pull responses.
- Time stamps on the client (`updated_at`, recycle bin retention) and the list views.
- Tokens, device registration, invites, attestation, server-sent event transport, routing, audit log, cleaners on timers, offline monitor, lockout tracker, backoff: single-branch facts or input and output.
- SM2, SM3, SM4, PBKDF2, DPAPI and random sources: assumed ideal.
