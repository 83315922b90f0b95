# Model of the sync system's hard cores

The repository synchronises encrypted vaults between devices through a server that reads nothing. This
project models the parts of it whose correctness cannot be read off one body, in the form the code has them,
and proves what they are for.

- **Comparing two texts** (`EditScript`, `LineDiff`, `FoldedDiff`). The greedy diff with its offset frontier
  array, its trace of slices and its walk back. The reference is an independent distance on the whole quarter
  plane; the result is a script both texts can be read from, as short as any, and "too far apart" is answered
  exactly when every script is longer than allowed. The frontier does overrun both texts; that it first stops at
  exactly the corner is proved. Folding is proved the only reading of a diff that keeps what is near a change.
- **Names of conflict copies** (`ConflictNames`). Printing a name and reading it back, with the lazy first group
  and the greedy device part. The copy keeps the note's folder and extension; reading back returns the note exactly
  under a condition on the name and the device, and nothing that is not such a name is ever read back.
- **A pass of the sync engine** (`Reconcile` decides, each answer given exactly when it should be; `SyncPass` does; `SyncState` says what has to stay true,
  `SyncRecord` what the record of a pass says, `SyncSteps`, `SyncWalk`, `SyncProgress`, `SyncCarry` and `SyncEnds` that
  doing it keeps it so; `SyncServer` is the other side, and `SyncHistory` follows a device from pass to pass). The device is a class with the pass's fields; every request and every disk operation may
  fail; other devices write to the compare-and-set server between any two requests. Proved: the record of a pass leads
  from the disk it was given to the disk it leaves, one change at a time, each of one of five kinds and each with its
  reason in the ledger or the walked tree; at every state of it each content the ledger does not have is on disk at the
  end of its trail (its path, its conflict copy, where the ledger's node is, the quarantine), unless a destination that was
  not free gave up that very content; a node is where the walk found it or where the pass sent it, and the pass sends only
  nodes the server made of what is at their path, and nodes of entries whose file was gone, to the entry's bytes; in the epochs that prefer the local copy no file listed is overwritten without its
  content going elsewhere first, and in none is one deleted but for a node the walk found nowhere. Every accepted write
  replaced the base it named in the server's own history of heads, with bytes that had been at a path of its node, and
  outside the epochs that prefer the local copy that base had by then been in this device's ledger for that node with
  its plaintext on this disk, or was on record as mistaken by then, and the bytes were not what the entry named; and
  what is on record as mistaken was the node's on
  the server when some pass found it moved, displaced or twice in the ledger, or is of bytes this device had. Every
  address the ledger came to hold the server had shown or accepted for that node. All that over any run of any number of
  devices, each with the history of what it went through. The walk ends against any answers, though it feeds its own
  queue; and where nothing it tries fails and every destination is free, a pass leaves every file in scope synchronised
  (`SyncSettled`), so that there is nothing a next one would have to keep.
- **What history is kept** (`Retention`). Nightly thinning leaves what one pass at the last instant would leave of
  everything ever written: all of a week, one a day of a month, one a week as far as the account's bound, and nothing
  it need not. No node that is still there loses its newest version, whatever is written, deleted or restored between
  passes.
- **Who holds which bytes** (`Holdings`). Claims, blob rows and files under uploads, writes, propagation, deletion and
  the collector, any steps of others between any two of its transactions. Everything that happens to a file or to what
  needs it is on record, and the record says exactly when a row is without its file. Pending counts are of the uploads
  recorded and not yet bound, and a sweep leaves none past its time.
- **Backup and restore** (`Backup`). One lock, a window that does not stop what is under way, dump before copy, blobs
  before database; what a copy lacks, the history of the store explains.
- **Denormalised ancestry** (`Ancestry`). The stored chain equals the one the parent pointers spell, across moves.
- **Schedules** (`Schedule`, `ScheduleClaim`). Finding instants in a zone that changes its offset, and claiming a due
  moment by any number of servers.
- **Listening and reconnecting** (`Listen`), **codes people carry** (`HumanCode`), **batched lookups**
  (`LookupPool`), **restore epochs** (`RestoreEpoch`).

## What is supposed

Stated as preconditions, never hidden:

- Plaintexts are known by their hash; `opens` gives the one plaintext at each address, and several addresses may open
  to one plaintext. What the dedup lookup answers opens to the plaintext asked for.
- A recorded timestamp and size that still fit mean the bytes have not changed, where a pass relies on it: not in a
  rescan, nor in the epochs that prefer the local copy.
- The disk changes during a pass only by the pass itself, `stat` does not fail, and the walk of the server finds files
  under distinct paths and distinct node ids; a node the server makes has an id no other has.
- Time does not run backwards along the revisions of a node, nor for the row a schedule is kept in.
- A day of the database's calendar lies in one of its weeks.
- A zone is within 18 hours of UTC and changes its offset at most once in any three days, by at most a day (by less
  than a day, where a lemma says that something holds only then).
- A transaction is one step, the advisory lock is a mutex, `pg_restore` is one step. Which files cannot be read or
  written, and whether the dump or the restore of the database fails, is given.

## Where the code does less than it says

Each is a lemma or a method that shows it, beside the exact condition under which the property does hold.

- A conflict copy, a renamed file or a quarantined file is written over whatever is at its destination
  (`SyncEnds.WhatAnOccupiedDestinationLoses`). A destination counts as not free when this device has a file, an entry, a
  measurement or queued work there: a copy that lands where there is an entry with the same bytes is taken for
  synchronised, and one that lands where something was measured is taken for that. Only such a change gives anything
  up, and only what stood there or was sent there (`SyncRecord.NothingIsLost`).
- A remote rename records the server's new address beside this device's old hash. `SyncCarry.WhatARenameCarries` says
  exactly when that entry is mistaken and `SyncCarry.OnlyRenamesCarry` that no other answer leaves one where nothing has
  landed that was not free; `SyncUnseen.UnseenBytesReplaced` is a run in which the next edit is accepted over bytes this
  device never had. A pass that meets no such node leaves none (`SyncEnds.SmoothCarriesNothing`), and a device all of
  whose passes were so has seen all it ever replaced by the time it did (`SyncHistory.CalmReplacesSeen`).
- The entry of a file that is sent names the hash measured beside the address of the bytes read when sending. It names
  two plaintexts exactly when the file changed in between, whoever changed it (`SyncCarry.WhatASentFileNames`).
- The comment on `instantOf` says that a skipped time lands after the gap and a repeated one is taken at its first
  occurrence. Both depend on whether the zone has changed by that time as UTC reads it (`Schedule.InTheGap`,
  `Schedule.InTheRepeat`): in a zone ahead of UTC a skipped time does land after the gap but a repeated one is taken at
  its second occurrence, and in a zone behind UTC it is the other way round. Whenever the time exists, what is found
  reads exactly that time.
- What a date fires can lie before that date: where a zone leaves out the first hour after midnight and is behind UTC,
  the instant found for half past midnight is half an hour before it. `lastDue` is the greatest firing not after an
  instant if and only if tomorrow's has not come by then (`Schedule.LastDueIsGreatestOnlyThen`), and `nextRun` the least
  after it if and only if yesterday's is not still to come. A time left out in the middle of a date does no harm
  (`Schedule.OwnDatesArePunctual`). `ScheduleClaim.ClaimedBeforeItsSave` claims a moment older than the schedule's save.
- A schedule saved while a server is about to claim a moment past the new mark lets a moment be claimed twice
  (`ScheduleClaim.TakenTwice`). Those two kinds of save are the only harmful ones: under a schedule saved otherwise every
  claim is later than its save and than every claim before, whatever earlier saves were; and each of them does harm (`ScheduleClaim.UndercutSaveHarms`,
  `ScheduleClaim.EarlySaveHarms`).
- A confirmation settles on an epoch no cursor carries, over any run, if and only if no copy is put back from before an
  epoch a cursor carries that the file does not cover (`RestoreEpoch.ConfirmationsAreNew`, `RestoreEpoch.ALapseIsSettledOn`).
  That takes a cursor issued between the commit and the file of a confirmation made while nothing was pending
  (`RestoreEpoch.NoLapseUnexposed`, `RestoreEpoch.CutOffTooSoon`). Two confirmations at a time, whose marks are read
  outside the transaction, can settle on one epoch (`RestoreEpoch.TwoAtATime`).
- While its database is behind its file a server issues no cursor, over any run, confirmations one at a time
  (`RestoreEpoch.BehindServesNothing`), until exactly a confirmation's commit or a copy as new as the file
  (`RestoreEpoch.WhatEndsBehind`). Three at a time can leave it behind and not halted, and it serves
  (`RestoreEpoch.ThreeAtATime`).
- A blob row is without its file exactly when the file was removed and the bytes not uploaded again since
  (`Holdings.MissingIffRemoved`): by an upload of the same bytes refused for its declared size, or by a sweep, and that
  only of bytes being uploaded at its re-check of the rows or since (`Holdings.SweptWasUploadedAgain`), which the code
  accepts.

## Model

| member | source | states |
|---|---|---|
| `EditScript.ScriptsCostAtLeastDist` | plugin/src/conflict.ts:50-57 | No list of rows spelling both texts changes fewer lines than the distance of the corner. |
| `EditScript.DiagonalGrows` | plugin/src/conflict.ts:72-88 | The distance never falls along a diagonal, so "furthest point within d edits" is a frontier. |
| `EditScript.Overshoot` | plugin/src/conflict.ts:82-85 | A point beyond both edges costs more than the corner by at least what it overruns, in each direction. |
| `LineDiff.LinesSpellTheText` | plugin/src/conflict.ts:59-60 | Splitting at line breaks and joining again gives the text, and no line holds a break. |
| `LineDiff.Snake` | plugin/src/conflict.ts:75-81 | One diagonal's step in the frontier array, every access in range: the furthest point within d edits on that diagonal. |
| `LineDiff.FirstStopIsTheCorner` | plugin/src/conflict.ts:82-88 | The first point at or past both edges is exactly the corner, though the frontier may run past either edge. |
| `LineDiff.Forward` | plugin/src/conflict.ts:63-87 | The forward pass stops exactly when the corner is within the limit, with one slice of 2d+3 slots for each step taken, each the frontier before it. |
| `LineDiff.CameFrom` | plugin/src/conflict.ts:99-102 | The walk back reads from the slice the choice the forward pass made there. |
| `LineDiff.Backward` | plugin/src/conflict.ts:93-113 | The walk over the slices emits, reversed, a script of both texts with exactly as many changes as steps. |
| `LineDiff.LineDiff` | plugin/src/conflict.ts:58-114 | The rows are a script of both texts and no script is shorter; it gives up exactly when every script is longer than `maxEdits`; below -1 the frontier array cannot be made. |
| `LineDiff.ScriptsSpellBothTexts` | plugin/src/conflict.ts:50-53 | Same and removed rows joined spell the first text, same and added rows the second. |
| `FoldedDiff.ReadingLosesNothing` | plugin/src/conflict.ts:118-121 | Folded rows read against the diff give back the diff, and their counts add up to it. |
| `FoldedDiff.ReadingIsUnique` | plugin/src/conflict.ts:118-121 | There is one way to keep exactly the lines within the context of a change and count the rest. |
| `FoldedDiff.Folded` | plugin/src/conflict.ts:122-139 | The marking and folding loops give that one reading. |
| `ConflictNames.CopyIsNamed` | plugin/src/conflict.ts:17-25 | For any folder, name and extension, the copy is in that folder, named with the day and the device before that extension; a name's leading dot is no extension's. |
| `ConflictNames.NamedCopyReadsBack` | plugin/src/conflict.ts:17-39 | Such a name reads back to the note if and only if the device has no slash, device and name are on one line, the extension has no brackets, and nothing in the name looks like the mark of a copy already. |
| `ConflictNames.OnlyCopiesAreRead` | plugin/src/conflict.ts:31-39 | Whatever is read back to a note is that note's name with a day of ten characters, a device and the brackets in it, in the note's folder. |
| `ConflictNames.ReadsAsThePatternDoes` | plugin/src/conflict.ts:31-38 | The first place the lazy group can end is the one taken, and the device part runs to the last bracket. |
| `ConflictNames.RoundTrip` | plugin/src/conflict.ts:17-39 | For every path, cut as `CopyIsNamed` says, reading a printed copy name back gives the note if and only if the device has no slash, name and device are on one line, the extension has no brackets, and no earlier mark stands in the stem. |
| `Reconcile.WhenTheNodeIsHere` | plugin/src/engine/reconcile.ts:107-127 | For a node this device knows at its path: it is pulled if and only if the bytes are synchronised, the head has moved and the epoch is trusted; pushed if and only if the bytes are edited, or the head has moved in another epoch; and nothing travels otherwise. |
| `Reconcile.WhenAnotherIsHere` | plugin/src/engine/reconcile.ts:129-135 | Another node at the path is adopted if and only if the server has these very bytes at its address, and is a conflict otherwise. |
| `Reconcile.WhenNothingIsHere` | plugin/src/engine/reconcile.ts:137-153 | With nothing at the path: followed if and only if the node is elsewhere; removed if and only if it is nowhere, the bytes are synchronised and the epoch is trusted; moved if and only if the path is new and these bytes, 512 or more, are those of the one vanished path whose node lives; uploaded otherwise. |
| `Reconcile.WhichAnswers` | plugin/src/engine/reconcile.ts:107-153 | Which answers can be given is settled by where the ledger's node is. |
| `Reconcile.WhatEpochsTrust` | plugin/src/engine/engine.ts:163-180 | Deletions are pushed, absences applied and the server preferred in the two trusted epochs, and in no other. |
| `Reconcile.DestructiveOnlyWhenClean` | plugin/src/engine/reconcile.ts:107-153 | Bytes are given up if and only if they are synchronised, the epoch is trusted, and the node's head has moved or the node is nowhere. |
| `Reconcile.SettledIffBothSidesAgree` | plugin/src/engine/reconcile.ts:107-137 | Nothing travels for a path if and only if both sides agree: neither moved, or an unknown node with these very bytes. |
| `Reconcile.MoveOnlyWithEvidence` | plugin/src/engine/rename.ts:64-103 | A move is claimed only for the one vanished path with these bytes, large enough, whose node still lives. |
| `SyncServer.Server.PutContent` | server/src/nodes/service.ts:182-204 | A write is accepted exactly against the head it names, which it replaces and nothing else; otherwise no head changes, and a mismatch tells the head there is. |
| `SyncServer.Server.Request` | server/src/nodes/service.ts:182-204 | Arriving some time after it was sent, an accepted write is one more in the log, landed on its base in the history of heads. |
| `SyncPass.Device.ResolveConflict` | plugin/src/engine/engine.ts:1270-1326 | However far it got: nothing; a match recorded; the copy alone; or copy, overwrite, entry and queued copy, in that order. |
| `SyncPass.Device.PushEdit` | plugin/src/engine/engine.ts:1200-1239 | An edit is refused or fails leaving nothing, becomes a conflict with what the server answered, or lands, its write the next in the server's log. |
| `SyncPass.Device.PushNew` | plugin/src/engine/engine.ts:1242-1263 | A node the server made for these bytes is recorded in ledger, tree and index together, or nothing is. |
| `SyncPass.Device.PushMove` | plugin/src/engine/engine.ts:1126-1184 | The vanished bytes are claimed; a refusal is remembered; a move takes the entry and the node's own tree entries with it. |
| `SyncPass.Device.ApplyRemoteRename` | plugin/src/engine/engine.ts:1383-1412 | Destination first, source after, or renamed in place when only the case changed; then the entry; then the edit in hand, from the new place. |
| `SyncPass.Device.Pull` | plugin/src/engine/engine.ts:1458-1478 | One node's bytes over its path and an entry naming them, or nothing. |
| `SyncPass.Device.ReconcileLocal` | plugin/src/engine/engine.ts:701-774 | A file is measured, decided by the table and handled as that decision says, to its end unless something failed; or left when it cannot be read. |
| `SyncRecord.ReplacedIsSafe` | plugin/src/engine/engine.ts:29-35 | A path may be overwritten with a node's bytes once its content is at the next place of its trail, or where it is nobody's and, where the local copy is preferred, was not listed. |
| `SyncRecord.RenamedIsSafe` | plugin/src/engine/engine.ts:1386-1390 | A rename in place to where the node is keeps the record, giving up exactly what an occupied destination costs. |
| `SyncRecord.NothingIsLost` | plugin/src/engine/engine.ts:29-35 | At every state of any record, every content that had to be kept is at the end of a trail of conflict copies, quarantine and moves after the node the ledger had at the path, unless an earlier change met a destination that was not free, with this very content standing there or sent there. |
| `SyncRecord.FreeDestinationsLoseNothing` | plugin/src/engine/engine.ts:29-35 | With every destination free, every such content is on its way at every state. |
| `SyncState.CopyHasLessAhead` | plugin/src/engine/engine.ts:1302-1325 | A conflict copy of a tree path has strictly fewer tree paths it could still collide with. |
| `SyncSteps.ConflictKeeps` | plugin/src/engine/engine.ts:1270-1326 | A conflict, however far it got, keeps the invariant, and its entry names one plaintext twice. |
| `SyncRecord.ChroniclePuts` | plugin/src/engine/engine.ts:1200-1239 | A write joins the record with the moment it was sent: what was on disk, held, carried and shown by then, and the path its bytes were at. |
| `SyncSteps.PushEditKeeps` | plugin/src/engine/engine.ts:1200-1239 | However an edit's push ends the invariant holds, the new write justified by an entry the ledger held for that very node when it was sent, and of other bytes than that entry named. |
| `SyncSteps.PushNewKeeps` | plugin/src/engine/engine.ts:1242-1263 | A node the server makes is one neither ledger nor walk had, sent to the one path whose bytes it was made of. |
| `SyncSteps.RenameKeeps` | plugin/src/engine/engine.ts:1383-1412 | A remote rename, however far it got, keeps the record and the books in order but for the one entry it wrote. |
| `SyncSteps.PushMoveKeeps` | plugin/src/engine/engine.ts:1126-1184 | A move keeps tree and index agreeing and the ledger within what it held; its node is of an entry whose file was gone, sent once, to a path that held the entry's bytes. |
| `SyncSteps.PullKeeps` | plugin/src/engine/engine.ts:1458-1478 | A pull over a path that is nobody's unsynchronised content keeps the invariant. |
| `SyncWalk.DecisionFits` | plugin/src/engine/reconcile.ts:107-153 | What each answer says of the ledger, the tree, the index, the vanished paths and the epoch when tree and index agree; an edit is pushed only of bytes the entry does not name, or where the local copy is preferred. |
| `SyncWalk.SynchronisedIsNobody` | plugin/src/engine/engine.ts:725-727 | A path whose entry has its bytes holds nobody's unsynchronised content, even mid-walk. |
| `SyncWalk.MissingIsAbsent` | plugin/src/engine/engine.ts:701-774 | A node known here and missing from the index is one this device knew at that path from the start and the walk of the server found nowhere. |
| `SyncWalk.TurnKeeps` | plugin/src/engine/engine.ts:701-774 | Every handling of a file, whatever failed in it, keeps the invariant but for the honesty of one entry. |
| `SyncCarry.OnlyRenamesCarry` | plugin/src/engine/engine.ts:701-774 | Short of something having landed at the path that was not free, no answer but a remote rename leaves an entry whose address holds another plaintext and that was not on record before. |
| `SyncCarry.WhatASentFileNames` | plugin/src/engine/engine.ts:1200-1263 | The entry of a file sent names two plaintexts if and only if the file was not, when it was read for sending, what had been measured. |
| `SyncCarry.WhatIsRecordedIsSettled` | plugin/src/engine/engine.ts:1200-1263 | What is recorded for a file sent, bound or refreshed leaves nothing to do for it as it was measured, as long as the server holds what the entry says. |
| `SyncCarry.WhatARenameCarries` | plugin/src/engine/engine.ts:1401-1411 | A remote rename leaves such an entry if and only if the address the server moved the node with holds other bytes than this device's, and no edit was in hand that landed or whose answer was settled; and the entry is of that node and that address. |
| `SyncCarry.TurnCarries` | plugin/src/engine/engine.ts:1401-1411 | What a turn puts on record as mistaken is of a node the server had moved from a path with other bytes; or of one where something landed that was not free, or twice in the ledger and moved by the pass, at the address the walk found it with; or of bytes this device had. |
| `SyncCarry.RenamedIsWalked` | plugin/src/engine/engine.ts:1383-1412 | A node followed to another path has the address the walk found it with: the pass has not made it. |
| `SyncUnseen.UnseenBytesReplaced` | plugin/src/engine/engine.ts:1401-1411 | A run: a node renamed and edited elsewhere, followed by one pass; the next edit here is accepted against the address in the entry, over bytes never on this disk by then. |
| `SyncProgress.WhatATurnQueues` | plugin/src/engine/engine.ts:500-524 | A turn queues nothing, a copy of its own tree path, or a copy of the path its off-tree entry followed its node to. |
| `SyncProgress.TurnIsNearer` | plugin/src/engine/engine.ts:512-524 | Against any answers a turn shortens the queue, or the off-tree entries, or the collisions ahead of the queue. |
| `SyncProgress.TurnIsOnward` | plugin/src/engine/engine.ts:512-524 | A turn rewrites nothing the pass is judged by, drops no node from the index, lets none join it but those the pass makes, and leaves what is queued and known as it was but where something landed that was not free. |
| `SyncSettled.TurnSettles` | plugin/src/engine/engine.ts:701-774 | A turn carried out to its end leaves every file in scope but those queued with an entry that names its bytes, what vanished still gone and what is queued still there, as long as every destination is free. |
| `SyncSettled.ResetTurnSettles` | plugin/src/engine/engine.ts:1422-1454 | So does a turn of the pass after a reset, which binds the file or moves it into the quarantine. |
| `SyncCarry.WholeTurn` | plugin/src/engine/engine.ts:512-524 | A whole turn keeps all of the walk's invariant, comes nearer the end and rewrites nothing. |
| `SyncPass.Device.Walk` | plugin/src/engine/engine.ts:505-524 | The walk ends with an empty queue and the invariant, its accepted writes those the server logged meanwhile. |
| `SyncEnds.UnhandledIsNobody` | plugin/src/engine/engine.ts:552-555 | After the walk no unsynchronised content is at a path the pass has not handled. |
| `SyncPass.Device.PullTheRest` | plugin/src/engine/engine.ts:553-555 | Every server file in scope at a path not handled is on disk with its node's bytes, or among those reported as failed; every file at a handled path is as it was. |
| `SyncPass.Device.ReconcileVanished` | plugin/src/engine/engine.ts:526-549 | A node is deleted only where absences can be trusted and only from the very path that vanished here; and a vanished path's entry stays if and only if its deletion is to be pushed and the node is still there. |
| `SyncPass.Device.PushDelete` | plugin/src/engine/engine.ts:1358-1373 | A node gone from the server leaves the ledger; otherwise tree, index and ledger lose it together, or nothing does. |
| `SyncPass.Device.Scan` | plugin/src/engine/engine.ts:418-437 | Every measurement is of the bytes on disk, trusted hints included. |
| `SyncPass.Device.CollectVanished` | plugin/src/engine/engine.ts:483-498 | The vanished lists hold exactly the in-scope ledger paths not found, under their bytes. |
| `SyncEnds.ReadyToWalk` | plugin/src/engine/engine.ts:466-505 | An accurate scan of a vault whose books are in order is where the walk's invariant begins. |
| `SyncEnds.ResetKeeps` | plugin/src/engine/engine.ts:1422-1454 | After a reset a file is bound or quarantined, destination first, and keeps its trail throughout. |
| `SyncPass.Device.ResyncAfterReset` | plugin/src/engine/engine.ts:1422-1454 | The whole resync ends with the invariant and an empty queue, no write sent and no entry newly mistaken; and every file whose bytes the winning tree holds at its path is as it was. |
| `SyncSettled.TurnForgetsNone` | plugin/src/engine/engine.ts:701-774 | A turn carried out to its end takes an entry off the vanished lists only by sending its node elsewhere. |
| `SyncSettled.NoneForgottenIsGone` | plugin/src/engine/engine.ts:526-549 | So once the lists are worked off where deletions are pushed, every entry whose file was gone has its node gone from that path or sent elsewhere. |
| `SyncPass.Device.Sync` | plugin/src/engine/engine.ts:329-559 | A pass leaves the books in order; its record leads from the disk it was given to the disk it leaves by warranted changes only; at every state of it every content to keep is on its way or was given up at a destination that was not free; nodes are only where the walk found them or where they were rightly sent, each to one place; its accepted writes are those the server logged, each of bytes at a path of its node, other than its entry named, and justified by what had been seen and held by then; every new entry is of a node known at its path and at an address the server showed or accepted; and what comes to be mistaken is of a node moved with other bytes, displaced or doubled. It is the next chapter of the device's history. Unless something failed the vault was scanned; and if nothing did, every server file in scope is here with its node's bytes or at a path the pass handled, where deletions are pushed the node of every entry whose file was gone is no longer at that path or was sent elsewhere, and if every destination was free too, no file in scope is left unsynchronised. |
| `SyncPass.Run` | plugin/src/engine/engine.ts:1188-1199 | Over any run of any number of devices each write logged replaced exactly the base it named and is one a device had accepted, in a pass of its history; and all a device has seen, held and carried comes from the passes and edits it went through. |
| `SyncHistory.HistoryAccounts` | plugin/src/engine/engine.ts:1188-1199 | Over any history of passes and edits, each begun where the last left off: what counts as seen was on disk, what the ledger ever held some pass was shown, what is mistaken some pass brought, each write was sent in some pass on what there was by then and, outside the epochs that prefer the local copy, of bytes its entry did not name. |
| `SyncHistory.CalmReplacesSeen` | plugin/src/engine/engine.ts:1188-1199 | While every pass has been smooth, every accepted write outside the epochs that prefer the local copy replaced bytes that had been on this disk when it was sent, by others. |
| `SyncEnds.SmoothCarriesNothing` | plugin/src/engine/engine.ts:1401-1411 | After a pass with free destinations, one node a path, and no node with a file here moved with other bytes, no entry is newly mistaken. |
| `SyncEnds.WhatAnOccupiedDestinationLoses` | plugin/src/engine/engine.ts:1304-1309 | A content goes from the disk when a file is copied or renamed to any destination if and only if it stood there and nowhere else, and is not the file's own. |
| `Retention.NewestOfAll` | server/src/retention.ts:43-68 | The newest left of a day or week is the newest there ever was in it. |
| `Retention.Confluent` | server/src/retention.ts:43-68 | Thinning what is left equals thinning everything ever written. |
| `Retention.HeadsSurvive` | server/src/retention.ts:24-42 | After thinning and emptying the trash every node still there has its newest version. |
| `Retention.SpentNodesMustGo` | server/src/collector.ts:93-104 | Without the trash emptied in the same transaction, a restored node would be live without its head. |
| `Retention.LadderSpares` | server/src/retention.ts:24-42 | Of everything written stays all of seven days; for each version of thirty, one of its day and no older; for each within the account's bound, one of its week; and each live node's newest. |
| `Retention.LadderSpends` | server/src/retention.ts:24-42 | Of one node no two versions of a day are left past seven days, no two of a week past thirty, and past thirty days and the account's bound only a live node's newest. |
| `Retention.History.ThinVersions` | server/src/retention.ts:43-71 | The statement over the rows there are leaves the ladder of everything ever written, and counts what it removed. |
| `Retention.History.Pass` | server/src/collector.ts:93-104 | One transaction: rows equal to a single pass at this instant over everything written, with all that must stay and nothing that must not; live nodes untouched, heads kept; of the trash exactly the nodes without a version and without anything below go, so no node left loses its parent. |
| `Holdings.UploadGrows` | server/src/quota.ts:79-92 | An upload grows its account's usage by its size, by nothing if the address was held, and nobody else's. |
| `Holdings.Server.PutFile` | server/src/blobs/service.ts:191-197 | The file is there before its row. |
| `Holdings.Server.RefuseSize` | server/src/blobs/service.ts:198-201 | A wrong declared size removes the file, whoever else needs it, and is on record. |
| `Holdings.Server.RecordUpload` | server/src/blobs/service.ts:314-357 | The row if there is none, its mark untouched, and one upload more waiting for its account, which the claim counts and dates by the oldest. |
| `Holdings.Server.Write` | server/src/holdings.ts:50-60 | A node, its version and a settled reservation appear together, only for an address with a row: one upload fewer is waiting, if any was. |
| `Holdings.Server.Receive` | server/src/holdings.ts:29-35 | Propagated or restored content claims without settling a reservation. |
| `Holdings.Server.DropUnbound` | server/src/collector.ts:109-123 | Exactly the stale claims nothing was bound under go, and none of those is left; no named blob loses its claim. |
| `Holdings.Server.ClearPending` | server/src/collector.ts:125-157 | Stale reservations of bound blobs are cleared and no claim goes; with no stale claim unbound, no reservation is past its time. |
| `Holdings.Server.AgeOut` | server/src/collector.ts:93-157 | History is thinned, then the trash emptied, and no reservation past its time is left, whatever others do between the transactions. |
| `Holdings.Server.DropSpentClaims` | server/src/retention.ts:96-116 | An account's claims become exactly what its live nodes and versions name, and its pending uploads. |
| `Holdings.Server.Mark` | server/src/retention.ts:135-156 | Exactly the unreferenced blobs are marked, an earlier mark kept, a referenced one taken back. |
| `Holdings.Server.SweepRows` | server/src/collector.ts:192-211 | Exactly the rows marked long enough ago and referenced by nothing go, and their addresses are the orphans. |
| `Holdings.Server.Recheck` | server/src/collector.ts:205-217 | What is left to unlink has no row and nothing referencing it; an address whose row came back keeps its file, and no other leaves the list. |
| `Holdings.Server.Unlink` | server/src/collector.ts:158-180 | Only an orphan checked since the sweep that made it is unlinked, and its file goes or stays with the answer. |
| `Holdings.Server.Settle` | server/src/collector.ts:181-190 | The settling transaction leaves claims exact for every account and quarantine exact for every blob. |
| `Holdings.MissingIffRemoved` | server/src/collector.ts:158-180 | At every moment of every history, what a row or an upload needs is without its file if and only if the file was removed, by a refused upload of the bytes or by a sweep, and not uploaded again since. |
| `Holdings.SweptWasUploadedAgain` | server/src/collector.ts:165-180 | A sweep takes a file from under a row or an upload only when the bytes were being uploaded at its check of the rows, or since. |
| `Holdings.Server.Sweep` | server/src/collector.ts:90-225 | History is thinned, the trash emptied, the rows marked and then swept, any steps of others between any two transactions; every live node and version keeps claim and row; no reservation past its time is left; what is needed and without its file afterwards was so before or was taken meanwhile in one of those two ways; and it counts the files it removed. |
| `Holdings.Server.UsageIsRecount` | server/src/quota.ts:49-62 | After settling, the quota sum is a recount of what live nodes and versions name and of pending uploads. |
| `Backup.Host.HoldForBackup` | server/src/interlock.ts:53-84 | The lock and then the window, or neither. |
| `Backup.Host.RunCollector` | server/src/collector.ts:72-88 | A collector that cannot have the lock does nothing at all; one that can sweeps, leaves no orphan and no reservation past its time, and takes only what a sweep may. |
| `Backup.Host.Admit` | server/src/app.ts:150-162 | While any leg of a backup runs exactly the reads are admitted, and while no backup holds the lock everything is. |
| `Backup.Host.DumpDatabase` | server/src/backup.ts:205-209 | The dump references what the database names at that one moment of the store's history. |
| `Backup.Host.ListBlobs` | server/src/backup.ts:204-212 | When the copying begins every address the dump references still has its row, and what is there of their files is to be copied. |
| `Backup.UndisturbedCopiesAreWhole` | server/src/backup.ts:204-212 | Where nothing was without its file when the run began and no upload is refused during it, a copy holds a blob for every address its dump references. |
| `Backup.Host.RunBackup` | server/src/backup.ts:112-252 | However a run ends the window is shut and the lock let go; one that ends well leaves a copy of what the database named at one moment of the run with every blob of it the store had at a later one, and undisturbed that is every blob. A run that can begin ends well unless the dump fails, a file of the store cannot be read, or an upload was refused meanwhile. |
| `Backup.Live.MissingBlobs` | server/src/backup.ts:337-356 | Exactly the addresses the database references and the store lacks, each once. |
| `Backup.Live.RestoreFrom` | server/src/restore-run.ts:72-120 | It restores if and only if there is a backup, no server runs, every blob can be written and the database loads; refusals change nothing; at every moment a whole database stays whole; a whole copy misses nothing. |
| `Backup.CopiesComeBack` | server/src/restore-run.ts:98-109 | What a restore of a copy is missing had been removed from the store before that copy's files were listed, and not uploaded again. |
| `Ancestry.OneChain` | server/src/ancestry.ts:4-6 | Parent pointers spell at most one chain for a node. |
| `Ancestry.Acyclic` | server/db/schema.sql:848-868 | A node with a chain is not among its own ancestors. |
| `Ancestry.CarriesIffUnder` | server/src/ancestry.ts:25-30 | The containment test selects exactly the strict descendants. |
| `Ancestry.MoveKeepsIndex` | server/src/ancestry.ts:19-32 | After the rewrite every node's stored chain is the one the parent pointers spell. |
| `Ancestry.Vault.Move` | server/src/nodes/service.ts:295-368 | A move is refused for a missing place or one inside the node; otherwise one parent changes and every chain is right. |
| `Ancestry.Vault.Create` | server/src/nodes/service.ts:95-128 | A new node carries its parent's chain and its parent. |
| `Schedule.WeekdaysFollow` | server/src/backup-schedule.ts:126-127 | The weekday of a date is the one counting there is from a Thursday at the first, 0 for Sunday. |
| `Schedule.FiresAtItsTime` | server/src/backup-schedule.ts:129-132 | What a date fires is when the clock reads that date and the plan's time, if it ever does. |
| `Schedule.InstantOfReads` | server/src/backup-schedule.ts:120-124 | If the clock reads the wanted time at all, it does at the instant found. |
| `Schedule.InTheGap` | server/src/backup-schedule.ts:115-118 | A time that does not exist is put past the gap exactly when the zone has changed by that time in UTC. |
| `Schedule.InTheRepeat` | server/src/backup-schedule.ts:115-118 | A repeated time is taken at its first occurrence exactly when the zone has not changed by that time in UTC. |
| `Schedule.LaterDateFiresLater` | server/src/backup-schedule.ts:129-138 | Later dates never fire sooner, and fire later where the offset changes by less than a day. |
| `Schedule.LongBefore` | server/src/backup-schedule.ts:140-145 | Whatever the zone does, what the day before yesterday was to fire has fired; so nine dates always hold a firing. |
| `Schedule.OwnDatesArePunctual` | server/src/backup-schedule.ts:115-118 | Where the instant found for a date reads that date and dates never run back, tomorrow's firing never comes early nor yesterday's late, though a time be skipped or repeated. |
| `Schedule.OnceADayIsPunctual` | server/src/backup-schedule.ts:115-118 | Nor where the time occurs once on every date. |
| `Schedule.FirstFiring` | server/src/backup-schedule.ts:146-157 | The loop over nine dates is the walk the next two are stated for. |
| `Schedule.LastDueIsGreatest` | server/src/backup-schedule.ts:163-165 | With a day named the walk always finds a firing not after the instant, and the greatest one if tomorrow's has not come early. |
| `Schedule.LastDueIsGreatestOnlyThen` | server/src/backup-schedule.ts:163-165 | The greatest if and only if tomorrow's has not come early, where the offset changes by less than a day. |
| `Schedule.NextRunIsLeast` | server/src/backup-schedule.ts:159-161 | With a day named the walk always finds a firing after the instant, and the least one if yesterday's is not still to come. |
| `Schedule.NextRunIsLeastOnlyThen` | server/src/backup-schedule.ts:159-161 | The least if and only if yesterday's is not still to come, where the offset changes by less than a day. |
| `Schedule.EarlyIsDueLater` | server/src/backup-schedule.ts:163-165 | Where tomorrow's firing has come early, a moment comes when it is what is last due, though it had passed and was not. |
| `Schedule.LastDueGoesBack` | server/src/backup-schedule.ts:115-124 | A zone that leaves out its first hour after midnight and a plan for half past: what is last due a minute after midnight lies before an instant at which it was not yet. |
| `ScheduleClaim.Row.Save` | server/src/backup-schedule.ts:214-226 | A saved schedule owes nothing it had already passed, whatever was saved before it; the schedule is orderly if and only if its save is not early and leaves no pending claim above its mark. |
| `ScheduleClaim.Row.Read` | server/src/backup-schedule.ts:240-246 | What a server is about to claim is a firing of the schedule it read, not yet past the mark. |
| `ScheduleClaim.Row.Update` | server/src/backup-schedule.ts:247-255 | Unless the save of the schedule in force was harmful, what is claimed is later than that save and than every claim before it, whatever earlier saves did and servers read, crash or claim between; and where no save was, all claims ever are in order. |
| `ScheduleClaim.UndercutSaveHarms` | server/src/backup-schedule.ts:240-255 | A save that leaves its mark below a pending claim has a moment claimed that predates it. |
| `ScheduleClaim.EarlySaveHarms` | server/src/backup-schedule.ts:214-226 | A save after which an earlier firing becomes due has that firing claimed, which predates it. |
| `ScheduleClaim.OnlyEarlySavesDo` | server/src/backup-schedule.ts:214-226 | There is such a later moment if and only if the next date's firing had come early at the save. |
| `ScheduleClaim.ClaimedBeforeItsSave` | server/src/backup-schedule.ts:240-255 | A zone, a plan and a save a quarter of an hour before midnight after which a moment half an hour before midnight is claimed. |
| `ScheduleClaim.TakenTwice` | server/src/backup-schedule.ts:240-255 | A save between them whose own last moment is earlier lets two servers take one moment. |
| `ScheduleClaim.SuchASaveExists` | server/src/backup-schedule.ts:214-226 | Two plain daily schedules and an hour of the morning that do it. |
| `Listen.Subscription.constructor` | server/src/listen.ts:50-127 | The first attempt is under way and nothing is held. |
| `Listen.Subscription.ConnectResolves` | server/src/listen.ts:86-102 | A connection that arrives after a stop goes straight back; otherwise it is subscribed. |
| `Listen.Subscription.ListenResolves` | server/src/listen.ts:103-114 | It becomes current only while nobody has stopped, and is released otherwise. |
| `Listen.Subscription.Dropped` | server/src/listen.ts:79-84 | Only the current connection is torn down, so a fault's second event does nothing and one retry is scheduled. |
| `Listen.Subscription.Notified` | server/src/listen.ts:115-119 | Only the current connection delivers. |
| `Listen.Subscription.Stop` | server/src/listen.ts:131-140 | Nothing is current or scheduled from the first step of a stop on. |
| `Listen.Subscription.StopResolves` | server/src/listen.ts:141-153 | When a stop resolves nothing is held and every connection ever acquired has been released exactly once. |
| `HumanCode.OneSpelling` | plugin/src/crypto/human-code.ts:36-51 | There is at most one grouping of a byte string's bits in fives. |
| `HumanCode.CodeGroups` | plugin/src/crypto/human-code.ts:36-51 | The digits of a code are that grouping: big-endian, as many as hold the bits, the last filled with zeroes. |
| `HumanCode.Injective` | plugin/src/crypto/human-code.ts:36-51 | Two byte strings of one length never share a code. |
| `Listen.Subscription.Run` | server/src/listen.ts:20-22 | Over any events in any order: from the first step of a stop on nothing is delivered and no connection comes but one already asked for; once it has resolved nothing is acquired, released, delivered, subscribed or scheduled again. |
| `Listen.Subscription.FaultFiresTwice` | server/src/listen.ts:13-15 | The two events of one fault, and others' between them, make one teardown, one retry and one release. |
| `HumanCode.TakeDigit` | plugin/src/crypto/human-code.ts:43-46 | Five bits read from a word that has dropped the bits above are the number's own. |
| `HumanCode.Encode` | plugin/src/crypto/human-code.ts:36-51 | The loop over an unmasked 32-bit buffer yields exactly that code. |
| `HumanCode.NewHumanCode` | plugin/src/crypto/human-code.ts:53-57 | 16 bytes make 26 characters, 32 with a dash at every fifth, which normalise back to what was encoded. |
| `HumanCode.AlphabetAt` | plugin/src/crypto/human-code.ts:30-31 | The alphabet is the digits and then the letters in order, without I, L, O and U. |
| `HumanCode.ReadsKeyboards` | plugin/src/crypto/human-code.ts:59-78 | What is typed on a keyboard normalises to a code if and only if it is that code letter by letter in either case, O for 0, I and L for 1, U for V, with dashes and white space anywhere. |
| `HumanCode.NormaliseIffRetyping` | plugin/src/crypto/human-code.ts:59-78 | What is typed normalises to a code if and only if it is a retyping of it: dashes, spaces, case, characters that are several letters in upper case, and the letters the alphabet leaves out. |
| `HumanCode.Idempotent` | plugin/src/crypto/human-code.ts:70-78 | Normalising twice is normalising once, whatever was typed. |
| `LookupPool.InBatches` | plugin/src/api/client.ts:247-252 | The items in order, no batch empty or over sixty, and no more batches than it takes. |
| `LookupPool.Pool.Claim` | plugin/src/api/client.ts:281-284 | Each item is begun once, by one worker, in order, and at most six are in hand. |
| `LookupPool.Pool.Answer` | plugin/src/api/client.ts:284-285 | An answer lands at its item's place whenever it comes. |
| `LookupPool.InFlight` | plugin/src/api/client.ts:278-289 | Under every order of answers the results are the work's, in the order asked, and the pool ends. |
| `LookupPool.BatchedAll` | plugin/src/api/client.ts:935-955 | The batches' answers list a key's values once for each batch that asked for it. |
| `LookupPool.DedupLookup` | plugin/src/api/client.ts:971-983 | Asked in batches, every tag has the answer one lookup would give. |
| `LookupPool.BlobKeys` | plugin/src/api/client.ts:935-955 | For distinct addresses every address has the envelopes one lookup would list, in order. |
| `RestoreEpoch.WhatEndsBehind` | server/src/restore.ts:104-138 | A server on a database behind its file is halted and issues nothing, and stays behind through every step but exactly a confirmation's commit and a copy as new as the file put back. |
| `RestoreEpoch.BehindServesNothing` | server/src/app.ts:136-148 | Over any run, confirmations one at a time, nothing is issued while the database is behind its file, wherever the server is stopped and started and whatever is put back. |
| `RestoreEpoch.BehindUntilConfirmed` | server/src/index.ts:149-160 | Over any run without such a step it is still behind at the end, with not one cursor more in the world. |
| `RestoreEpoch.ThreeAtATime` | server/src/restore.ts:111-121 | Three confirmations at a time can leave the database below the file on a server that is not halted, which then issues a cursor. |
| `RestoreEpoch.ConfirmationsAreNew` | server/src/restore.ts:104-138 | Over any run, confirmations one at a time, every one settles on an epoch no cursor carries, as long as no copy is put back from before one a cursor carries that the file does not cover. |
| `RestoreEpoch.ALapseIsSettledOn` | server/src/restore.ts:104-138 | Once one is, the next confirmation settles on an epoch not past one a cursor carries. |
| `RestoreEpoch.NoLapseUnexposed` | server/src/restore.ts:126-137 | Over any run in which no cursor is issued while the file is behind, cut off wherever it is and whatever is put back, there is no such lapse. |
| `RestoreEpoch.ExposedOnlyWhileConfirming` | server/src/restore.ts:126-137 | A cursor is issued while the file is behind only between commit and end of a confirmation made while nothing was pending. |
| `RestoreEpoch.TwoAtATime` | server/src/restore.ts:111-121 | Two confirmations that read the marks before either commits settle on one epoch, with a cursor under it in between. |
| `RestoreEpoch.CutOffTooSoon` | server/src/restore.ts:111-137 | One made while nothing is pending, cut off before the file, can settle on an epoch a cursor carries. |

## Left out

- SyncPass.Device.Sync: one readable scope and files only; shares, crossing a share boundary, unreadable and orphaned subtrees, folders made on the way and folder moves are not in it.
- SyncPass.Device.Walk: the queue is taken in whatever order the vault lists; sorting by depth only serves folders.
- SyncPass.Device.ResyncAfterReset: goes through the pass's own queue instead of the list of local files, which nothing else reads in that epoch.
- Backup.Live.RestoreFrom: a database half loaded by an interrupted `pg_restore` is not represented.
- Schedule.FirstFiring: days are a set, so tidying the day list is not in it; milliseconds are dropped, which no firing has.
- HumanCode.Upper: only characters of which an ASCII letter comes are put into upper case; any other is left as typed, which is a letter of no code in either case.
- LookupPool.InFlight: a request that fails fails the whole lookup in the code; only schedules in which every request is answered are modelled.
- LookupPool.DedupLookup: the server's table is the same for every batch of a lookup.
- Listen.Subscription.Stop: one stop; a second call is not modelled.
- Cryptography, wire formats, HTTP routes, Fastify hooks beyond the two gates, WebSocket and Obsidian adapters: foreign calls or plumbing.
- The pass's report, progress, cursor probe and tree cache: what a pass decides and does is modelled for any epoch and any walked tree.
- Folder-move planning, tree decoding, share scopes and propagation across members: rules of other files this core calls.
- Resumable upload in parts, blob staging and its sweep, journal and problem pruning: independent of the properties above.
- Verifying a finished copy against the live database: it compares two moments and may report later writes.
- Retention across accounts deleted or vaults reset: nodes leave there with their versions, which thinning never sees again.
- Form validators, formatting, notices and console screens: one branch settles each.
