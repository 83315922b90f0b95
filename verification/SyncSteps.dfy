/** What each decision may do to a pass, and that whatever it does keeps the pass's invariant. */
module SyncSteps {
  import opened Options
  import opened Reconcile
  import opened SyncState
  import opened SyncRecord

  // ----- what the pass has been told, under each change ------------------------------------------

  lemma {:induction false} InformedStill(s: State, s': State)
    requires Informed(s) && s'.given == s.given && s'.told == s.told && s'.tree == s.tree && s'.byNodeId == s.byNodeId
    requires s'.ids == s.ids && s'.sent == s.sent && s.shown <= s'.shown && s.held <= s'.held && s'.held <= s'.given.held + s'.shown
    requires forall p :: p in s'.ledger ==> Knows(s, s'.ledger[p].nodeId, p)
    ensures Informed(s')
  {
  }

  lemma {:induction false} BooksAfterDisk(opens: Address -> Content, s: State, s': State, but: set<Path>)
    requires Books(opens, s, but)
    requires s'.ledger == s.ledger && s'.vanished == s.vanished && s'.dedup == s.dedup && s'.puts == s.puts
    requires s.held <= s'.held && s.carried <= s'.carried && s.seen <= s'.seen && s'.disk.Values <= s'.seen
    ensures Books(opens, s', but)
  {
  }

  /** The books stay in order, and the pass as well informed, when only the disk, the queue and what has been
      handled change, as long as what appears on disk counts as seen. */
  lemma {:induction false} RestAfterDisk(opens: Address -> Content, s: State, s': State, but: set<Path>)
    requires Books(opens, s, but) && Informed(s) && TreeOk(s.tree, s.byNodeId)
    requires s'.ledger == s.ledger && s'.vanished == s.vanished && s'.dedup == s.dedup && s'.puts == s.puts
    requires s'.given == s.given && s'.told == s.told && s'.tree == s.tree && s'.byNodeId == s.byNodeId
    requires s'.ids == s.ids && s'.sent == s.sent && s'.shown == s.shown && s'.held == s.held && s'.carried == s.carried
    requires s.seen <= s'.seen && s'.disk.Values <= s'.seen
    ensures Books(opens, s', but) && Informed(s') && TreeOk(s'.tree, s'.byNodeId)
  {
    BooksAfterDisk(opens, s, s', but);
    InformedStill(s, s');
  }

  // ----- the queue under each change ------------------------------------------------------------

  lemma {:induction false} PlacedKeepsQueue(s: State, x: Path, m: Meta, to: Path)
    requires QueueSafe(s) && Current(s, x, m) && x != to && x in s.disk
    ensures QueueSafe(Placed(s, x, to)) && Current(Placed(s, x, to), x, m)
  {
  }

  /** A change to the disk and the ledger at one path whose turn has come, and entries forgotten elsewhere. */
  lemma {:induction false} ChangeAtKeepsQueue(s: State, s': State, x: Path)
    requires QueueSafe(s) && Off(s, x)
    requires s'.trail == s.trail && s'.given == s.given && s'.meta == s.meta && s'.queue == s.queue && s'.taken == s.taken
    requires s.handled <= s'.handled && s.seen <= s'.seen
    requires forall p :: p != x && p in s'.ledger ==> p in s.ledger && s'.ledger[p] == s.ledger[p]
    requires forall p :: p != x && p in s'.disk ==> p in s.disk && s'.disk[p] == s.disk[p]
    ensures QueueSafe(s') && Off(s', x)
  {
  }

  /** A path overwritten with the server's bytes once its own are at the copy, which joins the queue. */
  function SetAside(opens: Address -> Content, s: State, x: Path, node: NodeId, address: Address, item: Item): State {
    var s1 := Replaced(opens, s, x, node, address, item.path);
    s1.(queue := s1.queue + [item])
  }

  /** Where the content of `x` is also at `to`, and what is at stake there. */
  ghost predicate Alongside(s: State, x: Path, to: Path) {
    && x != to && x in s.disk && to in s.disk && s.disk[to] == s.disk[x] && Nobody(s.trail, to)
    && (to in s.ledger || to in s.meta || to in Queued(s.queue) ==> to in s.taken && Nobody(s.trail, x))
  }

  lemma {:induction false} PlacedIsAlongside(s: State, x: Path, to: Path)
    requires x in s.disk && x != to && Kept(s.disk, s.trail, s.given.start)
    ensures Alongside(Placed(s, x, to), x, to)
  {
  }

  lemma {:induction false} SetAsideIsUnsynced(opens: Address -> Content, s: State, x: Path, m: Meta, node: NodeId, address: Address, item: Item)
    requires Unsynced(s) && Current(s, x, m) && Alongside(s, x, item.path) && Kept(s.disk, s.trail, s.given.start)
    ensures Unsynced(SetAside(opens, s, x, node, address, item))
  {
  }

  lemma {:induction false} SetAsideIsOff(opens: Address -> Content, s: State, x: Path, m: Meta, node: NodeId, address: Address, item: Item)
    requires NoRepeats(s) && Current(s, x, m) && Alongside(s, x, item.path)
    ensures NoRepeats(SetAside(opens, s, x, node, address, item)) && Off(SetAside(opens, s, x, node, address, item), x)
  {
  }

  lemma {:induction false} SetAsideKeepsQueue(opens: Address -> Content, s: State, x: Path, m: Meta, node: NodeId, address: Address, item: Item)
    requires QueueSafe(s) && Current(s, x, m) && Alongside(s, x, item.path)
    requires Kept(s.disk, s.trail, s.given.start)
    ensures QueueSafe(SetAside(opens, s, x, node, address, item)) && Off(SetAside(opens, s, x, node, address, item), x)
  {
    QueuedOneMore(s.queue, item);
    SetAsideIsUnsynced(opens, s, x, m, node, address, item);
    SetAsideIsOff(opens, s, x, m, node, address, item);
  }

  /** A file moved on to where the server has its node. */
  function Departed(s: State, x: Path, to: Path): State {
    var s1 := Removed(s, x, to);
    s1.(handled := s1.handled + {to})
  }

  lemma {:induction false} DepartedIsUnsynced(s: State, x: Path, m: Meta, to: Path)
    requires Unsynced(s) && Current(s, x, m) && Alongside(s, x, to)
    ensures Unsynced(Departed(s, x, to))
  {
  }

  lemma {:induction false} DepartedIsOff(s: State, x: Path, m: Meta, to: Path)
    requires NoRepeats(s) && Current(s, x, m) && Alongside(s, x, to)
    ensures NoRepeats(Departed(s, x, to)) && Off(Departed(s, x, to), x) && Off(Departed(s, x, to), to)
  {
  }

  lemma {:induction false} DepartedKeepsQueue(s: State, x: Path, m: Meta, to: Path)
    requires QueueSafe(s) && Current(s, x, m) && Alongside(s, x, to)
    ensures QueueSafe(Departed(s, x, to)) && Off(Departed(s, x, to), x) && Off(Departed(s, x, to), to)
  {
    DepartedIsUnsynced(s, x, m, to);
    DepartedIsOff(s, x, m, to);
  }

  /** The same for a file moved into the quarantine, which nothing handles again. */
  lemma {:induction false} SequesteredIsUnsynced(s: State, x: Path, m: Meta, to: Path)
    requires Unsynced(s) && Current(s, x, m) && Alongside(s, x, to) && InQuarantine(to)
    ensures Unsynced(Removed(s, x, to))
  {
  }

  lemma {:induction false} SequesteredIsOff(s: State, x: Path, m: Meta, to: Path)
    requires NoRepeats(s) && Current(s, x, m) && Alongside(s, x, to)
    ensures NoRepeats(Removed(s, x, to)) && Off(Removed(s, x, to), x) && Nobody(Removed(s, x, to).trail, x)
  {
  }

  function RenamedInPlace(s: State, x: Path, to: Path): State
    requires x in s.disk
  {
    var s1 := Renamed(s, x, to);
    s1.(handled := s1.handled + {to})
  }

  lemma {:induction false} RenamedIsUnsynced(s: State, x: Path, m: Meta, to: Path)
    requires Unsynced(s) && Current(s, x, m) && x in s.disk && x != to && Kept(s.disk, s.trail, s.given.start)
    ensures Unsynced(RenamedInPlace(s, x, to))
  {
  }

  lemma {:induction false} RenamedIsOff(s: State, x: Path, m: Meta, to: Path)
    requires NoRepeats(s) && Current(s, x, m) && x in s.disk && x != to
    ensures NoRepeats(RenamedInPlace(s, x, to)) && Off(RenamedInPlace(s, x, to), x) && Off(RenamedInPlace(s, x, to), to)
  {
  }

  lemma {:induction false} RenamedKeepsQueue(s: State, x: Path, m: Meta, to: Path)
    requires QueueSafe(s) && Current(s, x, m) && x in s.disk && x != to
    requires Kept(s.disk, s.trail, s.given.start)
    ensures QueueSafe(RenamedInPlace(s, x, to)) && Off(RenamedInPlace(s, x, to), x) && Off(RenamedInPlace(s, x, to), to)
  {
    RenamedIsUnsynced(s, x, m, to);
    RenamedIsOff(s, x, m, to);
    assert Free(s, to) || to in RenamedInPlace(s, x, to).taken;
  }

  // ----- the whole invariant under each change ----------------------------------------------------

  /** Everything but the record and the queue, when a path is overwritten or deleted. */
  lemma {:induction false} ReplacedRest(opens: Address -> Content, s: State, x: Path, node: NodeId, address: Address, to: Path, but: set<Path>)
    requires Books(opens, s, but) && Informed(s) && InUse(s) && TreeOk(s.tree, s.byNodeId)
    ensures var s' := Replaced(opens, s, x, node, address, to);
            Books(opens, s', but) && Informed(s') && InUse(s') && TreeOk(s'.tree, s'.byNodeId)
  {
    ValuesOfUpdate(s.disk, x, opens(address));
    RestAfterDisk(opens, s, Replaced(opens, s, x, node, address, to), but);
  }

  lemma {:induction false} RemovedRest(opens: Address -> Content, s: State, x: Path, to: Path, but: set<Path>)
    requires Books(opens, s, but) && Informed(s) && InUse(s) && TreeOk(s.tree, s.byNodeId)
    ensures var s' := Removed(s, x, to);
            Books(opens, s', but) && Informed(s') && InUse(s') && TreeOk(s'.tree, s'.byNodeId)
  {
    ValuesOfUpdate(s.disk, x, 0);
    RestAfterDisk(opens, s, Removed(s, x, to), but);
  }

  lemma {:induction false} PlacedKeeps(opens: Address -> Content, stamp: Stamp, s: State, x: Path, m: Meta, to: Path, but: set<Path>)
    requires Inv(opens, stamp, s, but) && Current(s, x, m) && x in s.disk && x != to && LeadsTo(stamp, s, s.taken, x, to)
    ensures var s' := Placed(s, x, to);
            Inv(opens, stamp, s', but) && Current(s', x, m) && Alongside(s', x, to)
  {
    var s' := Placed(s, x, to);
    PlacedKeepsQueue(s, x, m, to);
    PlacedIsAlongside(s, x, to);
    PlacedIsSafe(opens, stamp, s, x, to);
    ValuesOfUpdate(s.disk, to, s.disk[x]);
    RestAfterDisk(opens, s, s', but);
  }

  /** Making room beside a path takes nothing back of what is known about anything. */
  lemma {:induction false} LeadsStill(stamp: Stamp, s: State, s': State, a: Path, b: Path)
    requires LeadsTo(stamp, s, s.taken, a, b) && s'.given == s.given && s.told <= s'.told && s.taken <= s'.taken
    ensures LeadsTo(stamp, s', s'.taken, a, b)
  {
  }

  lemma {:induction false} AlongsideIsSpared(opens: Address -> Content, s: State, x: Path, to: Path)
    requires Recounted(opens, s) && Alongside(s, x, to)
    ensures Spared(Last(s.past), x, to)
  {
  }

  lemma {:induction false} SetAsideIsSafe(opens: Address -> Content, stamp: Stamp, s: State, x: Path, node: NodeId, address: Address, item: Item)
    requires DiskSafe(opens, stamp, s) && Alongside(s, x, item.path) && item.path == CopyOf(stamp, x)
    requires (node, x) in s.told && (node, address) in Stated(s) && s.disk[x] != opens(address)
    ensures DiskSafe(opens, stamp, SetAside(opens, s, x, node, address, item))
  {
    hide AllWarranted, AllRightlySent, AllInTurn, Witnessed, Kept;
    AlongsideIsSpared(opens, s, x, item.path);
    ReplacedIsSafe(opens, stamp, s, x, node, address, item.path);
    ChronicleStays(opens, stamp, Replaced(opens, s, x, node, address, item.path), SetAside(opens, s, x, node, address, item));
  }

  lemma {:induction false} SetAsideKeeps(opens: Address -> Content, stamp: Stamp, s: State, x: Path, m: Meta, node: NodeId, address: Address,
                                         item: Item, but: set<Path>)
    requires Inv(opens, stamp, s, but) && Current(s, x, m) && Alongside(s, x, item.path)
    requires item.path == CopyOf(stamp, x) && (node, x) in s.told && (node, address) in Stated(s) && s.disk[x] != opens(address)
    ensures Inv(opens, stamp, SetAside(opens, s, x, node, address, item), but)
    ensures Off(SetAside(opens, s, x, node, address, item), x)
  {
    var s' := SetAside(opens, s, x, node, address, item);
    SetAsideKeepsQueue(opens, s, x, m, node, address, item);
    SetAsideIsSafe(opens, stamp, s, x, node, address, item);
    ValuesOfUpdate(s.disk, x, opens(address));
    RestAfterDisk(opens, s, s', but);
    SetAsideInUse(opens, s, x, node, address, item);
  }

  lemma {:induction false} SetAsideInUse(opens: Address -> Content, s: State, x: Path, node: NodeId, address: Address, item: Item)
    requires InUse(s) && item.path in s.disk
    ensures InUse(SetAside(opens, s, x, node, address, item))
  {
    QueuedOneMore(s.queue, item);
  }

  lemma {:induction false} DepartedKeeps(opens: Address -> Content, stamp: Stamp, s: State, x: Path, m: Meta, to: Path, but: set<Path>)
    requires Inv(opens, stamp, s, but) && Current(s, x, m) && Alongside(s, x, to) && LeadsTo(stamp, s, s.taken, x, to)
    ensures var s' := Departed(s, x, to); Inv(opens, stamp, s', but) && Off(s', x) && Off(s', to)
  {
    hide LedgerOk, VanishedOk, PutsOk, Informed, TreeOk, Unsynced, NoRepeats, MetaFresh, Clean, AllWarranted, Witnessed, AllRightlySent, AllInTurn;
    var s' := Departed(s, x, to);
    DepartedKeepsQueue(s, x, m, to);
    AlongsideIsSpared(opens, s, x, to);
    RemovedIsSafe(opens, stamp, s, x, to);
    ChronicleStays(opens, stamp, Removed(s, x, to), s');
    ValuesOfUpdate(s.disk, x, 0);
    RestAfterDisk(opens, s, s', but);
  }

  lemma {:induction false} SequesteredIsSafe(opens: Address -> Content, stamp: Stamp, s: State, x: Path, to: Path)
    requires DiskSafe(opens, stamp, s) && Alongside(s, x, to) && to == Quarantined(stamp, x)
    ensures DiskSafe(opens, stamp, Removed(s, x, to))
  {
    AlongsideIsSpared(opens, s, x, to);
    RemovedIsSafe(opens, stamp, s, x, to);
  }

  lemma {:induction false} SequesteredKeeps(opens: Address -> Content, stamp: Stamp, s: State, x: Path, m: Meta, to: Path)
    requires Inv(opens, stamp, s, {}) && Current(s, x, m) && Alongside(s, x, to) && to == Quarantined(stamp, x)
    ensures var s' := Removed(s, x, to); Inv(opens, stamp, s', {}) && Off(s', x) && Nobody(s'.trail, x)
  {
    hide Books, Informed, TreeOk, DiskSafe, Current, Alongside, Unsynced, NoRepeats;
    QuarantinedIsThere(stamp, x);
    SequesteredIsUnsynced(s, x, m, to);
    SequesteredIsOff(s, x, m, to);
    SequesteredIsSafe(opens, stamp, s, x, to);
    RemovedRest(opens, s, x, to, {});
  }

  lemma {:induction false} RenamedKeeps(opens: Address -> Content, stamp: Stamp, s: State, x: Path, m: Meta, to: Path, but: set<Path>)
    requires Inv(opens, stamp, s, but) && Current(s, x, m) && x in s.disk && x != to && LeadsTo(stamp, s, s.taken, x, to)
    ensures var s' := RenamedInPlace(s, x, to); Inv(opens, stamp, s', but) && Off(s', x) && Off(s', to)
  {
    hide LedgerOk, VanishedOk, PutsOk, Informed, TreeOk, Unsynced, NoRepeats, MetaFresh, Clean, AllWarranted, Witnessed, AllRightlySent, AllInTurn;
    var s' := RenamedInPlace(s, x, to);
    RenamedKeepsQueue(s, x, m, to);
    RenamedIsSafe(opens, stamp, s, x, to);
    ChronicleStays(opens, stamp, Renamed(s, x, to), s');
    ValuesOfUpdate(s.disk, x, 0);
    ValuesOfUpdate(s.disk - {x}, to, s.disk[x]);
    RestAfterDisk(opens, s, s', but);
  }

  /** A path whose content is nobody's may be overwritten where the server's copy may be preferred, or where
      there was none when the pass began. */
  lemma {:induction false} OverwriteKeeps(opens: Address -> Content, stamp: Stamp, s: State, x: Path, node: NodeId, address: Address,
                                          but: set<Path>)
    requires Inv(opens, stamp, s, but) && Off(s, x) && Nobody(s.trail, x)
    requires (node, x) in s.told && (node, address) in Stated(s)
    requires s.policy.preferLocal && x in s.given.listed ==> x !in s.disk
    ensures var s' := Replaced(opens, s, x, node, address, x); Inv(opens, stamp, s', but) && Off(s', x)
  {
    NobodyStays(s.trail, x);
    ChangeAtKeepsQueue(s, Replaced(opens, s, x, node, address, x), x);
    ReplacedIsSafe(opens, stamp, s, x, node, address, x);
    ReplacedRest(opens, s, x, node, address, x, but);
  }

  /** And deleted where absences can be trusted and its node is absent. */
  lemma {:induction false} DeletedRest(opens: Address -> Content, s: State, x: Path, node: NodeId, but: set<Path>)
    requires Books(opens, s, but) && Informed(s) && InUse(s) && TreeOk(s.tree, s.byNodeId)
    ensures var s' := Deleted(s, x, node);
            Books(opens, s', but) && Informed(s') && InUse(s') && TreeOk(s'.tree, s'.byNodeId)
  {
    ValuesOfUpdate(s.disk, x, 0);
    RestAfterDisk(opens, s, Deleted(s, x, node), but);
  }

  lemma {:induction false} DeleteKeeps(opens: Address -> Content, stamp: Stamp, s: State, x: Path, node: NodeId, but: set<Path>)
    requires Inv(opens, stamp, s, but) && Off(s, x) && Nobody(s.trail, x)
    requires s.policy.applyRemoteDeletes && Absent(s, node, x)
    ensures var s' := Deleted(s, x, node); Inv(opens, stamp, s', but) && Off(s', x)
  {
    ChangeAtKeepsQueue(s, Deleted(s, x, node), x);
    DeletedIsSafe(opens, stamp, s, x, node);
    DeletedRest(opens, s, x, node, but);
  }

  lemma {:induction false} RecordBooks(opens: Address -> Content, s: State, p: Path, entry: Known, but: set<Path>)
    requires Books(opens, s, but)
    requires p in but || Honest(opens, s.seen, entry) || (entry.nodeId, entry.address) in s.carried
    ensures Books(opens, Recorded(s, p, entry), but)
  {
  }

  lemma {:induction false} RecordKeeps(opens: Address -> Content, stamp: Stamp, s: State, p: Path, entry: Known, but: set<Path>)
    requires Inv(opens, stamp, s, but) && Off(s, p) && p in s.stood && Knows(s, entry.nodeId, p)
    requires (entry.nodeId, entry.address) in s.shown + s.held
    requires p in but || Honest(opens, s.seen, entry) || (entry.nodeId, entry.address) in s.carried
    ensures Inv(opens, stamp, Recorded(s, p, entry), but) && Off(Recorded(s, p, entry), p)
  {
    hide Books, DiskSafe, QueueSafe, TreeOk, Off;
    var s' := Recorded(s, p, entry);
    RecordBooks(opens, s, p, entry, but);
    InformedStill(s, s');
    ChronicleStays(opens, stamp, s, s');
    ChangeAtKeepsQueue(s, s', p);
  }

  lemma {:induction false} ForgetBooks(opens: Address -> Content, s: State, p: Path, but: set<Path>)
    requires Books(opens, s, but)
    ensures Books(opens, Forgotten(s, p), but)
  {
  }

  lemma {:induction false} ForgetKeepsQueue(s: State, p: Path)
    requires QueueSafe(s)
    ensures QueueSafe(Forgotten(s, p))
  {
  }

  lemma {:induction false} ForgetKeeps(opens: Address -> Content, stamp: Stamp, s: State, p: Path, but: set<Path>)
    requires Inv(opens, stamp, s, but)
    ensures Inv(opens, stamp, Forgotten(s, p), but)
  {
    ForgetBooks(opens, s, p, but);
    ForgetKeepsQueue(s, p);
    InformedStill(s, Forgotten(s, p));
    ChronicleStays(opens, stamp, s, Forgotten(s, p));
  }

  // ----- what each handler may have done when it returns, however far it got ------------------------

  ghost predicate Bound(e: Known, node: ServerNode, content: Content) {
    e.nodeId == node.nodeId && e.rev == node.rev && Some(e.address) == node.address && e.plainHash == content
  }

  ghost predicate Measured(e: Known, m: Meta) {
    e.plainHash == m.plainHash && e.hint == Some(Hint(m.mtime, m.size))
  }

  ghost predicate MatchStep(opens: Address -> Content, s: State, s': State, x: Path, onServer: ServerNode) {
    && x in s.disk && onServer.address.Some? && s.disk[x] == opens(onServer.address.value)
    && x in s'.ledger && Bound(s'.ledger[x], onServer, s.disk[x]) && s' == Recorded(s, x, s'.ledger[x])
  }

  ghost predicate CopyStep(stamp: Stamp, s: State, s': State, x: Path) {
    x in s.disk && s' == Placed(s, x, CopyOf(stamp, x))
  }

  /** The local version beside the path, the server's over it, the entry, and the copy queued. */
  ghost predicate KeepBothStep(opens: Address -> Content, stamp: Stamp, s: State, s': State, x: Path, onServer: ServerNode) {
    && x in s.disk && onServer.address.Some?
    && var address, copy := onServer.address.value, CopyOf(stamp, x);
       && s.disk[x] != opens(address)
       && x in s'.ledger && Bound(s'.ledger[x], onServer, opens(address))
       && s'.queue != [] && s'.queue[|s'.queue| - 1].path == copy
       && s' == Recorded(SetAside(opens, Placed(s, x, copy), x, onServer.nodeId, address, s'.queue[|s'.queue| - 1]), x, s'.ledger[x])
  }

  /** `resolveConflict`: nothing; a match recorded; the copy alone; or both writes, the entry and the
      queued copy. */
  ghost predicate ConflictStep(opens: Address -> Content, stamp: Stamp, s: State, s': State, x: Path, onServer: ServerNode) {
    || s' == s
    || MatchStep(opens, s, s', x, onServer)
    || (CopyStep(stamp, s, s', x) && onServer.address.Some? && s.disk[x] != opens(onServer.address.value))
    || KeepBothStep(opens, stamp, s, s', x, onServer)
  }

  /** A write of the bytes on disk, accepted against its base, and its entry. */
  ghost predicate LandedStep(opens: Address -> Content, s: State, s': State, x: Path, m: Meta, base: Base, nodeId: NodeId) {
    && x in s.disk && x in s'.ledger && s'.puts != []
    && var e, put := s'.ledger[x], s'.puts[|s'.puts| - 1];
       && e.nodeId == nodeId && Measured(e, m) && opens(e.address) == s.disk[x]
       && put == Put(nodeId, base.address, e.address, put.at, GroundsOf(s, base.named))
       && s' == Recorded(WithPut(Taking(s, nodeId, e.address), put), x, e)
  }

  /** A conflict with what the server says it holds at the node. */
  ghost predicate MismatchStep(opens: Address -> Content, stamp: Stamp, s: State, s': State, x: Path, nodeId: NodeId, current: ServerNode) {
    var s1 := Answered(s, s'.shown);
    && current.nodeId == nodeId && current.path == x && s.shown <= s'.shown && Said(s1, current)
    && ConflictStep(opens, stamp, s1, s', x, current)
  }

  /** `pushEdit`: refused or failed; a conflict with what the server said it holds; or accepted against
      the base. */
  ghost predicate PushEditStep(opens: Address -> Content, stamp: Stamp, s: State, s': State, x: Path, m: Meta,
                               base: Base, nodeId: NodeId, current: ServerNode) {
    s' == s || MismatchStep(opens, stamp, s, s', x, nodeId, current) || LandedStep(opens, s, s', x, m, base, nodeId)
  }

  // ----- and what that keeps ------------------------------------------------------------------------

  lemma {:induction false} InvWeakens(opens: Address -> Content, stamp: Stamp, s: State, but: set<Path>, more: set<Path>)
    requires Inv(opens, stamp, s, but) && but <= more
    ensures Inv(opens, stamp, s, more)
  {
  }

  /** Whatever nodes are said to hold has been shown, or has been in the ledger. */
  lemma {:induction false} StatedIsHeld(s: State)
    requires Informed(s)
    ensures Stated(s) <= s.shown + s.held
  {
    hide ToldIsBounded;
  }

  lemma {:induction false} StatedGrows(s: State, s': State)
    requires s'.given == s.given && s.shown <= s'.shown && s.sent.Keys <= s'.sent.Keys
    ensures Stated(s) <= Stated(s')
  {
  }

  lemma {:induction false} MatchKeeps(opens: Address -> Content, stamp: Stamp, s: State, s': State, x: Path,
                                      onServer: ServerNode, but: set<Path>)
    requires Inv(opens, stamp, s, but) && Off(s, x) && x in s.stood && Said(s, onServer) && onServer.path == x
    requires MatchStep(opens, s, s', x, onServer)
    ensures Inv(opens, stamp, s', but) && Off(s', x) && Honest(opens, s'.seen, s'.ledger[x])
  {
    assert s.disk[x] in s.disk.Values;
    StatedIsHeld(s);
    RecordKeeps(opens, stamp, s, x, s'.ledger[x], but);
  }

  lemma {:induction false} KeepBothKeeps(opens: Address -> Content, stamp: Stamp, s: State, s': State, x: Path, m: Meta,
                                         onServer: ServerNode, but: set<Path>)
    requires Inv(opens, stamp, s, but) && Current(s, x, m) && Said(s, onServer) && onServer.path == x
    requires KeepBothStep(opens, stamp, s, s', x, onServer)
    ensures Inv(opens, stamp, s', but) && Off(s', x) && Honest(opens, s'.seen, s'.ledger[x])
  {
    var address, item := onServer.address.value, s'.queue[|s'.queue| - 1];
    var placed := Placed(s, x, item.path);
    PlacedKeeps(opens, stamp, s, x, m, item.path, but);
    StatedGrows(s, placed);
    SetAsideKeeps(opens, stamp, placed, x, m, onServer.nodeId, address, item, but);
    StatedIsHeld(s);
    RecordKeeps(opens, stamp, SetAside(opens, placed, x, onServer.nodeId, address, item), x, s'.ledger[x], but);
  }

  lemma {:induction false} ConflictKeeps(opens: Address -> Content, stamp: Stamp, s: State, s': State, x: Path, m: Meta,
                                         onServer: ServerNode, but: set<Path>)
    requires Inv(opens, stamp, s, but) && Current(s, x, m) && Said(s, onServer) && onServer.path == x
    requires ConflictStep(opens, stamp, s, s', x, onServer)
    ensures Inv(opens, stamp, s', but) && Off(s', x)
    ensures s'.ledger != s.ledger ==> x in s'.ledger && Honest(opens, s'.seen, s'.ledger[x])
  {
    if s' == s {
    } else if MatchStep(opens, s, s', x, onServer) {
      MatchKeeps(opens, stamp, s, s', x, onServer, but);
    } else if KeepBothStep(opens, stamp, s, s', x, onServer) {
      KeepBothKeeps(opens, stamp, s, s', x, m, onServer, but);
    } else {
      PlacedKeeps(opens, stamp, s, x, m, CopyOf(stamp, x), but);
    }
  }

  lemma {:induction false} AnswersKeep(opens: Address -> Content, stamp: Stamp, s: State, shown: set<(NodeId, Address)>, but: set<Path>)
    requires Inv(opens, stamp, s, but) && s.shown <= shown
    ensures Inv(opens, stamp, Answered(s, shown), but)
  {
    hide LedgerOk, VanishedOk, PutsOk, TreeOk, AllWarranted, AllRightlySent, AllInTurn, Witnessed, Recounted, Kept;
    BooksAfterDisk(opens, s, Answered(s, shown), but);
    InformedStill(s, Answered(s, shown));
    ChronicleStays(opens, stamp, s, Answered(s, shown));
  }

  lemma {:induction false} AnswerKeeps(opens: Address -> Content, stamp: Stamp, s: State, x: Path, m: Meta, shown: set<(NodeId, Address)>,
                                       but: set<Path>)
    requires Inv(opens, stamp, s, but) && Current(s, x, m) && s.shown <= shown
    ensures Inv(opens, stamp, Answered(s, shown), but) && Current(Answered(s, shown), x, m)
  {
    hide Inv;
    AnswersKeep(opens, stamp, s, shown, but);
  }

  lemma {:induction false} PutBooks(opens: Address -> Content, s: State, put: Put, but: set<Path>)
    requires Books(opens, s, but) && BaseOk(opens, put.why, put.nodeId, put.base)
    ensures Books(opens, WithPut(s, put), but)
  {
  }

  lemma {:induction false} PutKeeps(opens: Address -> Content, stamp: Stamp, s: State, put: Put, p: Path, but: set<Path>)
    requires (put.nodeId, p) in s.told && p in s.disk && s.disk[p] == opens(put.address)
    requires Inv(opens, stamp, s, but) && put.why == GroundsOf(s, put.why.named) && BaseOk(opens, put.why, put.nodeId, put.base)
    requires !put.why.preferLocal ==> NewsAt(opens, s, put.nodeId, opens(put.address), put.why)
    ensures Inv(opens, stamp, WithPut(s, put), but)
  {
    PutBooks(opens, s, put, but);
    InformedStill(s, WithPut(s, put));
    ChroniclePuts(opens, stamp, s, put, p);
  }

  /** What an edit names as its base: what this device last synchronised, or, where the server went
      backwards, what it holds now. */
  function BaseOf(preferLocal: bool, known: Known, onServer: ServerNode): Base {
    Base(if preferLocal then onServer.address else Some(known.address), known.plainHash)
  }

  /** What is about to be sent is news to the entry it goes by, where the server's copy may be preferred. */
  ghost predicate Newer(s: State, x: Path, nodeId: NodeId, base: Base) {
    !s.policy.preferLocal ==> (x in s.disk ==> s.disk[x] != base.named) || exists p :: p in s.taken && Knows(s, nodeId, p)
  }

  lemma {:induction false} LandedKeeps(opens: Address -> Content, stamp: Stamp, s: State, s': State, x: Path, m: Meta,
                                       base: Base, nodeId: NodeId, but: set<Path>)
    requires Inv(opens, stamp, s, but) && Current(s, x, m) && BaseOk(opens, GroundsOf(s, base.named), nodeId, base.address)
    requires (nodeId, x) in s.told && Newer(s, x, nodeId, base)
    requires LandedStep(opens, s, s', x, m, base, nodeId) && x in but
    ensures Inv(opens, stamp, s', but) && Off(s', x)
  {
    hide Inv, Off, BaseOk;
    var put, e := s'.puts[|s'.puts| - 1], s'.ledger[x];
    var s1 := WithPut(s, put);
    PutKeeps(opens, stamp, s, put, x, but);
    PutIsCurrent(s, put, x, m);
    AnswerKeeps(opens, stamp, s1, x, m, s1.shown + {(nodeId, e.address)}, but);
    RecordKeeps(opens, stamp, Taking(s1, nodeId, e.address), x, e, but);
  }

  lemma {:induction false} PutIsCurrent(s: State, put: Put, x: Path, m: Meta)
    requires Current(s, x, m)
    ensures Current(WithPut(s, put), x, m)
  {
  }

  lemma {:induction false} PushEditKeeps(opens: Address -> Content, stamp: Stamp, s: State, s': State, x: Path, m: Meta,
                                         base: Base, nodeId: NodeId, current: ServerNode, but: set<Path>)
    requires Inv(opens, stamp, s, but) && Current(s, x, m) && BaseOk(opens, GroundsOf(s, base.named), nodeId, base.address)
    requires (nodeId, x) in s.told && Newer(s, x, nodeId, base)
    requires PushEditStep(opens, stamp, s, s', x, m, base, nodeId, current) && x in but
    ensures Inv(opens, stamp, s', but) && Off(s', x)
  {
    if s' == s {
    } else if MismatchStep(opens, stamp, s, s', x, nodeId, current) {
      AnswerKeeps(opens, stamp, s, x, m, s'.shown, but);
      ConflictKeeps(opens, stamp, Answered(s, s'.shown), s', x, m, current, but);
    } else {
      LandedKeeps(opens, stamp, s, s', x, m, base, nodeId, but);
    }
  }

  /** `pull` of one node. */
  ghost predicate PullStep(opens: Address -> Content, s: State, s': State, node: ServerNode) {
    s' == s || PulledStep(opens, s, s', node)
  }

  ghost predicate PulledStep(opens: Address -> Content, s: State, s': State, node: ServerNode) {
    && node.address.Some? && node.path in s'.ledger
    && var address := node.address.value;
       && Bound(s'.ledger[node.path], node, opens(address))
       && s' == Recorded(Replaced(opens, s, node.path, node.nodeId, address, node.path), node.path, s'.ledger[node.path])
  }

  lemma {:induction false} PullKeeps(opens: Address -> Content, stamp: Stamp, s: State, s': State, node: ServerNode)
    requires Inv(opens, stamp, s, {}) && Off(s, node.path) && Nobody(s.trail, node.path) && Said(s, node)
    requires s.policy.preferLocal && node.path in s.given.listed ==> node.path !in s.disk
    requires PullStep(opens, s, s', node)
    ensures Inv(opens, stamp, s', {})
  {
    if s' != s {
      var s1 := Replaced(opens, s, node.path, node.nodeId, node.address.value, node.path);
      StatedIsHeld(s);
      OverwriteKeeps(opens, stamp, s, node.path, node.nodeId, node.address.value, {});
      RecordKeeps(opens, stamp, s1, node.path, s'.ledger[node.path], {});
    }
  }

  /** The entry follows the node to its new path, naming the server's address beside this device's bytes. */
  ghost predicate ArriveStep(caseOnly: bool, s: State, s': State, x: Path, m: Meta, known: Known, movedTo: ServerNode) {
    var to := movedTo.path;
    && x in s.disk && to in s'.ledger
    && var e := s'.ledger[to];
       && e.nodeId == known.nodeId && e.rev == movedTo.rev && e.plainHash == m.plainHash && Some(e.address) == movedTo.address
       && var there := if caseOnly then RenamedInPlace(s, x, to) else Departed(Placed(s, x, to), x, to);
          s' == Recorded(Forgotten(there, x), to, e)
  }

  /** The file and its entry moved (`mid`), with the edit in hand, if any, pushed from there. */
  ghost predicate FollowStep(opens: Address -> Content, stamp: Stamp, caseOnly: bool, s: State, s': State, x: Path,
                             m: Meta, known: Known, movedTo: ServerNode, mid: State, current: ServerNode) {
    && ArriveStep(caseOnly, s, mid, x, m, known, movedTo)
    && (known.plainHash == m.plainHash ==> s' == mid)
    && (known.plainHash != m.plainHash ==>
          PushEditStep(opens, stamp, mid, s', movedTo.path, m, BaseOf(s.policy.preferLocal, known, movedTo), movedTo.nodeId, current))
  }

  /** `applyRemoteRename`: nothing; the destination alone; or all of it. */
  ghost predicate RenameStep(opens: Address -> Content, stamp: Stamp, caseOnly: bool, s: State, s': State, x: Path,
                             m: Meta, known: Known, movedTo: ServerNode, mid: State, current: ServerNode) {
    || s' == s
    || (!caseOnly && x in s.disk && s' == Placed(s, x, movedTo.path))
    || FollowStep(opens, stamp, caseOnly, s, s', x, m, known, movedTo, mid, current)
  }

  lemma {:induction false} DepartedIsCurrent(s: State, x: Path, m: Meta, to: Path)
    requires Current(s, x, m) && Alongside(s, x, to) && Kept(s.disk, s.trail, s.given.start) && Off(Departed(s, x, to), to)
    requires s.disk.Keys <= s.stood
    ensures Current(Departed(s, x, to), to, m)
  {
  }

  lemma {:induction false} RenamedIsCurrent(s: State, x: Path, m: Meta, to: Path)
    requires Current(s, x, m) && x in s.disk && x != to && Kept(s.disk, s.trail, s.given.start) && Off(RenamedInPlace(s, x, to), to)
    ensures Current(RenamedInPlace(s, x, to), to, m)
  {
  }

  lemma {:induction false} EntryFollowsCurrent(s: State, x: Path, m: Meta, to: Path, e: Known)
    requires Current(s, to, m)
    ensures Current(Recorded(Forgotten(s, x), to, e), to, m) && Off(Forgotten(s, x), to)
  {
  }

  lemma {:induction false} EntryFollows(opens: Address -> Content, stamp: Stamp, s: State, x: Path, m: Meta, to: Path, e: Known)
    requires Inv(opens, stamp, s, {}) && Current(s, to, m) && Knows(s, e.nodeId, to) && (e.nodeId, e.address) in s.shown + s.held
    ensures Inv(opens, stamp, Recorded(Forgotten(s, x), to, e), {to}) && Current(Recorded(Forgotten(s, x), to, e), to, m)
  {
    EntryFollowsCurrent(s, x, m, to, e);
    ForgetKeeps(opens, stamp, s, x, {});
    InvWeakens(opens, stamp, Forgotten(s, x), {}, {to});
    RecordKeeps(opens, stamp, Forgotten(s, x), to, e, {to});
  }

  lemma {:induction false} ArriveKeeps(opens: Address -> Content, stamp: Stamp, caseOnly: bool, s: State, s': State, x: Path, m: Meta,
                                       known: Known, movedTo: ServerNode)
    requires Inv(opens, stamp, s, {}) && Current(s, x, m) && x != movedTo.path && LeadsTo(stamp, s, s.taken, x, movedTo.path)
    requires (known.nodeId, movedTo.path) in s.told && known.nodeId == movedTo.nodeId && Said(s, movedTo)
    requires ArriveStep(caseOnly, s, s', x, m, known, movedTo)
    ensures Inv(opens, stamp, s', {movedTo.path}) && Current(s', movedTo.path, m)
  {
    hide LedgerOk, VanishedOk, PutsOk, TreeOk, ToldIsBounded, QueueSafe, AllWarranted, AllRightlySent, AllInTurn, Relocated, GivenUp;
    var to := movedTo.path;
    if caseOnly {
      RenamedKeeps(opens, stamp, s, x, m, to, {});
      RenamedIsCurrent(s, x, m, to);
      EntryFollows(opens, stamp, RenamedInPlace(s, x, to), x, m, to, s'.ledger[to]);
    } else {
      var placed := Placed(s, x, to);
      PlacedKeeps(opens, stamp, s, x, m, to, {});
      LeadsStill(stamp, s, placed, x, to);
      DepartedKeeps(opens, stamp, placed, x, m, to, {});
      DepartedIsCurrent(placed, x, m, to);
      EntryFollows(opens, stamp, Departed(placed, x, to), x, m, to, s'.ledger[to]);
    }
  }

  /** An entry of the ledger is a base to stand on, and stays one. */
  lemma {:induction false} EntryIsBase(opens: Address -> Content, s: State, s': State, x: Path, onServer: ServerNode)
    requires LedgerOk(opens, s, {}) && x in s.ledger && s.ledger[x].nodeId == onServer.nodeId && Said(s, onServer)
    requires s.shown <= s'.shown && s'.given == s.given && s.sent.Keys <= s'.sent.Keys && s.held <= s'.held && s.seen <= s'.seen && s.carried <= s'.carried && s'.policy == s.policy
    ensures var base := BaseOf(s.policy.preferLocal, s.ledger[x], onServer);
            BaseOk(opens, GroundsOf(s', base.named), onServer.nodeId, base.address)
  {
    StatedGrows(s, s');
  }

  lemma {:induction false} ArriveGrows(caseOnly: bool, s: State, s': State, x: Path, m: Meta, known: Known, movedTo: ServerNode)
    requires ArriveStep(caseOnly, s, s', x, m, known, movedTo)
    ensures s.held <= s'.held && s.seen <= s'.seen && s.carried == s'.carried && s'.policy == s.policy && s'.told == s.told
    ensures s'.shown == s.shown && s'.given == s.given && s'.sent == s.sent && s.taken <= s'.taken
  {
  }

  lemma {:induction false} ArrivedIsNewer(caseOnly: bool, s: State, s': State, x: Path, m: Meta, known: Known, movedTo: ServerNode)
    requires ArriveStep(caseOnly, s, s', x, m, known, movedTo) && x != movedTo.path && Fresh(s, x, m) && known.plainHash != m.plainHash
    requires Informed(s) && x in s.ledger && s.ledger[x] == known && movedTo.nodeId == known.nodeId
    ensures Newer(s', movedTo.path, movedTo.nodeId, BaseOf(s.policy.preferLocal, known, movedTo))
  {
    hide ToldIsBounded;
    ArriveGrows(caseOnly, s, s', x, m, known, movedTo);
    if x in s.taken {
      assert Knows(s, known.nodeId, x) && x in s'.taken && Knows(s', known.nodeId, x);
    } else {
      ArrivedBytes(caseOnly, s, s', x, m, known, movedTo);
    }
  }

  lemma {:induction false} ArrivedBytes(caseOnly: bool, s: State, s': State, x: Path, m: Meta, known: Known, movedTo: ServerNode)
    requires ArriveStep(caseOnly, s, s', x, m, known, movedTo) && x != movedTo.path
    ensures x in s.disk && movedTo.path in s'.disk && s'.disk[movedTo.path] == s.disk[x]
  {
    hide Relocated, GivenUp;
  }

  lemma {:induction false} FollowKeeps(opens: Address -> Content, stamp: Stamp, caseOnly: bool, s: State, s': State,
                                       x: Path, m: Meta, known: Known, movedTo: ServerNode, mid: State, current: ServerNode)
    requires Inv(opens, stamp, s, {}) && Current(s, x, m) && x != movedTo.path && LeadsTo(stamp, s, s.taken, x, movedTo.path)
    requires x in s.ledger && s.ledger[x] == known && movedTo.nodeId == known.nodeId && Said(s, movedTo) && Fresh(s, x, m)
    requires FollowStep(opens, stamp, caseOnly, s, s', x, m, known, movedTo, mid, current)
    ensures Inv(opens, stamp, s', {movedTo.path})
  {
    ArriveKeeps(opens, stamp, caseOnly, s, mid, x, m, known, movedTo);
    if known.plainHash != m.plainHash {
      ArriveGrows(caseOnly, s, mid, x, m, known, movedTo);
      EntryIsBase(opens, s, mid, x, movedTo);
      ArrivedIsNewer(caseOnly, s, mid, x, m, known, movedTo);
      PushEditKeeps(opens, stamp, mid, s', movedTo.path, m, BaseOf(s.policy.preferLocal, known, movedTo), movedTo.nodeId,
                    current, {movedTo.path});
    }
  }

  /** From where the ledger has a node to where the server has it. */
  lemma {:induction false} EntryLeads(stamp: Stamp, s: State, x: Path, to: Path)
    requires Informed(s) && Familiar(s, x) && x in s.ledger && (s.ledger[x].nodeId, to) in s.told
    ensures LeadsTo(stamp, s, s.taken, x, to)
  {
    assert Had(s, s.taken, s.ledger[x].nodeId, x);
  }

  lemma {:induction false} RenameKeeps(opens: Address -> Content, stamp: Stamp, caseOnly: bool, s: State, s': State,
                                       x: Path, m: Meta, known: Known, movedTo: ServerNode, mid: State, current: ServerNode)
    requires Inv(opens, stamp, s, {}) && Current(s, x, m) && Familiar(s, x) && Fresh(s, x, m) && x != movedTo.path
    requires x in s.ledger && s.ledger[x] == known && movedTo.nodeId == known.nodeId && Said(s, movedTo)
    requires RenameStep(opens, stamp, caseOnly, s, s', x, m, known, movedTo, mid, current)
    ensures Inv(opens, stamp, s', {movedTo.path})
  {
    var to := movedTo.path;
    EntryLeads(stamp, s, x, to);
    if FollowStep(opens, stamp, caseOnly, s, s', x, m, known, movedTo, mid, current) {
      FollowKeeps(opens, stamp, caseOnly, s, s', x, m, known, movedTo, mid, current);
    } else {
      if s' != s {
        PlacedKeeps(opens, stamp, s, x, m, to, {});
      }
      InvWeakens(opens, stamp, s', {}, {to});
    }
  }

  /** A node in the walked tree and its index, at a path the pass has sent it to. */
  function Planted(s: State, node: ServerNode): State {
    s.(tree := s.tree[node.path := node], byNodeId := s.byNodeId[node.nodeId := node], told := s.told + {(node.nodeId, node.path)},
       sent := s.sent[Made(node.nodeId) := node.path])
  }

  /** `pushNew`: nothing, or a node the server just created for these bytes. */
  ghost predicate PushNewStep(opens: Address -> Content, s: State, s': State, x: Path, m: Meta) {
    s' == s || NewStep(opens, s, s', x, m)
  }

  ghost predicate NewStep(opens: Address -> Content, s: State, s': State, x: Path, m: Meta) {
    && x in s.disk && x in s'.ledger
    && var e := s'.ledger[x];
       && e.nodeId !in s.byNodeId && e.nodeId !in s.ids
       && Measured(e, m) && opens(e.address) == s.disk[x]
       && s' == Planted(Recorded(Taking(s, e.nodeId, e.address), x, e), ServerNode(e.nodeId, x, e.rev, Some(e.address), true))
  }

  function Without(tree: map<Path, ServerNode>, p: Path, nodeId: NodeId): map<Path, ServerNode> {
    if p in tree && tree[p].nodeId == nodeId then tree - {p} else tree
  }

  /** The node moved here, in the ledger and in the walked tree. */
  ghost predicate MovedStep(s: State, s': State, x: Path, m: Meta, source: Vanished) {
    && x in s'.ledger && source.nodeId in s.byNodeId
    && var e, current := s'.ledger[x], s.byNodeId[source.nodeId];
       && e.nodeId == source.nodeId && e.address == source.address && Measured(e, m)
       && s' == Recorded(Forgotten(s, source.path), x, e).(
                  tree := Without(Without(s.tree, source.path, source.nodeId), current.path, source.nodeId)
                          [x := ServerNode(source.nodeId, x, e.rev, Some(source.address), true)],
                  byNodeId := s.byNodeId[source.nodeId := current.(path := x)],
                  told := s.told + {(source.nodeId, x)}, sent := s.sent[Sent(source.path) := x])
  }

  function Claimed(s: State, c: Content, handled: set<Path>): State {
    s.(vanished := s.vanished - {c}, handled := s.handled + handled)
  }

  /** `pushMove`: the vanished bytes are claimed; then nothing, or the refusal remembered, or the move. */
  ghost predicate PushMoveStep(s: State, s': State, x: Path, m: Meta, source: Vanished) {
    || s' == Claimed(s, m.plainHash, {})
    || s' == Claimed(s, m.plainHash, {source.path})
    || MovedStep(Claimed(s, m.plainHash, {}), s', x, m, source)
  }

  /** A node sent to a path that stands, once the ledger has it there. */
  lemma {:induction false} SentBooks(opens: Address -> Content, s: State, s': State, but: set<Path>, nodeId: NodeId, x: Path, e: Known)
    requires Books(opens, s, but) && x in but
    requires s' == Recorded(s, x, e).(tree := s'.tree, byNodeId := s'.byNodeId, told := s.told + {(nodeId, x)}, sent := s'.sent)
    ensures Books(opens, s', but)
  {
    RecordBooks(opens, s, x, e, but);
    BooksAfterDisk(opens, Recorded(s, x, e), s', but);
  }

  /** What is sent to a path is of the node. */
  ghost predicate SendingOf(s: State, k: Sending, nodeId: NodeId) {
    k !in s.sent && match k
                    case Made(n) => n == nodeId
                    case Sent(v) => v in s.given.ledger && s.given.ledger[v].nodeId == nodeId
  }

  lemma {:induction false} SentToStill(s: State, s': State, k: Sending, x: Path, n: NodeId, p: Path)
    requires SentTo(s, n, p) && k !in s.sent && s'.sent == s.sent[k := x] && s'.given == s.given
    ensures SentTo(s', n, p)
  {
  }

  lemma {:induction false} SentIsBounded(s: State, s': State, nodeId: NodeId, x: Path, k: Sending)
    requires ToldIsBounded(s) && SendingOf(s, k, nodeId)
    requires s'.given == s.given && s'.told == s.told + {(nodeId, x)} && s'.sent == s.sent[k := x]
    ensures ToldIsBounded(s')
  {
    hide SentTo;
    assert SentTo(s', nodeId, x) by {
      SentAt(s, s', nodeId, x, k);
    }
    forall n: NodeId, p: Path | (n, p) in s'.told
      ensures (p in s'.given.walked && s'.given.walked[p].nodeId == n) || SentTo(s', n, p)
    {
      if (n, p) != (nodeId, x) && SentTo(s, n, p) {
        SentToStill(s, s', k, x, n, p);
      }
    }
  }

  lemma {:induction false} SentAt(s: State, s': State, nodeId: NodeId, x: Path, k: Sending)
    requires SendingOf(s, k, nodeId) && s'.given == s.given && s'.sent == s.sent[k := x]
    ensures SentTo(s', nodeId, x)
  {
  }

  lemma {:induction false} SentInformed(s: State, s': State, nodeId: NodeId, x: Path, e: Known, k: Sending)
    requires Informed(s) && e.nodeId == nodeId && (e.nodeId, e.address) in s.shown + s.held && SendingOf(s, k, nodeId)
    requires s' == Recorded(s, x, e).(tree := s'.tree, byNodeId := s'.byNodeId, told := s.told + {(nodeId, x)}, sent := s.sent[k := x])
    requires forall p :: p in s'.tree ==> (p in s.tree && s'.tree[p] == s.tree[p]) || Said(s', s'.tree[p])
    requires forall n :: n in s'.byNodeId ==> (n in s.byNodeId && s'.byNodeId[n] == s.byNodeId[n]) || Said(s', s'.byNodeId[n])
    ensures Informed(s')
  {
    hide ToldIsBounded, Stated;
    StatedGrows(s, s');
    SentIsBounded(s, s', nodeId, x, k);
  }

  lemma {:induction false} SentKeeps(opens: Address -> Content, stamp: Stamp, s: State, s': State, but: set<Path>, nodeId: NodeId, x: Path,
                                     e: Known, k: Sending)
    requires Inv(opens, stamp, s, but) && Off(s, x) && x in s.stood && x in but && e.nodeId == nodeId
    requires (e.nodeId, e.address) in s.shown + s.held && SendingOf(s, k, nodeId)
    requires TreeOk(s'.tree, s'.byNodeId)
    requires s' == Recorded(s, x, e).(tree := s'.tree, byNodeId := s'.byNodeId, told := s.told + {(nodeId, x)}, sent := s.sent[k := x])
    requires RightlySent(opens, s', k)
    requires forall p :: p in s'.tree ==> (p in s.tree && s'.tree[p] == s.tree[p]) || Said(s', s'.tree[p])
    requires forall n :: n in s'.byNodeId ==> (n in s.byNodeId && s'.byNodeId[n] == s.byNodeId[n]) || Said(s', s'.byNodeId[n])
    ensures Inv(opens, stamp, s', but)
  {
    hide Books, Informed, DiskSafe, QueueSafe, TreeOk, Off, RightlySent;
    SentBooks(opens, s, s', but, nodeId, x, e);
    SentInformed(s, s', nodeId, x, e, k);
    ChronicleSends(opens, stamp, s, s', k, x);
    ChangeAtKeepsQueue(s, s', x);
  }

  lemma {:induction false} PlantedTreeIsOk(tree: map<Path, ServerNode>, byNodeId: map<NodeId, ServerNode>, node: ServerNode)
    requires TreeOk(tree, byNodeId) && node.nodeId !in byNodeId && node.path !in tree && node.isFile && node.address.Some?
    ensures TreeOk(tree[node.path := node], byNodeId[node.nodeId := node])
  {
  }

  lemma {:induction false} TakingIsOff(s: State, n: NodeId, a: Address, x: Path)
    requires Off(s, x)
    ensures Off(Taking(s, n, a), x)
  {
  }

  lemma {:induction false} PlantedIsSaid(s: State, s': State, node: ServerNode, x: Path, e: Known)
    requires node.nodeId == e.nodeId && node.path == x && node.address == Some(e.address) && s' == Planted(Recorded(s, x, e), node)
    requires (e.nodeId, e.address) in s.shown
    ensures forall p :: p in s'.tree ==> (p in s.tree && s'.tree[p] == s.tree[p]) || Said(s', s'.tree[p])
    ensures forall n :: n in s'.byNodeId ==> (n in s.byNodeId && s'.byNodeId[n] == s.byNodeId[n]) || Said(s', s'.byNodeId[n])
    ensures s' == Recorded(s, x, e).(tree := s'.tree, byNodeId := s'.byNodeId, told := s.told + {(e.nodeId, x)},
                                     sent := s.sent[Made(e.nodeId) := x])
  {
  }

  /** A node the server makes is new to this device, and sent nowhere yet. */
  lemma {:induction false} MadeIsNew(s: State, n: NodeId)
    requires Informed(s) && AllIndexed(s) && n !in s.byNodeId && n !in s.ids
    ensures Unheard(s.given, n) && SendingOf(s, Made(n), n)
  {
  }

  lemma {:induction false} MadeRightly(opens: Address -> Content, s: State, s': State, n: NodeId, a: Address, x: Path)
    requires Recounted(opens, s) && Unheard(s.given, n) && x in s.disk && opens(a) == s.disk[x]
    requires s'.given == s.given && s'.past == s.past && (n, a) in s'.shown && Made(n) in s'.sent && s'.sent[Made(n)] == x
    ensures RightlySent(opens, s', Made(n))
  {
    assert StoodAt(s.past, x, opens(a)) by {
      assert Last(s.past).disk[x] == opens(a);
    }
    assert MadeFrom(opens, s', n, a, x);
  }

  lemma {:induction false} PushNewKeeps(opens: Address -> Content, stamp: Stamp, s: State, s': State, x: Path, m: Meta)
    requires Inv(opens, stamp, s, {x}) && Off(s, x) && x in s.stood && x !in s.tree && AllIndexed(s)
    requires PushNewStep(opens, s, s', x, m)
    ensures Inv(opens, stamp, s', {x})
  {
    hide Books, Informed, Kept, AllWarranted, Witnessed, AllRightlySent, AllInTurn, Recounted, QueueSafe, InUse, Off;
    hide AllIndexed, Unheard, RightlySent;
    if s' != s {
      var e := s'.ledger[x];
      var s1 := Taking(s, e.nodeId, e.address);
      MadeIsNew(s, e.nodeId);
      MadeRightly(opens, s, s', e.nodeId, e.address, x);
      AnswersKeep(opens, stamp, s, s1.shown, {x});
      TakingIsOff(s, e.nodeId, e.address, x);
      PlantedIsSaid(s1, s', ServerNode(e.nodeId, x, e.rev, Some(e.address), true), x, e);
      PlantedTreeIsOk(s.tree, s.byNodeId, ServerNode(e.nodeId, x, e.rev, Some(e.address), true));
      SentKeeps(opens, stamp, s1, s', {x}, e.nodeId, x, e, Made(e.nodeId));
    }
  }

  lemma {:induction false} ClaimBooks(opens: Address -> Content, s: State, c: Content, handled: set<Path>, but: set<Path>)
    requires Books(opens, s, but)
    ensures Books(opens, Claimed(s, c, handled), but)
  {
  }

  lemma {:induction false} ClaimKeeps(opens: Address -> Content, stamp: Stamp, s: State, c: Content, handled: set<Path>, but: set<Path>)
    requires Inv(opens, stamp, s, but)
    ensures Inv(opens, stamp, Claimed(s, c, handled), but)
  {
    ClaimBooks(opens, s, c, handled, but);
    InformedStill(s, Claimed(s, c, handled));
    ChronicleStays(opens, stamp, s, Claimed(s, c, handled));
    ClaimKeepsQueue(s, c, handled);
  }

  lemma {:induction false} ClaimKeepsQueue(s: State, c: Content, handled: set<Path>)
    requires QueueSafe(s)
    ensures QueueSafe(Claimed(s, c, handled))
  {
  }

  lemma {:induction false} MovedTreeIsOk(tree: map<Path, ServerNode>, byNodeId: map<NodeId, ServerNode>, from: Path, nodeId: NodeId,
                                         node: ServerNode)
    requires TreeOk(tree, byNodeId) && nodeId in byNodeId && node.path !in tree
    requires node.nodeId == nodeId && node.isFile && node.address.Some?
    ensures TreeOk(Without(Without(tree, from, nodeId), byNodeId[nodeId].path, nodeId)[node.path := node],
                   byNodeId[nodeId := byNodeId[nodeId].(path := node.path)])
  {
  }

  lemma {:induction false} MovedIsSaid(s: State, s': State, x: Path, m: Meta, source: Vanished)
    requires Informed(s) && TreeOk(s.tree, s.byNodeId) && MovedStep(s, s', x, m, source)
    requires source.path in s.given.ledger && s.given.ledger[source.path].nodeId == source.nodeId
    requires s.given.ledger[source.path].address == source.address
    ensures forall p :: p in s'.tree ==> (p in s.tree && s'.tree[p] == s.tree[p]) || Said(s', s'.tree[p])
    ensures forall n :: n in s'.byNodeId ==> (n in s.byNodeId && s'.byNodeId[n] == s.byNodeId[n]) || Said(s', s'.byNodeId[n])
  {
    hide ToldIsBounded, Stated, TreeOk;
    StatedGrows(s, s');
    MovedIsStated(s, s', source);
    assert TreeOk(s.tree, s.byNodeId);
    MovedWas(s, source);
    assert s'.told == s.told + {(source.nodeId, x)};
    assert Said(s', s'.tree[x]);
    assert Said(s', s'.byNodeId[source.nodeId]);
    assert forall n :: n in s'.byNodeId && n != source.nodeId ==> s'.byNodeId[n] == s.byNodeId[n];
    assert forall p :: p in s'.tree && p != x ==> p in s.tree && s'.tree[p] == s.tree[p];
  }

  lemma {:induction false} MovedWas(s: State, source: Vanished)
    requires Informed(s) && TreeOk(s.tree, s.byNodeId) && source.nodeId in s.byNodeId
    ensures s.byNodeId[source.nodeId].nodeId == source.nodeId && Said(s, s.byNodeId[source.nodeId])
  {
  }

  lemma {:induction false} MovedIsStated(s: State, s': State, source: Vanished)
    requires s'.given == s.given && Sent(source.path) in s'.sent && source.path in s.given.ledger
    requires s.given.ledger[source.path].nodeId == source.nodeId && s.given.ledger[source.path].address == source.address
    ensures (source.nodeId, source.address) in Stated(s')
  {
  }

  lemma {:induction false} MovedKeeps(opens: Address -> Content, stamp: Stamp, s: State, s': State, x: Path, m: Meta, source: Vanished)
    requires Inv(opens, stamp, s, {x}) && Off(s, x) && x in s.stood && x !in s.tree && MovedStep(s, s', x, m, source)
    requires source.path in s.given.ledger && s.given.ledger[source.path].address == source.address
    requires (source.nodeId, source.address) in s.held && SendingOf(s, Sent(source.path), source.nodeId)
    requires source.path !in s.given.listed && StoodAt(s.past, x, s.given.ledger[source.path].plainHash)
    ensures Inv(opens, stamp, s', {x})
  {
    ForgetKeeps(opens, stamp, s, source.path, {x});
    MovedTreeIsOk(s.tree, s.byNodeId, source.path, source.nodeId, ServerNode(source.nodeId, x, s'.ledger[x].rev, Some(source.address), true));
    MovedIsSaid(s, s', x, m, source);
    SentKeeps(opens, stamp, Forgotten(s, source.path), s', {x}, source.nodeId, x, s'.ledger[x], Sent(source.path));
  }

  lemma {:induction false} SourceIsHeld(opens: Address -> Content, stamp: Stamp, s: State, c: Content, source: Vanished, but: set<Path>)
    requires Inv(opens, stamp, s, but) && c in s.vanished && source in s.vanished[c]
    ensures (source.nodeId, source.address) in s.held
  {
    hide TreeOk, Informed, InUse, DiskSafe, QueueSafe, LedgerOk, PutsOk, VanishedOk;
    assert VanishedOk(opens, s);
    VanishedIsHeld(opens, s, c, source);
  }

  lemma {:induction false} VanishedIsHeld(opens: Address -> Content, s: State, c: Content, source: Vanished)
    requires VanishedOk(opens, s) && c in s.vanished && source in s.vanished[c]
    ensures (source.nodeId, source.address) in s.held
  {
  }

  lemma {:induction false} ClaimIsOff(s: State, c: Content, handled: set<Path>, x: Path)
    requires Off(s, x)
    ensures Off(Claimed(s, c, handled), x)
  {
  }

  lemma {:induction false} PushMoveKeeps(opens: Address -> Content, stamp: Stamp, s: State, s': State, x: Path, m: Meta, source: Vanished)
    requires Inv(opens, stamp, s, {x}) && Off(s, x) && x in s.stood && x !in s.tree && PushMoveStep(s, s', x, m, source)
    requires m.plainHash in s.vanished && source in s.vanished[m.plainHash] && Collected(s) && StoodAt(s.past, x, m.plainHash)
    ensures Inv(opens, stamp, s', {x})
  {
    hide Inv, MovedStep, Off, StoodAt;
    SourceIsHeld(opens, stamp, s, m.plainHash, source, {x});
    ClaimIsOff(s, m.plainHash, {}, x);
    if s' == Claimed(s, m.plainHash, {source.path}) {
      ClaimKeeps(opens, stamp, s, m.plainHash, {source.path}, {x});
    } else {
      ClaimKeeps(opens, stamp, s, m.plainHash, {}, {x});
      if s' != Claimed(s, m.plainHash, {}) {
        MovedKeeps(opens, stamp, Claimed(s, m.plainHash, {}), s', x, m, source);
      }
    }
  }
}
