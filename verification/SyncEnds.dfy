/** How a pass begins and ends, and the pass after a reset. */
module SyncEnds {
  import opened Options
  import opened Reconcile
  import opened SyncState
  import opened SyncRecord
  import opened SyncSteps
  import opened SyncWalk
  import opened SyncProgress
  import opened SyncCarry

  // ----- the beginning ----------------------------------------------------------------------------

  /** What a walk of the server finds: files, each under its own path, no node twice. */
  predicate NodesOk(walked: map<Path, ServerNode>) {
    && (forall p :: p in walked ==> walked[p].path == p && walked[p].isFile && walked[p].address.Some?)
    && (forall p, q :: p in walked && q in walked && walked[p].nodeId == walked[q].nodeId ==> p == q)
  }

  /** The index of a walked tree. */
  ghost predicate Indexes(walked: map<Path, ServerNode>, byNodeId: map<NodeId, ServerNode>) {
    && (forall p :: p in walked ==> walked[p].nodeId in byNodeId && byNodeId[walked[p].nodeId] == walked[p])
    && (forall n :: n in byNodeId ==> byNodeId[n].path in walked && walked[byNodeId[n].path] == byNodeId[n])
  }

  lemma {:induction false} IndexIsOk(walked: map<Path, ServerNode>, byNodeId: map<NodeId, ServerNode>)
    requires NodesOk(walked)
    requires forall p :: p in walked ==> walked[p].nodeId in byNodeId && byNodeId[walked[p].nodeId] == walked[p]
    requires forall n :: n in byNodeId ==> exists p :: p in walked && walked[p].nodeId == n
    ensures TreeOk(walked, byNodeId) && Indexes(walked, byNodeId)
  {
  }

  /** What a pass must not lose: every local file in scope whose bytes are not those of its entry. */
  function Unsynchronised(disk: map<Path, Content>, ledger: map<Path, Known>, scope: set<Path>): map<Path, Content> {
    map p | p in disk && p in scope && (p in ledger ==> ledger[p].plainHash != disk[p]) :: disk[p]
  }

  ghost predicate Distinct(files: seq<Item>) {
    forall i, j :: 0 <= i < j < |files| ==> files[i].path != files[j].path
  }

  lemma {:induction false} ListedOneMore(files: seq<Item>, item: Item)
    requires Distinct(files) && item.path !in Queued(files)
    ensures Distinct(files + [item]) && Queued(files + [item]) == Queued(files) + {item.path}
  {
  }

  function VanishedAt(path: Path, known: Known): Vanished {
    Vanished(path, known.nodeId, known.rev, known.address)
  }

  function PairsOf(walked: map<Path, ServerNode>): set<(NodeId, Path)> {
    set p | p in walked :: (walked[p].nodeId, p)
  }

  function HeadsOf(walked: map<Path, ServerNode>): set<(NodeId, Address)> {
    set p | p in walked && walked[p].address.Some? :: (walked[p].nodeId, walked[p].address.value)
  }

  /** A pass about to walk: what it has to keep is where it stands, and nothing has happened yet. */
  function Begun(s: State, listed: set<Path>, walked: map<Path, ServerNode>, start: map<Path, Content>): State {
    s.(given := Given(s.disk, listed, s.ledger, walked, start, s.carried, s.seen, s.held, |s.puts|), trail := Standing(start),
       past := [Snapshot(s.disk, Standing(start), {}, Opening)], told := PairsOf(walked), sent := map[], shown := HeadsOf(walked),
       stood := s.disk.Keys + s.ledger.Keys, taken := {})
  }

  /** Each vanished path as the ledger has it, under the bytes it has for it. */
  ghost predicate CollectedFrom(vanished: map<Content, seq<Vanished>>, ledger: map<Path, Known>) {
    forall c, v :: c in vanished && v in vanished[c] ==>
      v.path in ledger && c == ledger[v.path].plainHash && v == VanishedAt(v.path, ledger[v.path])
  }

  /** Every node of the ledger is among them. */
  ghost predicate NodesIn(ledger: map<Path, Known>, ids: set<NodeId>) {
    forall p :: p in ledger ==> ledger[p].nodeId in ids
  }

  /** The same device with a new tree, scan and queue, its ledger as it was or emptied. */
  ghost predicate Resupplied(s: State, s': State) {
    && s' == s.(policy := s'.policy, tree := s'.tree, byNodeId := s'.byNodeId, meta := s'.meta, dedup := s'.dedup,
                vanished := s'.vanished, handled := s'.handled, queue := s'.queue, ledger := s'.ledger, ids := s'.ids)
    && (s'.ledger == s.ledger || s'.ledger == map[])
    && CollectedFrom(s'.vanished, s'.ledger) && NodesIn(s'.ledger, s'.ids)
  }

  /** An accurate scan: what was measured is what is there, and what vanished was not found. */
  ghost predicate Scanned(disk: map<Path, Content>, meta: map<Path, Meta>, vanished: map<Content, seq<Vanished>>) {
    && (forall p :: p in meta ==> p in disk && meta[p].plainHash == disk[p])
    && (forall c, v :: c in vanished && v in vanished[c] ==> v.path !in meta)
  }

  /** Every listed file measured and on the queue, and what must be kept among them. */
  ghost predicate Listed(s: State, listed: set<Path>, start: map<Path, Content>) {
    && Distinct(s.queue) && Queued(s.queue) == listed && s.meta.Keys == listed && start.Keys <= listed && listed <= s.disk.Keys
    && forall p :: p in start && p in s.ledger ==> s.ledger[p].plainHash != start[p]
  }

  lemma {:induction false} ResuppliedBooks(opens: Address -> Content, s: State, s1: State, listed: set<Path>, walked: map<Path, ServerNode>,
                                           start: map<Path, Content>)
    requires Books(opens, s, {}) && Resupplied(s, s1) && DedupOk(opens, s1.dedup)
    ensures Books(opens, Begun(s1, listed, walked, start), {})
  {
  }

  lemma {:induction false} ResuppliedIsHeld(opens: Address -> Content, s: State, s1: State)
    requires Books(opens, s, {}) && Resupplied(s, s1)
    ensures forall p :: p in s1.ledger ==> (s1.ledger[p].nodeId, s1.ledger[p].address) in s1.held
    ensures forall p :: p in s1.ledger ==> s1.ledger[p].nodeId in s1.ids
  {
  }

  lemma {:induction false} BegunIsSafe(opens: Address -> Content, stamp: Stamp, s: State, listed: set<Path>, walked: map<Path, ServerNode>,
                                       start: map<Path, Content>)
    requires forall p :: p in start ==> p in s.disk && s.disk[p] == start[p]
    ensures DiskSafe(opens, stamp, Begun(s, listed, walked, start))
  {
    var s' := Begun(s, listed, walked, start);
    assert forall p :: p in s'.stood ==> p in s'.given.ledger || p in s'.past[0].disk;
  }

  lemma {:induction false} BegunIsInformed(s: State, listed: set<Path>, start: map<Path, Content>)
    requires TreeOk(s.tree, s.byNodeId) && Indexes(s.tree, s.byNodeId) && forall p :: p in s.ledger ==> s.ledger[p].nodeId in s.ids
    requires forall p :: p in s.ledger ==> (s.ledger[p].nodeId, s.ledger[p].address) in s.held
    ensures var s' := Begun(s, listed, s.tree, start); Informed(s') && AllIndexed(s')
  {
  }

  lemma {:induction false} BegunIsQueued(s: State, listed: set<Path>, walked: map<Path, ServerNode>, start: map<Path, Content>)
    requires Scanned(s.disk, s.meta, s.vanished) && Listed(s, listed, start) && s.disk.Values <= s.seen
    requires forall p :: p in start ==> p in s.disk && s.disk[p] == start[p]
    ensures QueueSafe(Begun(s, listed, walked, start)) && InUse(Begun(s, listed, walked, start))
  {
  }

  lemma {:induction false} BegunIsOriginal(opens: Address -> Content, s: State, listed: set<Path>, start: map<Path, Content>)
    requires Scanned(s.disk, s.meta, s.vanished) && Listed(s, listed, start) && CollectedFrom(s.vanished, s.ledger) && Indexes(s.tree, s.byNodeId)
    requires TreeOk(s.tree, s.byNodeId)
    ensures var s' := Begun(s, listed, s.tree, start); Original(s') && CarriedBounded(opens, s')
  {
    var s' := Begun(s, listed, s.tree, start);
    BegunIsWalked(s, listed, start);
    hide TreeOk, AsWalked, Indexes;
    assert forall p :: p in Queued(s'.queue) && p in s'.ledger ==> s'.ledger[p].nodeId in s'.byNodeId ==>
      FromWalk(s', s'.byNodeId[s'.ledger[p].nodeId]);
  }

  lemma {:induction false} BegunIsWalked(s: State, listed: set<Path>, start: map<Path, Content>)
    requires TreeOk(s.tree, s.byNodeId) && Indexes(s.tree, s.byNodeId)
    ensures var s' := Begun(s, listed, s.tree, start);
            && (forall n :: n in s'.byNodeId ==> AsWalked(s', n))
            && (forall n :: n in s'.byNodeId ==> FromWalk(s', s'.byNodeId[n]))
  {
    var s' := Begun(s, listed, s.tree, start);
    forall n | n in s'.byNodeId ensures AsWalked(s', n) {
      assert s.byNodeId[n].path in s'.given.walked;
    }
  }

  /** An accurate scan of a vault whose books are in order is where the walk begins. */
  lemma {:induction false} ReadyToWalk(opens: Address -> Content, stamp: Stamp, s: State, s1: State, listed: set<Path>, start: map<Path, Content>)
    requires Books(opens, s, {}) && Resupplied(s, s1) && DedupOk(opens, s1.dedup) && TreeOk(s1.tree, s1.byNodeId) && Indexes(s1.tree, s1.byNodeId)
    requires Scanned(s1.disk, s1.meta, s1.vanished) && Listed(s1, listed, start) && forall p :: p in start ==> p in s1.disk && s1.disk[p] == start[p]
    ensures Walking(opens, stamp, Begun(s1, listed, s1.tree, start))
  {
    hide Informed, InUse, QueueSafe, DiskSafe, AllIndexed, Original, CarriedBounded, Indexes, Scanned, Listed, LedgerOk, VanishedOk, PutsOk;
    ResuppliedBooks(opens, s, s1, listed, s1.tree, start);
    BegunIsSafe(opens, stamp, s1, listed, s1.tree, start);
    ResuppliedIsHeld(opens, s, s1);
    BegunIsInformed(s1, listed, start);
    BegunIsQueued(s1, listed, s1.tree, start);
    BegunIsOriginal(opens, s1, listed, start);
  }

  lemma {:induction false} Prepared(opens: Address -> Content, stamp: Stamp, s: State, s1: State, listed: set<Path>, start: map<Path, Content>,
                                    ok: bool)
    requires Books(opens, s, {}) && Resupplied(s, s1) && DedupOk(opens, s1.dedup) && TreeOk(s1.tree, s1.byNodeId) && Indexes(s1.tree, s1.byNodeId)
    requires Scanned(s1.disk, s1.meta, s1.vanished) && forall p :: p in start ==> p in s1.disk && s1.disk[p] == start[p]
    requires ok ==> Listed(s1, listed, start)
    ensures var s' := Begun(s1, listed, s1.tree, start);
            && Books(opens, s', {}) && DiskSafe(opens, stamp, s') && CarriedBounded(opens, s') && Informed(s')
            && (ok ==> Walking(opens, stamp, s'))
  {
    hide Books, Informed, DiskSafe, Walking, Indexes, TreeOk, Scanned, Listed;
    ResuppliedBooks(opens, s, s1, listed, s1.tree, start);
    BegunIsSafe(opens, stamp, s1, listed, s1.tree, start);
    ResuppliedIsHeld(opens, s, s1);
    BegunIsInformed(s1, listed, start);
    if ok {
      ReadyToWalk(opens, stamp, s, s1, listed, start);
    }
  }

  // ----- what the walk did not claim --------------------------------------------------------------

  /** One vanished path: a node the server shows elsewhere was moved there and one it does not show is
      gone already, so only the entry goes; otherwise its deletion is pushed, where an absence may be. */
  ghost predicate VanishedStep(s: State, s': State, v: Vanished) {
    var noted := s.(handled := s.handled + {v.path});
    if !s.policy.pushDeletes || v.nodeId !in s.byNodeId || s.byNodeId[v.nodeId].path != v.path then s' == Forgotten(noted, v.path)
    else s' == noted || s' == Forgotten(noted, v.path).(tree := s.tree - {v.path}, byNodeId := s.byNodeId - {v.nodeId})
  }

  lemma {:induction false} UnplantedIsOk(tree: map<Path, ServerNode>, byNodeId: map<NodeId, ServerNode>, nodeId: NodeId)
    requires TreeOk(tree, byNodeId) && nodeId in byNodeId
    ensures TreeOk(tree - {byNodeId[nodeId].path}, byNodeId - {nodeId})
  {
  }

  lemma {:induction false} NotedKeeps(opens: Address -> Content, stamp: Stamp, s: State, p: Path)
    requires Inv(opens, stamp, s, {})
    ensures Inv(opens, stamp, s.(handled := s.handled + {p}), {})
  {
    hide LedgerOk, VanishedOk, PutsOk, Informed, QueueSafe, DiskSafe, TreeOk;
    var s' := s.(handled := s.handled + {p});
    RestAfterDisk(opens, s, s', {});
    ChronicleStays(opens, stamp, s, s');
    NotedKeepsQueue(s, p);
  }

  lemma {:induction false} NotedKeepsQueue(s: State, p: Path)
    requires QueueSafe(s)
    ensures QueueSafe(s.(handled := s.handled + {p}))
  {
  }

  lemma {:induction false} UnplantedInformed(s: State, p: Path, n: NodeId)
    requires Informed(s)
    ensures Informed(s.(tree := s.tree - {p}, byNodeId := s.byNodeId - {n}))
  {
  }

  lemma {:induction false} UnplantedKeeps(opens: Address -> Content, stamp: Stamp, s: State, n: NodeId)
    requires Inv(opens, stamp, s, {}) && n in s.byNodeId
    ensures Inv(opens, stamp, s.(tree := s.tree - {s.byNodeId[n].path}, byNodeId := s.byNodeId - {n}), {})
  {
    hide Informed, DiskSafe, TreeOk;
    var s' := s.(tree := s.tree - {s.byNodeId[n].path}, byNodeId := s.byNodeId - {n});
    UnplantedIsOk(s.tree, s.byNodeId, n);
    UnplantedInformed(s, s.byNodeId[n].path, n);
    ChronicleStays(opens, stamp, s, s');
    BooksAfterDisk(opens, s, s', {});
  }

  lemma {:induction false} VanishedKeeps(opens: Address -> Content, stamp: Stamp, s: State, s': State, v: Vanished)
    requires Inv(opens, stamp, s, {}) && VanishedStep(s, s', v)
    ensures Inv(opens, stamp, s', {})
  {
    hide Inv;
    var noted := s.(handled := s.handled + {v.path});
    NotedKeeps(opens, stamp, s, v.path);
    if s' != noted {
      ForgetKeeps(opens, stamp, noted, v.path, {});
      if s' != Forgotten(noted, v.path) {
        UnplantedKeeps(opens, stamp, Forgotten(noted, v.path), v.nodeId);
      }
    }
  }

  /** Nodes leave the index only where absences can be trusted, and from the path that vanished here. */
  ghost predicate OnlyVanishedAreDeleted(policy: Policy, vanished: map<Content, seq<Vanished>>,
                                         byNodeId0: map<NodeId, ServerNode>, byNodeId: map<NodeId, ServerNode>) {
    && (forall n :: n in byNodeId ==> n in byNodeId0 && byNodeId0[n] == byNodeId[n])
    && (forall n :: n in byNodeId0 && n !in byNodeId ==> policy.pushDeletes && IsVanished(vanished, n, byNodeId0[n].path))
  }

  ghost predicate IsVanished(vanished: map<Content, seq<Vanished>>, n: NodeId, p: Path) {
    exists c, v :: c in vanished && v in vanished[c] && v.nodeId == n && v.path == p
  }

  lemma {:induction false} DeletedOneMore(s: State, s': State, c: Content, v: Vanished, byNodeId0: map<NodeId, ServerNode>)
    requires VanishedStep(s, s', v) && c in s.vanished && v in s.vanished[c]
    requires OnlyVanishedAreDeleted(s.policy, s.vanished, byNodeId0, s.byNodeId)
    ensures OnlyVanishedAreDeleted(s.policy, s.vanished, byNodeId0, s'.byNodeId)
  {
    hide IsVanished, VanishedStep;
    IndexShrinks(s, s', v);
    VanishedIs(s.vanished, c, v);
  }

  lemma {:induction false} VanishedIs(vanished: map<Content, seq<Vanished>>, c: Content, v: Vanished)
    requires c in vanished && v in vanished[c]
    ensures IsVanished(vanished, v.nodeId, v.path)
  {
  }

  lemma {:induction false} IndexShrinks(s: State, s': State, v: Vanished)
    requires VanishedStep(s, s', v)
    ensures s'.byNodeId == s.byNodeId ||
            (&& s.policy.pushDeletes && v.nodeId in s.byNodeId && s.byNodeId[v.nodeId].path == v.path
             && s'.byNodeId == s.byNodeId - {v.nodeId})
  {
    var noted := s.(handled := s.handled + {v.path});
    if s' == noted {
      assert s'.byNodeId == s.byNodeId;
    } else if s' == Forgotten(noted, v.path) {
      assert s'.byNodeId == s.byNodeId;
    } else {
      assert s'.byNodeId == s.byNodeId - {v.nodeId};
    }
  }

  /** An entry whose file vanished stays as long as its deletion is to be pushed and the index has its node there. */
  ghost predicate KeptFor(s: State, before: map<Path, Known>, v: Vanished) {
    v.path in before && s.policy.pushDeletes && v.nodeId in s.byNodeId && s.byNodeId[v.nodeId].path == v.path ==> v.path in s.ledger
  }

  /** And only so long. */
  ghost predicate KeptOnlyFor(s: State, before: map<Path, Known>, v: Vanished) {
    v.path in s.ledger ==> v.path in before && s.policy.pushDeletes && v.nodeId in s.byNodeId && s.byNodeId[v.nodeId].path == v.path
  }

  ghost predicate AllKept(s: State, before: map<Path, Known>) {
    s.ledger.Keys <= before.Keys && forall c, v :: c in s.vanished && v in s.vanished[c] ==> KeptFor(s, before, v)
  }

  lemma {:induction false} VanishedSettles(s: State, s': State, before: map<Path, Known>, c: Content, v: Vanished)
    requires VanishedStep(s, s', v) && AllKept(s, before) && Collected(s) && c in s.vanished && v in s.vanished[c]
    ensures AllKept(s', before) && Collected(s') && KeptOnlyFor(s', before, v)
    ensures forall d, u :: d in s.vanished && u in s.vanished[d] && KeptOnlyFor(s, before, u) ==> KeptOnlyFor(s', before, u)
  {
    hide VanishedStep, KeptFor, KeptOnlyFor;
    VanishedSame(s, s', v);
    assert KeptOnlyFor(s', before, v) by {
      KeptOnlyIf(s, s', before, v);
    }
    forall d, u | d in s.vanished && u in s.vanished[d]
      ensures KeptFor(s', before, u) && (KeptOnlyFor(s, before, u) ==> KeptOnlyFor(s', before, u))
    {
      OneKept(s, s', before, v, u);
    }
  }

  lemma {:induction false} ForgottenSame(s: State, handled: set<Path>, p: Path, tree: map<Path, ServerNode>, byNodeId: map<NodeId, ServerNode>)
    ensures var s' := Forgotten(s.(handled := handled), p).(tree := tree, byNodeId := byNodeId);
            && s'.vanished == s.vanished && s'.given == s.given && s'.sent == s.sent && s'.policy == s.policy
            && s'.ledger == s.ledger - {p} && s'.byNodeId == byNodeId
  {
  }

  /** What handling a vanished path may change. */
  lemma {:induction false} VanishedSame(s: State, s': State, v: Vanished)
    requires VanishedStep(s, s', v)
    ensures s'.vanished == s.vanished && s'.given == s.given && s'.sent == s.sent && s'.policy == s.policy
    ensures var there := s.policy.pushDeletes && v.nodeId in s.byNodeId && s.byNodeId[v.nodeId].path == v.path;
            || (there && s'.ledger == s.ledger && s'.byNodeId == s.byNodeId)
            || (s'.ledger == s.ledger - {v.path} && s'.byNodeId == if there then s.byNodeId - {v.nodeId} else s.byNodeId)
  {
    hide Forgotten;
    var handled := s.handled + {v.path};
    ForgottenSame(s, handled, v.path, s'.tree, s'.byNodeId);
    IndexShrinks(s, s', v);
    if s' != s.(handled := handled) {
      assert s' == Forgotten(s.(handled := handled), v.path).(tree := s'.tree, byNodeId := s'.byNodeId);
      ForgottenSame(s, handled, v.path, s.tree, s.byNodeId);
    }
  }

  lemma {:induction false} KeptOnlyIf(s: State, s': State, before: map<Path, Known>, v: Vanished)
    requires VanishedStep(s, s', v) && s.ledger.Keys <= before.Keys
    ensures KeptOnlyFor(s', before, v)
  {
    hide VanishedStep;
    VanishedSame(s, s', v);
  }

  lemma {:induction false} OneKept(s: State, s': State, before: map<Path, Known>, v: Vanished, u: Vanished)
    requires VanishedStep(s, s', v) && KeptFor(s, before, u) && (u.path == v.path ==> u.nodeId == v.nodeId)
    ensures KeptFor(s', before, u) && (KeptOnlyFor(s, before, u) ==> KeptOnlyFor(s', before, u))
  {
    hide VanishedStep;
    VanishedSame(s, s', v);
  }

  // ----- the last of it ---------------------------------------------------------------------------

  /** The record goes on, and no entry comes to be mistaken. */
  ghost predicate Quietly(s: State, s': State) {
    Later(s, s') && s'.carried == s.carried && s'.puts == s.puts && s'.shown == s.shown
  }

  lemma {:induction false} ForgottenQuietly(s: State, handled: set<Path>, p: Path, tree: map<Path, ServerNode>, byNodeId: map<NodeId, ServerNode>)
    ensures var s' := Forgotten(s.(handled := handled), p).(tree := tree, byNodeId := byNodeId);
            Quietly(s, s') && s'.queue == s.queue && s'.vanished == s.vanished
    ensures var s' := s.(handled := handled);
            Quietly(s, s') && s'.queue == s.queue && s'.vanished == s.vanished
  {
  }

  lemma {:induction false} VanishedQuietly(s: State, s': State, v: Vanished)
    requires VanishedStep(s, s', v)
    ensures Quietly(s, s') && s'.queue == s.queue && s'.vanished == s.vanished
  {
    hide Quietly, Forgotten;
    var handled := s.handled + {v.path};
    ForgottenQuietly(s, handled, v.path, s'.tree, s'.byNodeId);
    assert s' == s.(handled := handled) || s' == Forgotten(s.(handled := handled), v.path).(tree := s'.tree, byNodeId := s'.byNodeId);
  }

  lemma {:induction false} BoundedQuietly(opens: Address -> Content, s: State, s': State)
    requires CarriedBounded(opens, s) && Quietly(s, s')
    ensures CarriedBounded(opens, s')
  {
    hide Brought;
    forall n: NodeId, a: Address | (n, a) in s'.carried && (n, a) !in s'.given.carried ensures Brought(opens, s', n, a) {
      BroughtStill(opens, s, s', n, a);
    }
  }

  /** Once the queue is empty, whatever is unsynchronised is at a path the pass has handled. */
  lemma {:induction false} UnhandledIsNobody(s: State, p: Path)
    requires Unsynced(s) && s.queue == [] && p !in s.handled && !InQuarantine(p)
    ensures Nobody(s.trail, p) && Off(s, p)
  {
  }

  ghost predicate SameSupply(s: State, s': State) {
    s'.dedup == s.dedup && s'.meta == s.meta && s'.vanished == s.vanished
  }

  lemma {:induction false} PullSpares(opens: Address -> Content, s: State, s': State, node: ServerNode)
    requires PullStep(opens, s, s', node)
    ensures s'.queue == s.queue && s'.tree == s.tree && s'.handled == s.handled && Quietly(s, s') && SameSupply(s, s')
    ensures forall p :: p != node.path && p in s.disk ==> p in s'.disk && s'.disk[p] == s.disk[p]
  {
    hide Relocated, Measured, Taken;
  }

  /** A node's file is at a path with its bytes. */
  ghost predicate Arrived(opens: Address -> Content, disk: map<Path, Content>, node: ServerNode, p: Path) {
    node.address.Some? && p in disk && disk[p] == opens(node.address.value)
  }

  ghost predicate AllArrived(opens: Address -> Content, disk: map<Path, Content>, tree: map<Path, ServerNode>, paths: set<Path>) {
    forall p :: p in paths ==> p in tree && Arrived(opens, disk, tree[p], p)
  }

  /** The files of one disk at some paths, on another. */
  ghost predicate SameAt(before: map<Path, Content>, after: map<Path, Content>, paths: set<Path>) {
    forall p :: p in paths && p in before ==> p in after && after[p] == before[p]
  }

  /** What is wanted is still to do, done or failed. */
  ghost predicate Shared(todo: set<Path>, arrived: set<Path>, failed: set<Path>, wanted: set<Path>) {
    todo + arrived + failed == wanted && todo !! arrived
  }

  lemma {:induction false} SharedIsWanted(todo: set<Path>, arrived: set<Path>, failed: set<Path>, wanted: set<Path>, p: Path)
    requires Shared(todo, arrived, failed, wanted) && p in todo
    ensures p in wanted && p !in arrived
    ensures Shared(todo - {p}, arrived + {p}, failed, wanted) && Shared(todo - {p}, arrived, failed + {p}, wanted)
  {
  }

  lemma {:induction false} NothingArrived(opens: Address -> Content, disk: map<Path, Content>, tree: map<Path, ServerNode>,
                                          handled: set<Path>, wanted: set<Path>)
    ensures SameAt(disk, disk, handled) && AllArrived(opens, disk, tree, {}) && Shared(wanted, {}, {}, wanted)
  {
  }

  lemma {:induction false} ArrivedOneMore(opens: Address -> Content, first: map<Path, Content>, before: map<Path, Content>,
                                          after: map<Path, Content>, tree: map<Path, ServerNode>, handled: set<Path>, arrived: set<Path>,
                                          p: Path, pulled: bool)
    requires SameAt(first, before, handled) && AllArrived(opens, before, tree, arrived) && p !in handled && p !in arrived && p in tree
    requires forall q :: q != p && q in before ==> q in after && after[q] == before[q]
    requires pulled ==> Arrived(opens, after, tree[p], p)
    ensures SameAt(first, after, handled) && AllArrived(opens, after, tree, if pulled then arrived + {p} else arrived)
  {
  }

  lemma {:induction false} WhatArrived(opens: Address -> Content, before: map<Path, Content>, after: map<Path, Content>,
                                       tree: map<Path, ServerNode>, handled: set<Path>, arrived: set<Path>, failed: set<Path>,
                                       wanted: set<Path>)
    requires SameAt(before, after, handled) && AllArrived(opens, after, tree, arrived) && Shared({}, arrived, failed, wanted)
    ensures forall p :: p in handled && p in before ==> p in after && after[p] == before[p]
    ensures forall p :: p in wanted && p !in failed ==> p in tree && Arrived(opens, after, tree[p], p)
  {
  }

  lemma {:induction false} ArrivedNow(opens: Address -> Content, disk: map<Path, Content>, node: ServerNode, p: Path)
    requires node.address.Some? && p in disk && disk[p] == opens(node.address.value)
    ensures Arrived(opens, disk, node, p)
  {
  }

  lemma {:induction false} InvPath(opens: Address -> Content, stamp: Stamp, s: State, p: Path)
    requires Inv(opens, stamp, s, {}) && p in s.tree
    ensures s.tree[p].path == p
  {
    hide Books, Informed, DiskSafe, QueueSafe, InUse;
  }

  /** A final pull keeps everything, where nobody's content is. */
  lemma {:induction false} LastPullKeeps(opens: Address -> Content, stamp: Stamp, s: State, s': State, p: Path)
    requires Inv(opens, stamp, s, {}) && s.queue == [] && p in s.tree && p !in s.handled && !InQuarantine(p)
    requires PullStep(opens, s, s', s.tree[p])
    ensures Inv(opens, stamp, s', {}) && Quietly(s, s') && s'.queue == [] && s'.tree == s.tree && s'.handled == s.handled
    ensures forall q :: q in s.handled && q in s.disk ==> q in s'.disk && s'.disk[q] == s.disk[q]
  {
    hide Books, DiskSafe, PullStep, Later;
    UnhandledIsNobody(s, p);
    assert Said(s, s.tree[p]);
    PullKeeps(opens, stamp, s, s', s.tree[p]);
    PullSpares(opens, s, s', s.tree[p]);
  }

  // ----- after a reset ----------------------------------------------------------------------------

  /** One file against the winning tree: bound where the tree holds these bytes at this path; otherwise
      moved into the quarantine, destination first, and the tree's own file, if any, brought down. */
  ghost predicate ResetStep(opens: Address -> Content, stamp: Stamp, s: State, s': State, x: Path, m: Meta, mid: State) {
    if x in s.tree && Get(s.dedup, m.plainHash) == s.tree[x].address then
      x in s'.ledger && Measured(s'.ledger[x], m) && Bound(s'.ledger[x], s.tree[x], m.plainHash) && s' == Recorded(s, x, s'.ledger[x])
    else
      || s' == s
      || (x in s.disk && s' == Placed(s, x, Quarantined(stamp, x)))
      || (&& x in s.disk
          && mid == Removed(Placed(s, x, Quarantined(stamp, x)), x, Quarantined(stamp, x))
          && if x in s.tree then PullStep(opens, mid, s', s.tree[x]) else s' == mid)
  }

  lemma {:induction false} QuarantineKeeps(opens: Address -> Content, stamp: Stamp, s: State, x: Path, m: Meta)
    requires Inv(opens, stamp, s, {}) && Current(s, x, m) && x in s.disk
    ensures var to := Quarantined(stamp, x);
            var placed := Placed(s, x, to);
            && Inv(opens, stamp, placed, {}) && Inv(opens, stamp, Removed(placed, x, to), {})
            && Off(Removed(placed, x, to), x) && Nobody(Removed(placed, x, to).trail, x)
  {
    hide Inv, Current, Alongside, Placed, Removed;
    var to := Quarantined(stamp, x);
    PlacedKeeps(opens, stamp, s, x, m, to, {});
    SequesteredKeeps(opens, stamp, Placed(s, x, to), x, m, to);
  }

  lemma {:induction false} DisplacedPullKeeps(opens: Address -> Content, stamp: Stamp, s: State, mid: State, s': State, x: Path)
    requires Inv(opens, stamp, s, {}) && Inv(opens, stamp, mid, {}) && x in s.tree && x in s.disk
    requires mid == Removed(Placed(s, x, Quarantined(stamp, x)), x, Quarantined(stamp, x))
    requires Off(mid, x) && Nobody(mid.trail, x) && PullStep(opens, mid, s', s.tree[x])
    ensures Inv(opens, stamp, s', {})
  {
    assert mid.tree == s.tree && x !in mid.disk;
    assert Said(mid, mid.tree[x]);
    PullKeeps(opens, stamp, mid, s', s.tree[x]);
  }

  lemma {:induction false} ResetKeeps(opens: Address -> Content, stamp: Stamp, s: State, s': State, x: Path, m: Meta, mid: State)
    requires Inv(opens, stamp, s, {}) && Current(s, x, m)
    requires ResetStep(opens, stamp, s, s', x, m, mid)
    ensures Inv(opens, stamp, s', {})
  {
    hide Inv, Current, PullStep, Placed, Removed;
    if x in s.tree && Get(s.dedup, m.plainHash) == s.tree[x].address {
      AdoptKeeps(opens, stamp, s, x, m, s'.ledger[x]);
    } else if s' != s {
      QuarantineKeeps(opens, stamp, s, x, m);
      if s' != Placed(s, x, Quarantined(stamp, x)) && x in s.tree {
        DisplacedPullKeeps(opens, stamp, s, mid, s', x);
      }
    }
  }

  lemma {:induction false} QuietlyTwice(s: State, s1: State, s2: State)
    requires Quietly(s, s1) && Quietly(s1, s2)
    ensures Quietly(s, s2)
  {
  }

  lemma {:induction false} QuietlyNothing(s: State)
    ensures Quietly(s, s)
  {
  }

  lemma {:induction false} BindingSpares(s: State, x: Path, e: Known)
    ensures Quietly(s, Recorded(s, x, e)) && Recorded(s, x, e).queue == s.queue && Recorded(s, x, e).tree == s.tree
    ensures Quietly(s, s) && SameSupply(s, Recorded(s, x, e))
  {
  }

  lemma {:induction false} QuarantineSpares(s: State, x: Path, to: Path)
    requires x in s.disk
    ensures var placed := Placed(s, x, to);
            && Quietly(s, placed) && placed.queue == s.queue && placed.tree == s.tree
            && SameSupply(s, placed) && SameSupply(s, Removed(placed, x, to)) && Quietly(s, Removed(placed, x, to))
            && Removed(placed, x, to).queue == s.queue && Removed(placed, x, to).tree == s.tree
  {
  }

  lemma {:induction false} ResetSpares(opens: Address -> Content, stamp: Stamp, s: State, s': State, x: Path, m: Meta, mid: State)
    requires ResetStep(opens, stamp, s, s', x, m, mid)
    ensures Quietly(s, s') && s'.queue == s.queue && s'.tree == s.tree && SameSupply(s, s')
  {
    hide Quietly, Placed, Removed, Recorded, PullStep;
    BindingSpares(s, x, if x in s'.ledger then s'.ledger[x] else Known(0, 0, 0, 0, None));
    if s' != s && !(x in s.tree && Get(s.dedup, m.plainHash) == s.tree[x].address) {
      QuarantineSpares(s, x, Quarantined(stamp, x));
      if s' != Placed(s, x, Quarantined(stamp, x)) && x in s.tree {
        PullSpares(opens, mid, s', s.tree[x]);
        QuietlyTwice(s, mid, s');
      }
    }
  }

  /** A file the winning tree holds at its path stays as it is, whatever becomes of the others. */
  lemma {:induction false} ResetLeaves(opens: Address -> Content, stamp: Stamp, s: State, s': State, x: Path, m: Meta, mid: State, p: Path)
    requires ResetStep(opens, stamp, s, s', x, m, mid) && p in s.disk && !InQuarantine(p)
    requires p == x ==> x in s.tree && Get(s.dedup, m.plainHash) == s.tree[x].address
    requires x in s.tree ==> s.tree[x].path == x
    ensures p in s'.disk && s'.disk[p] == s.disk[p]
  {
    hide PullStep, Relocated, GivenUp, Recorded, Measured, Bound, Free;
    QuarantinedIsThere(stamp, x);
    if x in s.tree && Get(s.dedup, m.plainHash) == s.tree[x].address {
      RecordedDisk(s, x, s'.ledger[x]);
    }
    if s' != s && !(x in s.tree && Get(s.dedup, m.plainHash) == s.tree[x].address) && s' != Placed(s, x, Quarantined(stamp, x)) {
      assert p in mid.disk && mid.disk[p] == s.disk[p];
      if x in s.tree {
        PullLeaves(opens, mid, s', s.tree[x], p);
      }
    }
  }

  lemma {:induction false} RecordedDisk(s: State, x: Path, e: Known)
    ensures Recorded(s, x, e).disk == s.disk
  {
  }

  lemma {:induction false} PullLeaves(opens: Address -> Content, s: State, s': State, node: ServerNode, p: Path)
    requires PullStep(opens, s, s', node) && p != node.path && p in s.disk
    ensures p in s'.disk && s'.disk[p] == s.disk[p]
  {
  }

  /** What the winning tree holds of what was measured, file by file. */
  ghost predicate HeldByTree(tree: map<Path, ServerNode>, dedup: map<Content, Address>, meta: map<Path, Meta>, p: Path) {
    p in meta && p in tree && Get(dedup, meta[p].plainHash) == tree[p].address && !InQuarantine(p)
  }

  lemma {:induction false} WholeResetLeaves(opens: Address -> Content, stamp: Stamp, s: State, s': State, r: Option<Meta>, mid: State, p: Path)
    requires TreeOk(s.tree, s.byNodeId) && s.queue != [] && p in s.disk && HeldByTree(s.tree, s.dedup, s.meta, p)
    requires r.None? ==> s' == Popped(s)
    requires r.Some? ==> MeasuredAt(Popped(s), s.queue[0].path, r.value)
                         && ResetStep(opens, stamp, Popped(s), s', s.queue[0].path, r.value, mid)
    ensures p in s'.disk && s'.disk[p] == s.disk[p]
  {
    hide ResetStep;
    if r.Some? {
      ResetLeaves(opens, stamp, Popped(s), s', s.queue[0].path, r.value, mid, p);
    }
  }

  lemma {:induction false} WholeResetSame(opens: Address -> Content, stamp: Stamp, s: State, s': State, r: Option<Meta>, mid: State)
    requires s.queue != [] && (r.None? ==> s' == Popped(s))
    requires r.Some? ==> ResetStep(opens, stamp, Popped(s), s', s.queue[0].path, r.value, mid)
    ensures s'.dedup == s.dedup && s'.meta == s.meta && s'.tree == s.tree && s'.given == s.given && s'.vanished == s.vanished
  {
    if r.Some? {
      ResetSpares(opens, stamp, Popped(s), s', s.queue[0].path, r.value, mid);
    }
  }

  lemma {:induction false} WholeResetTurn(opens: Address -> Content, stamp: Stamp, s: State, s': State, r: Option<Meta>, mid: State)
    requires Inv(opens, stamp, s, {}) && s.queue != []
    requires r.None? ==> s' == Popped(s)
    requires r.Some? ==> MeasuredAt(Popped(s), s.queue[0].path, r.value)
                         && ResetStep(opens, stamp, Popped(s), s', s.queue[0].path, r.value, mid)
    ensures Inv(opens, stamp, s', {}) && Quietly(s, s') && s'.queue == s.queue[1..]
  {
    hide Inv, Current, Unrecorded, ResetStep;
    PopKeeps(opens, stamp, s, if r.Some? then r.value else Meta(0, 0, 0));
    if r.Some? {
      ResetKeeps(opens, stamp, Popped(s), s', s.queue[0].path, r.value, mid);
      ResetSpares(opens, stamp, Popped(s), s', s.queue[0].path, r.value, mid);
    }
  }

  // ----- a whole pass ---------------------------------------------------------------------------------

  ghost predicate StartStands(s: State) {
    forall q :: q in s.given.start ==> q in s.given.disk && s.given.disk[q] == s.given.start[q]
  }

  ghost predicate Accounted(stamp: Stamp, s: State, i: nat, q: Path)
    requires i < |s.past|
  {
    OnItsWay(stamp, s, i, q) || GaveUp(s.past, i, q)
  }

  ghost predicate AllAccounted(stamp: Stamp, s: State) {
    forall i, q :: 0 <= i < |s.past| && q in s.given.start ==> Accounted(stamp, s, i, q)
  }

  lemma {:induction false} AccountOf(opens: Address -> Content, stamp: Stamp, s: State)
    requires Chronicle(opens, stamp, s) && StartStands(s)
    ensures AllAccounted(stamp, s)
  {
    hide Chronicle, OnItsWay, GaveUp;
    forall i, q | 0 <= i < |s.past| && q in s.given.start ensures Accounted(stamp, s, i, q) {
      NothingIsLost(opens, stamp, s, i, q);
    }
  }

  /** Every entry is of a node the pass knew at that path, and at an address the ledger has held for it; and
      those the ledger came to hold in the pass the server showed or accepted for the node. */
  ghost predicate LedgerIsTraced(s: State) {
    && s.held <= s.given.held + s.shown
    && forall p :: p in s.ledger ==> Knows(s, s.ledger[p].nodeId, p) && (s.ledger[p].nodeId, s.ledger[p].address) in s.held
  }

  /** What holds of a pass however far it got. */
  ghost predicate Finished(opens: Address -> Content, stamp: Stamp, s: State, s': State) {
    && Books(opens, s', {}) && Chronicle(opens, stamp, s') && ToldIsBounded(s') && LedgerIsTraced(s') && CarriedBounded(opens, s') && Later(s, s')
  }

  lemma {:induction false} FinishedQuietly(opens: Address -> Content, stamp: Stamp, s: State, s1: State, s': State)
    requires Later(s, s1) && CarriedBounded(opens, s1) && Quietly(s1, s') && Inv(opens, stamp, s', {})
    ensures Finished(opens, stamp, s, s')
  {
    hide VanishedOk, PutsOk, TreeOk, QueueSafe, CarriedBounded, Recounted, AllWarranted, Honest;
    BoundedQuietly(opens, s1, s');
  }

  /** A pass that was told what it began with and has done nothing is one that got no further. */
  lemma {:induction false} NothingYet(opens: Address -> Content, stamp: Stamp, s: State)
    requires Books(opens, s, {}) && DiskSafe(opens, stamp, s) && CarriedBounded(opens, s) && Informed(s)
    ensures Finished(opens, stamp, s, s)
  {
    hide VanishedOk, PutsOk, CarriedBounded, Recounted, AllWarranted, Honest;
  }

  lemma {:induction false} WalkingIsInv(opens: Address -> Content, stamp: Stamp, s: State)
    requires Walking(opens, stamp, s)
    ensures Inv(opens, stamp, s, {}) && CarriedBounded(opens, s)
  {
    hide Inv, CarriedBounded;
  }

  lemma {:induction false} WalkingIsCollected(opens: Address -> Content, stamp: Stamp, s: State)
    requires Walking(opens, stamp, s)
    ensures Collected(s)
  {
    hide Inv, CarriedBounded, Collected;
  }

  /** With the queue empty every file listed has been handled. */
  lemma {:induction false} ListedAreHandled(opens: Address -> Content, stamp: Stamp, s: State)
    requires Inv(opens, stamp, s, {}) && s.queue == []
    ensures s.given.listed <= s.handled
  {
    hide Books, Informed, DiskSafe, QueueSafe, TreeOk;
  }

  lemma {:induction false} InvTree(opens: Address -> Content, stamp: Stamp, s: State)
    requires Inv(opens, stamp, s, {})
    ensures TreeOk(s.tree, s.byNodeId) && Informed(s) && DedupOk(opens, s.dedup)
  {
    hide TreeOk, Informed;
  }

  lemma {:induction false} PoppedIsReady(opens: Address -> Content, stamp: Stamp, s: State)
    requires Walking(opens, stamp, s) && s.queue != []
    ensures TreeOk(s.tree, s.byNodeId) && Informed(Popped(s)) && DedupOk(opens, s.dedup)
  {
    hide TreeOk, Informed;
    PopKeeps(opens, stamp, s, Meta(0, 0, 0));
  }

  /** Every destination was free, no node was at two paths of the ledger, and none this device has a file for
      had been moved on the server with other bytes than the file has. */
  ghost predicate Smooth(opens: Address -> Content, s: State) {
    && s.taken == {} && OneEach(s.given.ledger)
    && forall p, q :: p in s.given.ledger && q in s.given.walked && p != q && p in s.given.disk
                      && s.given.ledger[p].nodeId == s.given.walked[q].nodeId && s.given.walked[q].address.Some? ==>
                        opens(s.given.walked[q].address.value) == s.given.disk[p]
  }

  /** After a smooth pass no entry names another plaintext that did not before. */
  lemma {:induction false} SmoothCarriesNothing(opens: Address -> Content, s: State)
    requires CarriedBounded(opens, s)
    ensures Smooth(opens, s) ==> s.carried <= s.given.carried
  {
    if Smooth(opens, s) {
      forall pair | pair in s.carried ensures pair in s.given.carried {
        SmoothBringsNothing(opens, s, pair.0, pair.1);
        assert (pair.0, pair.1) in s.carried;
      }
    }
  }

  lemma {:induction false} SmoothBringsNothing(opens: Address -> Content, s: State, n: NodeId, a: Address)
    requires Smooth(opens, s)
    ensures !Brought(opens, s, n, a)
  {
    if p, q :| ApartAt(opens, s.given, n, a, p, q) {
      assert false;
    }
  }

  // ----- what a destination that is not free costs ----------------------------------------------------

  /** A content goes from the disk when a file is written to its copy, into the quarantine or to where its
      node is, exactly when it stood there and nowhere else, and is not the file's own. */
  lemma {:induction false} WhatAnOccupiedDestinationLoses(s: State, x: Path, to: Path, c: Content)
    requires x in s.disk && c in s.disk.Values && x != to
    ensures c !in Placed(s, x, to).disk.Values <==>
            to in s.disk && s.disk[to] == c && c != s.disk[x] && forall p :: p in s.disk && s.disk[p] == c ==> p == to
    ensures Renamed(s, x, to).disk.Values == Placed(s, x, to).disk.Values
  {
    hide Placed, Renamed;
    WrittenDisk(s, x, to);
    PlacedHolds(s.disk, x, to, c);
    forall d ensures d in Renamed(s, x, to).disk.Values <==> d in Placed(s, x, to).disk.Values {
      RenamedHolds(s.disk, x, to, d);
    }
  }

  lemma {:induction false} WrittenDisk(s: State, x: Path, to: Path)
    requires x in s.disk
    ensures Placed(s, x, to).disk == s.disk[to := s.disk[x]]
    ensures Renamed(s, x, to).disk == (s.disk - {x})[to := s.disk[x]]
  {
  }

  lemma {:induction false} PlacedHolds(disk: map<Path, Content>, x: Path, to: Path, c: Content)
    requires x in disk && c in disk.Values
    ensures c !in disk[to := disk[x]].Values <==>
            to in disk && disk[to] == c && c != disk[x] && forall p :: p in disk && disk[p] == c ==> p == to
  {
    var disk' := disk[to := disk[x]];
    assert disk'[to] == disk[x];
    if p :| p in disk && disk[p] == c && p != to {
      assert disk'[p] == c;
    }
  }

  lemma {:induction false} RenamedHolds(disk: map<Path, Content>, x: Path, to: Path, c: Content)
    requires x in disk && x != to
    ensures c in (disk - {x})[to := disk[x]].Values <==> c in disk[to := disk[x]].Values
  {
    var placed, renamed := disk[to := disk[x]], (disk - {x})[to := disk[x]];
    if p :| p in placed && placed[p] == c {
      assert renamed[if p == x then to else p] == c;
    }
    if p :| p in renamed && renamed[p] == c {
      assert placed[p] == c;
    }
  }
}
