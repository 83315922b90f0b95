/** Where the turns of a walk lead: nearer its end, and never back. */
module SyncProgress {
  import opened Options
  import opened Reconcile
  import opened SyncState
  import opened SyncRecord
  import opened SyncSteps
  import opened SyncWalk

  // ----- every turn brings the end of the walk nearer -------------------------------------------------

  /** The queue is a file shorter; or as long as before with fewer ledger entries off the tree; or as long
      as before with less of the tree left for its copies to collide with. */
  ghost predicate Nearer(s: State, s': State) {
    var off, off' := |OffTree(s.ledger, s.tree)|, |OffTree(s'.ledger, s'.tree)|;
    || |s'.queue| < |s.queue|
    || (|s'.queue| == |s.queue| && off' < off)
    || (|s'.queue| == |s.queue| && off' == off && Potential(s'.tree, s'.queue) < Potential(s.tree, s.queue))
  }

  /** One file joined the queue, named longer than `x`, whose entry is now in the ledger. */
  ghost predicate QueuedBeside(s: State, s': State, x: Path) {
    && s'.queue != [] && s'.queue == s.queue + [s'.queue[|s'.queue| - 1]] && |s'.queue[|s'.queue| - 1].path| > |x|
    && s'.tree == s.tree && s'.ledger.Keys == s.ledger.Keys + {x}
  }

  /** An entry off the tree gone from there, and one file queued. */
  ghost predicate FollowedAndQueued(s: State, s': State, x: Path) {
    && |s'.queue| == |s.queue| + 1 && s'.tree == s.tree
    && OffTree(s'.ledger, s'.tree) == OffTree(s.ledger, s.tree) - {x}
  }

  lemma {:induction false} BothWritesQueue(opens: Address -> Content, s: State, x: Path, node: NodeId, address: Address, item: Item, e: Known)
    requires x in s.disk && |item.path| > |x|
    ensures QueuedBeside(s, Recorded(SetAside(opens, Placed(s, x, item.path), x, node, address, item), x, e), x)
  {
  }

  lemma {:induction false} PlacedQueues(s: State, x: Path, to: Path)
    requires x in s.disk
    ensures Placed(s, x, to).queue == s.queue && Placed(s, x, to).ledger == s.ledger && Placed(s, x, to).tree == s.tree
  {
  }

  lemma {:induction false} ConflictQueues(opens: Address -> Content, stamp: Stamp, s: State, s': State, x: Path, onServer: ServerNode)
    requires ConflictStep(opens, stamp, s, s', x, onServer)
    ensures s'.queue == s.queue || QueuedBeside(s, s', x)
  {
    if s' == s || MatchStep(opens, s, s', x, onServer) {
    } else if KeepBothStep(opens, stamp, s, s', x, onServer) {
      BothWritesQueue(opens, s, x, onServer.nodeId, onServer.address.value, s'.queue[|s'.queue| - 1], s'.ledger[x]);
    } else {
      PlacedQueues(s, x, CopyOf(stamp, x));
    }
  }

  lemma {:induction false} PushEditQueues(opens: Address -> Content, stamp: Stamp, s: State, s': State, x: Path, m: Meta,
                                          base: Base, nodeId: NodeId, current: ServerNode)
    requires PushEditStep(opens, stamp, s, s', x, m, base, nodeId, current)
    ensures s'.queue == s.queue || QueuedBeside(s, s', x)
  {
    if s' != s && MismatchStep(opens, stamp, s, s', x, nodeId, current) {
      ConflictQueues(opens, stamp, Answered(s, s'.shown), s', x, current);
    }
  }

  lemma {:induction false} ArriveQueues(caseOnly: bool, s: State, s': State, x: Path, m: Meta, known: Known, movedTo: ServerNode)
    requires ArriveStep(caseOnly, s, s', x, m, known, movedTo)
    ensures s'.queue == s.queue && s'.tree == s.tree && s'.ledger.Keys == s.ledger.Keys - {x} + {movedTo.path}
  {
  }

  lemma {:induction false} RenameQueues(opens: Address -> Content, stamp: Stamp, caseOnly: bool, s: State, s': State,
                                        x: Path, m: Meta, known: Known, movedTo: ServerNode, mid: State, current: ServerNode)
    requires RenameStep(opens, stamp, caseOnly, s, s', x, m, known, movedTo, mid, current)
    requires x !in s.tree && movedTo.path in s.tree
    ensures s'.queue == s.queue || FollowedAndQueued(s, s', x)
  {
    if FollowStep(opens, stamp, caseOnly, s, s', x, m, known, movedTo, mid, current) {
      ArriveQueues(caseOnly, s, mid, x, m, known, movedTo);
      if known.plainHash != m.plainHash {
        PushEditQueues(opens, stamp, mid, s', movedTo.path, m, BaseOf(s.policy.preferLocal, known, movedTo), movedTo.nodeId, current);
      }
    } else if s' != s {
      PlacedQueues(s, x, movedTo.path);
    }
  }

  lemma {:induction false} QuietQueues(opens: Address -> Content, stamp: Stamp, d: Decision, s: State, s': State, x: Path, m: Meta)
    requires !Sends(d) && QuietStep(opens, stamp, d, s, s', x, m)
    ensures s'.queue == s.queue || (d.Conflict? && QueuedBeside(s, s', x))
  {
    if d.Conflict? {
      ConflictQueues(opens, stamp, s, s', x, d.onServer);
    }
  }

  lemma {:induction false} SendingANodeQueuesNothing(opens: Address -> Content, s: State, s': State, x: Path, m: Meta, source: Vanished)
    requires PushMoveStep(s, s', x, m, source) || PushNewStep(opens, s, s', x, m)
    ensures s'.queue == s.queue
  {
  }

  /** A turn queues nothing; or a copy of its own path, which is on the tree; or, its entry off the tree
      having followed its node onto it, a copy of that path. */
  lemma {:induction false} WhatATurnQueues(opens: Address -> Content, stamp: Stamp, caseOnly: (Path, Path) -> bool,
                                           d: Decision, s: State, s': State, x: Path, m: Meta, mid: State, current: ServerNode)
    requires Fits(s, x, m, d) && Turn(opens, stamp, caseOnly, d, s, s', x, m, mid, current)
    ensures || s'.queue == s.queue
            || (x in s.tree && QueuedBeside(s, s', x))
            || (x in OffTree(s.ledger, s.tree) && FollowedAndQueued(s, s', x))
  {
    match d
    case PushEdit(known, onServer) =>
      PushEditQueues(opens, stamp, s, s', x, m, BaseOf(s.policy.preferLocal, known, onServer), onServer.nodeId, current);
    case RemoteRename(known, movedTo) =>
      RenameQueues(opens, stamp, caseOnly(x, movedTo.path), s, s', x, m, known, movedTo, mid, current);
    case PushMove(source) =>
      SendingANodeQueuesNothing(opens, s, s', x, m, source);
    case PushNew =>
      SendingANodeQueuesNothing(opens, s, s', x, m, Vanished(x, 0, 0, 0));
    case _ =>
      QuietQueues(opens, stamp, d, s, s', x, m);
  }

  lemma {:induction false} FollowedIsNearer(s: State, s': State, x: Path)
    requires s.queue != [] && x in OffTree(s.ledger, s.tree) && FollowedAndQueued(Popped(s), s', x)
    ensures Nearer(s, s')
  {
  }

  lemma {:induction false} BesideIsNearer(s: State, s': State)
    requires s.queue != [] && s.queue[0].path in s.tree && QueuedBeside(Popped(s), s', s.queue[0].path)
    ensures Nearer(s, s')
  {
    CopyIsNearer(s.tree, s.queue, s'.queue[|s'.queue| - 1]);
    assert OffTree(s'.ledger, s'.tree) == OffTree(s.ledger, s.tree);
  }

  /** Against any answers whatever, a turn brings the end of the walk nearer. */
  lemma {:induction false} TurnIsNearer(opens: Address -> Content, stamp: Stamp, caseOnly: (Path, Path) -> bool,
                                        d: Decision, s: State, s': State, m: Meta, mid: State, current: ServerNode)
    requires s.queue != []
    requires var x := s.queue[0].path;
             Fits(Popped(s), x, m, d) && Turn(opens, stamp, caseOnly, d, Popped(s), s', x, m, mid, current)
    ensures Nearer(s, s')
  {
    var x := s.queue[0].path;
    WhatATurnQueues(opens, stamp, caseOnly, d, Popped(s), s', x, m, mid, current);
    if x in s.tree && QueuedBeside(Popped(s), s', x) {
      BesideIsNearer(s, s');
    } else if x in OffTree(s.ledger, s.tree) && FollowedAndQueued(Popped(s), s', x) {
      FollowedIsNearer(s, s', x);
    }
  }

  lemma {:induction false} CopyIsNearer(tree: map<Path, ServerNode>, queue: seq<Item>, copy: Item)
    requires queue != [] && queue[0].path in tree && |copy.path| > |queue[0].path|
    ensures Potential(tree, queue[1..] + [copy]) < Potential(tree, queue)
  {
    PotentialOfHead(tree, queue);
    CopyHasLessAhead(tree, queue[0].path, copy.path);
    assert (queue[1..] + [copy])[..|queue| - 1] == queue[1..];
  }

  // ----- and takes nothing back -------------------------------------------------------------------------

  /** What a pass is judged by is never rewritten. */
  ghost predicate Later(s: State, s': State) {
    && s'.given == s.given && s'.policy == s.policy && s.past <= s'.past && s.puts <= s'.puts
    && s.taken <= s'.taken && s.carried <= s'.carried && s.told <= s'.told && s.sent.Keys <= s'.sent.Keys
    && s.seen <= s'.seen
  }

  lemma {:induction false} LaterTwice(s: State, s1: State, s2: State)
    requires s == s1 || Later(s, s1)
    requires s1 == s2 || Later(s1, s2)
    ensures Later(s, s2)
  {
  }

  /** The pass has moved the node from an entry whose file was not there. */
  ghost predicate Rehoused(s: State, n: NodeId, v: Path) {
    Sent(v) in s.sent && v in s.given.ledger && s.given.ledger[v].nodeId == n
  }

  /** In the walk, nodes stay in the index, as they were unless they are sent to another path, and nothing but what
      the pass makes joins them; and short of
      something landing there that was not free, a path queued and in the ledger has been both from the beginning. */
  ghost predicate Onward(s: State, s': State) {
    Later(s, s') && s'.meta == s.meta && s'.carried == s.carried && IndexGrows(s, s') && QueueKeeps(s, s')
  }

  ghost predicate IndexGrows(s: State, s': State) {
    && s.byNodeId.Keys <= s'.byNodeId.Keys
    && (forall n: NodeId, p: Path :: (n, p) in s'.told && (n, p) !in s.told ==> n in s'.byNodeId)
    && (forall n :: n in s'.byNodeId ==>
          (n in s.byNodeId && s'.byNodeId[n].address == s.byNodeId[n].address) || Made(n) in s'.sent)
  }

  ghost predicate QueueKeeps(s: State, s': State) {
    && VanishedShrinks(s, s')
    && (forall p :: p in Queued(s'.queue) && p in s'.ledger && p !in s'.taken ==> Undisturbed(s, s', p))
  }

  /** What vanished leaves its lists by being claimed, and is sent nowhere while it is in them. */
  ghost predicate VanishedShrinks(s: State, s': State) {
    && (forall c, v :: c in s'.vanished && v in s'.vanished[c] ==> c in s.vanished && v in s.vanished[c])
    && (forall c, v {:trigger v in s'.vanished[c]} :: c in s'.vanished && v in s'.vanished[c] && Sent(v.path) in s'.sent ==>
          Sent(v.path) in s.sent)
  }

  ghost predicate Undisturbed(s: State, s': State, p: Path)
    requires p in s'.ledger
  {
    && p in Queued(s.queue) && p in s.ledger && s'.ledger[p] == s.ledger[p]
    && var n := s.ledger[p].nodeId;
       n in s'.byNodeId ==> (n in s.byNodeId && s'.byNodeId[n] == s.byNodeId[n]) || exists v :: Rehoused(s', n, v)
  }

  lemma {:induction false} OnwardTwice(s: State, s1: State, s2: State)
    requires Onward(s, s1) && Onward(s1, s2)
    ensures Onward(s, s2)
  {
    forall p | p in Queued(s2.queue) && p in s2.ledger && p !in s2.taken ensures Undisturbed(s, s2, p) {
      assert Undisturbed(s1, s2, p);
      assert Undisturbed(s, s1, p);
      assert forall v :: Rehoused(s1, s.ledger[p].nodeId, v) ==> Rehoused(s2, s.ledger[p].nodeId, v);
    }
  }

  /** Only the disk, its record and what has been handled or answered has changed. */
  ghost predicate SameEntries(s: State, s': State) {
    && s'.ledger == s.ledger && s'.byNodeId == s.byNodeId && s'.told == s.told && s'.vanished == s.vanished && s'.queue == s.queue && s'.sent == s.sent
    && s'.meta == s.meta && s'.carried == s.carried
  }

  lemma {:induction false} SameEntriesOnward(s: State, s': State)
    requires SameEntries(s, s') && Later(s, s')
    ensures Onward(s, s')
  {
  }

  lemma {:induction false} PopIsOnward(s: State)
    requires s.queue != []
    ensures Onward(s, Popped(s))
  {
  }

  lemma {:induction false} BothWritesOnward(opens: Address -> Content, s: State, x: Path, node: NodeId, address: Address, item: Item, e: Known)
    requires x in s.disk && Off(s, x) && item.path != x
    ensures Onward(s, Recorded(SetAside(opens, Placed(s, x, item.path), x, node, address, item), x, e))
  {
    QueuedOneMore(s.queue, item);
  }

  lemma {:induction false} PlacedIsOnward(s: State, x: Path, to: Path)
    requires x in s.disk
    ensures Onward(s, Placed(s, x, to))
  {
  }

  lemma {:induction false} RecordedIsOnward(s: State, x: Path, e: Known)
    requires x in Queued(s.queue) ==> x in s.taken
    ensures Onward(s, Recorded(s, x, e))
  {
  }

  lemma {:induction false} ConflictIsOnward(opens: Address -> Content, stamp: Stamp, s: State, s': State, x: Path, onServer: ServerNode)
    requires Off(s, x) && ConflictStep(opens, stamp, s, s', x, onServer)
    ensures Onward(s, s')
  {
    if s' == s {
      SameEntriesOnward(s, s);
    } else if MatchStep(opens, s, s', x, onServer) {
      RecordedIsOnward(s, x, s'.ledger[x]);
    } else if KeepBothStep(opens, stamp, s, s', x, onServer) {
      BothWritesOnward(opens, s, x, onServer.nodeId, onServer.address.value, s'.queue[|s'.queue| - 1], s'.ledger[x]);
    } else {
      PlacedIsOnward(s, x, CopyOf(stamp, x));
    }
  }

  lemma {:induction false} LandedIsOnward(opens: Address -> Content, s: State, s': State, x: Path, m: Meta, base: Base, nodeId: NodeId)
    requires Off(s, x) && LandedStep(opens, s, s', x, m, base, nodeId)
    ensures Onward(s, s')
  {
    var s1 := WithPut(s, s'.puts[|s'.puts| - 1]);
    SameEntriesOnward(s, s1);
    RecordedIsOnward(s1, x, s'.ledger[x]);
    OnwardTwice(s, s1, s');
  }

  lemma {:induction false} PushEditIsOnward(opens: Address -> Content, stamp: Stamp, s: State, s': State, x: Path, m: Meta,
                                            base: Base, nodeId: NodeId, current: ServerNode)
    requires Off(s, x) && PushEditStep(opens, stamp, s, s', x, m, base, nodeId, current)
    ensures Onward(s, s')
  {
    if s' == s {
      SameEntriesOnward(s, s);
    } else if MismatchStep(opens, stamp, s, s', x, nodeId, current) {
      var s1 := Answered(s, s'.shown);
      SameEntriesOnward(s, s1);
      ConflictIsOnward(opens, stamp, s1, s', x, current);
      OnwardTwice(s, s1, s');
    } else {
      LandedIsOnward(opens, s, s', x, m, base, nodeId);
    }
  }

  lemma {:induction false} ArriveIsOnward(caseOnly: bool, s: State, s': State, x: Path, m: Meta, known: Known, movedTo: ServerNode)
    requires ArriveStep(caseOnly, s, s', x, m, known, movedTo) && x != movedTo.path
    ensures Onward(s, s')
  {
    hide Onward, Placed, Renamed, Removed, Recorded, Forgotten;
    var to := movedTo.path;
    var there := if caseOnly then RenamedInPlace(s, x, to) else Departed(Placed(s, x, to), x, to);
    GoneThere(caseOnly, s, x, to);
    SameEntriesOnward(s, there);
    ForgottenIsOnward(there, x);
    ForgottenQueue(there, x);
    RecordedIsOnward(Forgotten(there, x), to, s'.ledger[to]);
    OnwardTwice(s, there, Forgotten(there, x));
    OnwardTwice(s, Forgotten(there, x), s');
  }

  lemma {:induction false} ForgottenQueue(s: State, x: Path)
    ensures Forgotten(s, x).queue == s.queue && Forgotten(s, x).taken == s.taken
  {
  }

  /** A file at its new place changes no entry, and what was queued there had something land on it. */
  lemma {:induction false} GoneThere(caseOnly: bool, s: State, x: Path, to: Path)
    requires x in s.disk && x != to
    ensures var there := if caseOnly then RenamedInPlace(s, x, to) else Departed(Placed(s, x, to), x, to);
            SameEntries(s, there) && Later(s, there) && (to in Queued(there.queue) ==> to in there.taken)
  {
    hide Relocated, GivenUp;
  }

  lemma {:induction false} FollowIsOnward(opens: Address -> Content, stamp: Stamp, caseOnly: bool, s: State, s': State,
                                          x: Path, m: Meta, known: Known, movedTo: ServerNode, mid: State, current: ServerNode)
    requires FollowStep(opens, stamp, caseOnly, s, s', x, m, known, movedTo, mid, current) && x != movedTo.path
    requires Current(mid, movedTo.path, m)
    ensures Onward(s, s')
  {
    hide Onward, ArriveStep;
    ArriveIsOnward(caseOnly, s, mid, x, m, known, movedTo);
    if known.plainHash != m.plainHash {
      PushEditIsOnward(opens, stamp, mid, s', movedTo.path, m, BaseOf(s.policy.preferLocal, known, movedTo), movedTo.nodeId, current);
      OnwardTwice(s, mid, s');
    }
  }

  lemma {:induction false} RenameIsOnward(opens: Address -> Content, stamp: Stamp, caseOnly: bool, s: State, s': State,
                                          x: Path, m: Meta, known: Known, movedTo: ServerNode, mid: State, current: ServerNode)
    requires Inv(opens, stamp, s, {}) && Current(s, x, m) && x != movedTo.path
    requires x in s.ledger && s.ledger[x] == known && movedTo.nodeId == known.nodeId && Said(s, movedTo)
    requires LeadsTo(stamp, s, s.taken, x, movedTo.path) && RenameStep(opens, stamp, caseOnly, s, s', x, m, known, movedTo, mid, current)
    ensures Onward(s, s')
  {
    hide Onward, Inv, Current, ArriveStep, PushEditStep, LeadsTo;
    if FollowStep(opens, stamp, caseOnly, s, s', x, m, known, movedTo, mid, current) {
      ArriveKeeps(opens, stamp, caseOnly, s, mid, x, m, known, movedTo);
      FollowIsOnward(opens, stamp, caseOnly, s, s', x, m, known, movedTo, mid, current);
    } else if s' != s {
      PlacedIsOnward(s, x, movedTo.path);
    } else {
      SameEntriesOnward(s, s);
    }
  }

  lemma {:induction false} PullIsOnward(opens: Address -> Content, s: State, s': State, node: ServerNode)
    requires Off(s, node.path) && PullStep(opens, s, s', node)
    ensures Onward(s, s')
  {
    if s' == s {
      SameEntriesOnward(s, s);
    } else {
      ReplacedIsOnward(opens, s, node.path, node.nodeId, node.address.value, node.path);
      var s1 := Replaced(opens, s, node.path, node.nodeId, node.address.value, node.path);
      assert Off(s1, node.path) by {
        OffStill(s, node.path);
      }
      RecordedIsOnward(s1, node.path, s'.ledger[node.path]);
      OnwardTwice(s, s1, s');
    }
  }

  lemma {:induction false} OffStill(s: State, p: Path)
    requires Off(s, p)
    ensures p in Queued(s.queue) ==> Relocated(s.trail, p, p) == s.trail
  {
    if p in Queued(s.queue) {
      NobodyStays(s.trail, p);
    }
  }

  lemma {:induction false} ReplacedIsOnward(opens: Address -> Content, s: State, path: Path, node: NodeId, address: Address, to: Path)
    ensures Onward(s, Replaced(opens, s, path, node, address, to))
  {
    SameEntriesOnward(s, Replaced(opens, s, path, node, address, to));
  }

  lemma {:induction false} DeletedIsOnward(s: State, path: Path, node: NodeId)
    ensures Onward(s, Forgotten(Deleted(s, path, node), path))
  {
    SameEntriesOnward(s, Deleted(s, path, node));
    ForgottenIsOnward(Deleted(s, path, node), path);
    OnwardTwice(s, Deleted(s, path, node), Forgotten(Deleted(s, path, node), path));
  }

  lemma {:induction false} ForgottenIsOnward(s: State, path: Path)
    ensures Onward(s, Forgotten(s, path))
  {
  }

  lemma {:induction false} MovedIsOnward(s: State, s': State, x: Path, m: Meta, source: Vanished)
    requires Off(s, x) && MovedStep(Claimed(s, m.plainHash, {}), s', x, m, source)
    requires m.plainHash in s.vanished && source in s.vanished[m.plainHash] && Collected(s)
    ensures Onward(s, s')
  {
    assert Rehoused(s', source.nodeId, source.path);
  }

  lemma {:induction false} PushMoveIsOnward(s: State, s': State, x: Path, m: Meta, source: Vanished)
    requires Off(s, x) && PushMoveStep(s, s', x, m, source) && m.plainHash in s.vanished && source in s.vanished[m.plainHash] && Collected(s)
    ensures Onward(s, s')
  {
    if s' != Claimed(s, m.plainHash, {}) && s' != Claimed(s, m.plainHash, {source.path}) {
      MovedIsOnward(s, s', x, m, source);
    }
  }

  /** No entry is of a node the server has just made. */
  lemma {:induction false} NewIsNobodys(s: State, n: NodeId)
    requires Informed(s) && AllIndexed(s) && n !in s.byNodeId && n !in s.ids
    ensures forall p :: p in s.ledger ==> s.ledger[p].nodeId != n
  {
    hide ToldIsBounded;
    assert forall p :: p in s.ledger ==> Knows(s, s.ledger[p].nodeId, p);
  }

  lemma {:induction false} PlantedIsOnward(s: State, node: ServerNode)
    requires Off(s, node.path) && forall p :: p in s.ledger && p != node.path ==> s.ledger[p].nodeId != node.nodeId
    ensures Onward(s, Planted(s, node))
  {
  }

  lemma {:induction false} PushNewIsOnward(opens: Address -> Content, s: State, s': State, x: Path, m: Meta)
    requires Off(s, x) && Informed(s) && AllIndexed(s) && PushNewStep(opens, s, s', x, m)
    ensures Onward(s, s')
  {
    hide Onward, Informed, AllIndexed, Planted, Measured;
    SameEntriesOnward(s, s);
    if s' != s {
      var e := s'.ledger[x];
      var s1 := Taking(s, e.nodeId, e.address);
      var s2 := Recorded(s1, x, e);
      NewIsNobodys(s, e.nodeId);
      SameEntriesOnward(s, s1);
      RecordedIsOnward(s1, x, e);
      PlantedIsOnward(s2, ServerNode(e.nodeId, x, e.rev, Some(e.address), true));
      OnwardTwice(s, s1, s2);
      OnwardTwice(s, s2, s');
    }
  }

  lemma {:induction false} QuietIsOnward(opens: Address -> Content, stamp: Stamp, d: Decision, s: State, s': State, x: Path, m: Meta)
    requires Off(s, x) && Fits(s, x, m, d) && TreeOk(s.tree, s.byNodeId) && !Sends(d) && QuietStep(opens, stamp, d, s, s', x, m)
    ensures Onward(s, s')
  {
    hide Onward, ConflictStep, PullStep;
    match d
    case Nothing => SameEntriesOnward(s, s);
    case RefreshHint => RecordedIsOnward(s, x, s'.ledger[x]);
    case Pull(node) => PullIsOnward(opens, s, s', node);
    case Adopt(_) => RecordedIsOnward(s, x, s'.ledger[x]);
    case Conflict(onServer) => ConflictIsOnward(opens, stamp, s, s', x, onServer);
    case RemoveLocal =>
      SameEntriesOnward(s, s);
      DeletedIsOnward(s, x, s.ledger[x].nodeId);
  }

  lemma {:induction false} RenameFits(opens: Address -> Content, stamp: Stamp, s: State, x: Path, m: Meta, known: Known, movedTo: ServerNode)
    requires Inv(opens, stamp, s, {}) && Familiar(s, x) && Fits(s, x, m, RemoteRename(known, movedTo))
    ensures x in s.ledger && s.ledger[x] == known && movedTo.nodeId == known.nodeId && x != movedTo.path && Said(s, movedTo)
    ensures LeadsTo(stamp, s, s.taken, x, movedTo.path)
  {
    hide Books, TreeOk, InUse, DiskSafe, QueueSafe, LeadsTo, Familiar, ToldIsBounded;
    EntryLeads(stamp, s, x, movedTo.path);
  }

  lemma {:induction false} RenameTurnIsOnward(opens: Address -> Content, stamp: Stamp, caseOnly: bool, s: State, s': State,
                                              x: Path, m: Meta, known: Known, movedTo: ServerNode, mid: State, current: ServerNode)
    requires Inv(opens, stamp, s, {}) && Current(s, x, m) && Familiar(s, x) && Fits(s, x, m, RemoteRename(known, movedTo))
    requires RenameStep(opens, stamp, caseOnly, s, s', x, m, known, movedTo, mid, current)
    ensures Onward(s, s')
  {
    hide Onward, RenameStep, Inv, Current, Fits, LeadsTo, Said, Familiar;
    RenameFits(opens, stamp, s, x, m, known, movedTo);
    RenameIsOnward(opens, stamp, caseOnly, s, s', x, m, known, movedTo, mid, current);
  }

  lemma {:induction false} SendingIsOnward(opens: Address -> Content, stamp: Stamp, caseOnly: (Path, Path) -> bool,
                                           d: Decision, s: State, s': State, x: Path, m: Meta, mid: State, current: ServerNode)
    requires Sends(d) && !d.RemoteRename? && Off(s, x) && Collected(s) && AllIndexed(s) && Informed(s)
    requires Fits(s, x, m, d) && Turn(opens, stamp, caseOnly, d, s, s', x, m, mid, current)
    ensures Onward(s, s')
  {
    hide Onward, PushEditStep, PushMoveStep, PushNewStep, Informed, Collected, AllIndexed;
    match d
    case PushEdit(known, onServer) =>
      PushEditIsOnward(opens, stamp, s, s', x, m, BaseOf(s.policy.preferLocal, known, onServer), onServer.nodeId, current);
    case PushMove(source) =>
      PushMoveIsOnward(s, s', x, m, source);
    case PushNew =>
      PushNewIsOnward(opens, s, s', x, m);
  }

  lemma {:induction false} TurnIsOnward(opens: Address -> Content, stamp: Stamp, caseOnly: (Path, Path) -> bool,
                                        d: Decision, s: State, s': State, x: Path, m: Meta, mid: State, current: ServerNode)
    requires Inv(opens, stamp, s, {}) && Current(s, x, m) && Ready(s, x, m)
    requires Fits(s, x, m, d) && Turn(opens, stamp, caseOnly, d, s, s', x, m, mid, current)
    ensures Onward(s, s')
  {
    hide Onward, RenameStep, PushEditStep, PushMoveStep, PushNewStep, Fits, Collected, Familiar, Unrecorded, Fresh, DiskSafe, QueueSafe, Books,
         Informed, TreeOk;
    if d.RemoteRename? {
      RenameTurnIsOnward(opens, stamp, caseOnly(x, d.movedTo.path), s, s', x, m, d.known, d.movedTo, mid, current);
    } else if Sends(d) {
      SendingIsOnward(opens, stamp, caseOnly, d, s, s', x, m, mid, current);
    } else {
      QuietIsOnward(opens, stamp, d, s, s', x, m);
    }
  }

  lemma {:induction false} IndexedStill(s: State, s': State)
    requires AllIndexed(s) && Onward(s, s')
    ensures AllIndexed(s')
  {
  }

  // ----- what is heard from the server -------------------------------------------------------------------

  /** No write was accepted and no answer heard. */
  ghost predicate Silent(s: State, s': State) {
    s'.puts == s.puts && s'.shown == s.shown && s'.policy == s.policy
  }

  lemma {:induction false} ConflictTells(opens: Address -> Content, stamp: Stamp, s: State, s': State, x: Path, onServer: ServerNode)
    requires ConflictStep(opens, stamp, s, s', x, onServer)
    ensures Silent(s, s')
  {
    hide Silent, SetAside, Placed, Recorded;
    SameTells(s, x, if x in s'.ledger then s'.ledger[x] else Known(0, 0, 0, 0, None));
    if KeepBothStep(opens, stamp, s, s', x, onServer) {
      BothWritesTell(opens, s, x, onServer.nodeId, onServer.address.value, s'.queue[|s'.queue| - 1], s'.ledger[x]);
    } else if s' != s && !MatchStep(opens, s, s', x, onServer) {
      PlacedTells(s, x, CopyOf(stamp, x));
    }
  }

  lemma {:induction false} SameTells(s: State, x: Path, e: Known)
    ensures Silent(s, s) && Silent(s, Recorded(s, x, e))
  {
  }

  lemma {:induction false} BothWritesTell(opens: Address -> Content, s: State, x: Path, node: NodeId, address: Address, item: Item, e: Known)
    requires x in s.disk
    ensures Silent(s, Recorded(SetAside(opens, Placed(s, x, item.path), x, node, address, item), x, e))
  {
  }

  lemma {:induction false} PlacedTells(s: State, x: Path, to: Path)
    requires x in s.disk
    ensures var s' := Placed(s, x, to); Silent(s, s') && s'.dedup == s.dedup && s'.told == s.told && s'.held == s.held
  {
  }

  lemma {:induction false} ArriveTells(caseOnly: bool, s: State, s': State, x: Path, m: Meta, known: Known, movedTo: ServerNode)
    requires ArriveStep(caseOnly, s, s', x, m, known, movedTo)
    ensures Silent(s, s') && s'.dedup == s.dedup && s'.told == s.told && s.held <= s'.held
  {
  }

  lemma {:induction false} FollowTells(caseOnly: bool, s: State, s': State, x: Path, m: Meta, known: Known, movedTo: ServerNode)
    requires Said(s, movedTo)
    requires s' == s || (x in s.disk && s' == Placed(s, x, movedTo.path)) || ArriveStep(caseOnly, s, s', x, m, known, movedTo)
    ensures Silent(s, s') && s'.dedup == s.dedup && Said(s', movedTo)
  {
    if ArriveStep(caseOnly, s, s', x, m, known, movedTo) {
      ArriveTells(caseOnly, s, s', x, m, known, movedTo);
    } else if s' != s {
      PlacedTells(s, x, movedTo.path);
    }
  }

  lemma {:induction false} MoveTells(s: State, s': State, x: Path, m: Meta, source: Vanished)
    requires PushMoveStep(s, s', x, m, source)
    ensures Silent(s, s')
  {
  }

  lemma {:induction false} QuietTells(opens: Address -> Content, stamp: Stamp, d: Decision, s: State, s': State, x: Path, m: Meta)
    requires !Sends(d) && QuietStep(opens, stamp, d, s, s', x, m)
    ensures Silent(s, s')
  {
    if d.Conflict? {
      ConflictTells(opens, stamp, s, s', x, d.onServer);
    }
  }
}
