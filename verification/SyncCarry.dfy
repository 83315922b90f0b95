/** Entries that name an address and another plaintext: what leaves one, and what exactly. */
module SyncCarry {
  import opened Options
  import opened Reconcile
  import opened SyncState
  import opened SyncRecord
  import opened SyncSteps
  import opened SyncWalk
  import opened SyncProgress

  ghost predicate Mistaken(opens: Address -> Content, s: State, p: Path) {
    p in s.ledger && !Honest(opens, s.seen, s.ledger[p])
  }

  /** A mistaken entry at `p` is put on record, as its node and address. */
  ghost function Settled(opens: Address -> Content, s: State, p: Path): State {
    if Mistaken(opens, s, p) then s.(carried := s.carried + {(s.ledger[p].nodeId, s.ledger[p].address)}) else s
  }

  lemma {:induction false} SettledBooks(opens: Address -> Content, s: State, p: Path)
    requires Books(opens, s, {p})
    ensures Books(opens, Settled(opens, s, p), {})
  {
  }

  lemma {:induction false} SettledKeepsQueue(opens: Address -> Content, s: State, p: Path)
    requires QueueSafe(s)
    ensures QueueSafe(Settled(opens, s, p))
  {
  }

  lemma {:induction false} SettledKeeps(opens: Address -> Content, stamp: Stamp, s: State, p: Path)
    requires Inv(opens, stamp, s, {p})
    ensures Inv(opens, stamp, Settled(opens, s, p), {})
  {
    hide Books, Informed, QueueSafe, DiskSafe, Mistaken;
    SettledBooks(opens, s, p);
    SettledKeepsQueue(opens, s, p);
    SettledStays(opens, stamp, s, p);
  }

  lemma {:induction false} CarriedInformed(s: State, carried: set<(NodeId, Address)>)
    requires Informed(s)
    ensures Informed(s.(carried := carried))
  {
  }

  lemma {:induction false} CarriedSafe(opens: Address -> Content, stamp: Stamp, s: State, carried: set<(NodeId, Address)>)
    requires DiskSafe(opens, stamp, s) && s.carried <= carried
    ensures DiskSafe(opens, stamp, s.(carried := carried))
  {
    ChronicleStays(opens, stamp, s, s.(carried := carried));
  }

  lemma {:induction false} SettledStays(opens: Address -> Content, stamp: Stamp, s: State, p: Path)
    requires Informed(s) && DiskSafe(opens, stamp, s)
    ensures Informed(Settled(opens, s, p)) && DiskSafe(opens, stamp, Settled(opens, s, p))
  {
    hide Informed, DiskSafe;
    if p in s.ledger {
      var carried := s.carried + {(s.ledger[p].nodeId, s.ledger[p].address)};
      CarriedInformed(s, carried);
      CarriedSafe(opens, stamp, s, carried);
    }
  }

  // ----- what each answer leaves in the ledger ------------------------------------------------------

  lemma {:induction false} BothWritesRecord(opens: Address -> Content, s: State, x: Path, node: NodeId, address: Address, item: Item, e: Known)
    requires x in s.disk
    ensures var s' := Recorded(SetAside(opens, Placed(s, x, item.path), x, node, address, item), x, e);
            s'.seen == s.seen + {opens(address)} && s'.carried == s.carried && s'.ledger == s.ledger[x := e]
  {
  }

  lemma {:induction false} ConflictIsHonest(opens: Address -> Content, stamp: Stamp, s: State, s': State, x: Path, onServer: ServerNode)
    requires s.disk.Values <= s.seen && ConflictStep(opens, stamp, s, s', x, onServer)
    ensures s.seen <= s'.seen && s.carried == s'.carried
    ensures s'.ledger == s.ledger || (x in s'.ledger && Honest(opens, s'.seen, s'.ledger[x]))
  {
    if s' == s || MatchStep(opens, s, s', x, onServer) {
    } else if KeepBothStep(opens, stamp, s, s', x, onServer) {
      BothWritesRecord(opens, s, x, onServer.nodeId, onServer.address.value, s'.queue[|s'.queue| - 1], s'.ledger[x]);
    } else {
      PlacedQueues(s, x, CopyOf(stamp, x));
    }
  }

  /** An edit that landed, or a conflict that was settled, names one plaintext twice. */
  lemma {:induction false} PushedIsHonest(opens: Address -> Content, stamp: Stamp, s: State, s': State, x: Path, m: Meta,
                                          base: Base, nodeId: NodeId, current: ServerNode)
    requires s.disk.Values <= s.seen && (x in s.disk ==> s.disk[x] == m.plainHash)
    requires PushEditStep(opens, stamp, s, s', x, m, base, nodeId, current)
    ensures s.seen <= s'.seen && s.carried == s'.carried
    ensures s'.ledger == s.ledger || (x in s'.ledger && Honest(opens, s'.seen, s'.ledger[x]))
  {
    if s' != s && MismatchStep(opens, stamp, s, s', x, nodeId, current) {
      ConflictIsHonest(opens, stamp, Answered(s, s'.shown), s', x, current);
    }
  }

  /** Short of a rename, an entry that is mistaken after a turn was so on record before it. */
  lemma {:induction false} QuietCarriesNothing(opens: Address -> Content, stamp: Stamp, d: Decision, s: State, s': State, x: Path, m: Meta)
    requires Inv(opens, stamp, s, {}) && Current(s, x, m) && Ready(s, x, m)
    requires !Sends(d) && Fits(s, x, m, d) && QuietStep(opens, stamp, d, s, s', x, m)
    ensures Settled(opens, s', x) == s'
  {
    QuietKeeps(opens, stamp, d, s, s', x, m);
    CarriedStays(opens, s', x);
  }

  lemma {:induction false} CarriedStays(opens: Address -> Content, s: State, x: Path)
    requires LedgerOk(opens, s, {})
    ensures Settled(opens, s, x) == s
  {
    if Mistaken(opens, s, x) {
      assert s.carried + {(s.ledger[x].nodeId, s.ledger[x].address)} == s.carried;
    }
  }

  lemma {:induction false} MovedEntryIsKnown(opens: Address -> Content, s: State, s': State, x: Path, m: Meta, source: Vanished)
    requires VanishedOk(opens, s) && m.plainHash in s.vanished && source in s.vanished[m.plainHash]
    requires MovedStep(Claimed(s, m.plainHash, {}), s', x, m, source)
    ensures x in s'.ledger && s'.seen == s.seen && s'.carried == s.carried
    ensures Mistaken(opens, s', x) ==> (s'.ledger[x].nodeId, s'.ledger[x].address) in s'.carried
  {
  }

  lemma {:induction false} ClaimedSame(s: State, c: Content, handled: set<Path>)
    ensures var s' := Claimed(s, c, handled); s'.ledger == s.ledger && s'.seen == s.seen && s'.carried == s.carried && s'.held == s.held
  {
  }

  lemma {:induction false} CarriedAlready(opens: Address -> Content, s: State, x: Path)
    requires Mistaken(opens, s, x) ==> (s.ledger[x].nodeId, s.ledger[x].address) in s.carried
    ensures Settled(opens, s, x) == s
  {
    if Mistaken(opens, s, x) {
      assert s.carried + {(s.ledger[x].nodeId, s.ledger[x].address)} == s.carried;
    }
  }

  lemma {:induction false} MoveCarriesNothing(opens: Address -> Content, stamp: Stamp, s: State, s': State, x: Path, m: Meta, source: Vanished)
    requires Inv(opens, stamp, s, {}) && m.plainHash in s.vanished && source in s.vanished[m.plainHash] && PushMoveStep(s, s', x, m, source)
    ensures Settled(opens, s', x) == s'
  {
    hide Inv, Mistaken, MovedStep, LedgerOk, VanishedOk, Claimed, Settled;
    ClaimedSame(s, m.plainHash, {});
    ClaimedSame(s, m.plainHash, {source.path});
    InvBooks(opens, stamp, s);
    if MovedStep(Claimed(s, m.plainHash, {}), s', x, m, source) {
      MovedEntryIsKnown(opens, s, s', x, m, source);
      CarriedAlready(opens, s', x);
    } else {
      ClaimCarriesNothing(opens, s, s', x);
    }
  }

  lemma {:induction false} InvBooks(opens: Address -> Content, stamp: Stamp, s: State)
    requires Inv(opens, stamp, s, {})
    ensures LedgerOk(opens, s, {}) && VanishedOk(opens, s) && s.disk.Values <= s.seen
  {
  }

  lemma {:induction false} ClaimCarriesNothing(opens: Address -> Content, s: State, s': State, x: Path)
    requires LedgerOk(opens, s, {}) && s'.ledger == s.ledger && s'.seen == s.seen && s'.carried == s.carried && s'.held == s.held
    ensures Settled(opens, s', x) == s'
  {
    CarriedStays(opens, s', x);
  }

  lemma {:induction false} NewCarriesNothing(opens: Address -> Content, stamp: Stamp, s: State, s': State, x: Path, m: Meta)
    requires Inv(opens, stamp, s, {}) && Current(s, x, m) && Fresh(s, x, m) && x !in s.taken && PushNewStep(opens, s, s', x, m)
    ensures Settled(opens, s', x) == s'
  {
    InvBooks(opens, stamp, s);
    if s' == s {
      CarriedStays(opens, s, x);
    }
  }

  /** The bytes a file is sent with are read after it is measured, and its entry names what was measured: it is
      mistaken exactly when the file had changed in between, whoever changed it. */
  lemma {:induction false} WhatASentFileNames(opens: Address -> Content, s: State, s': State, x: Path, m: Meta, base: Base,
                                              nodeId: NodeId)
    requires LandedStep(opens, s, s', x, m, base, nodeId) || (s' != s && PushNewStep(opens, s, s', x, m))
    requires m.plainHash in s.seen
    ensures x in s.disk && (Mistaken(opens, s', x) <==> s.disk[x] != m.plainHash)
  {
  }

  /** What is recorded once a file has been sent or bound, or its hint refreshed, leaves nothing to do for the file
      as it was measured, as long as the server holds what the entry says. */
  lemma {:induction false} WhatIsRecordedIsSettled(opens: Address -> Content, stamp: Stamp, s: State, s': State, x: Path, m: Meta, base: Base,
                                                   nodeId: NodeId, onServer: ServerNode)
    requires
      || LandedStep(opens, s, s', x, m, base, nodeId)
      || (s' != s && PushNewStep(opens, s, s', x, m))
      || QuietStep(opens, stamp, Decision.Adopt(onServer), s, s', x, m)
      || (x in s.ledger && s.ledger[x].plainHash == m.plainHash && QuietStep(opens, stamp, RefreshHint, s, s', x, m))
    ensures x in s'.ledger && forall t: Situation :: Agrees(t, m, s'.ledger[x]) ==> Decide(t) == Decision.Nothing
  {
    hide Decide, LandedStep, PushNewStep, QuietStep;
    RecordedIsMeasured(opens, stamp, s, s', x, m, base, nodeId, onServer);
    forall t: Situation | Agrees(t, m, s'.ledger[x]) ensures Decide(t) == Decision.Nothing {
      MeasuredIsSettled(t, m, s'.ledger[x]);
    }
  }

  /** The file is as measured, the ledger has this entry, and the server holds what it says. */
  ghost predicate Agrees(t: Situation, m: Meta, e: Known) {
    && t.meta == m && t.known == Some(e)
    && t.onServer.Some? && t.onServer.value.nodeId == e.nodeId && t.onServer.value.address == Some(e.address)
  }

  lemma {:induction false} MeasuredIsSettled(t: Situation, m: Meta, e: Known)
    requires Measured(e, m) && Agrees(t, m, e)
    ensures Decide(t) == Decision.Nothing
  {
  }

  lemma {:induction false} RecordedIsMeasured(opens: Address -> Content, stamp: Stamp, s: State, s': State, x: Path, m: Meta, base: Base,
                                              nodeId: NodeId, onServer: ServerNode)
    requires
      || LandedStep(opens, s, s', x, m, base, nodeId)
      || (s' != s && PushNewStep(opens, s, s', x, m))
      || QuietStep(opens, stamp, Decision.Adopt(onServer), s, s', x, m)
      || (x in s.ledger && s.ledger[x].plainHash == m.plainHash && QuietStep(opens, stamp, RefreshHint, s, s', x, m))
    ensures x in s'.ledger && Measured(s'.ledger[x], m)
  {
    hide Recorded, Planted, WithPut, Taking;
    RecordedHas(s, x, if x in s.ledger then s.ledger[x].(hint := Some(Hint(m.mtime, m.size))) else Known(0, 0, 0, 0, None));
  }

  lemma {:induction false} RecordedHas(s: State, x: Path, e: Known)
    ensures x in Recorded(s, x, e).ledger && Recorded(s, x, e).ledger[x] == e
  {
  }

  lemma {:induction false} EditCarriesNothing(opens: Address -> Content, stamp: Stamp, s: State, s': State, x: Path, m: Meta,
                                              base: Base, nodeId: NodeId, current: ServerNode)
    requires Inv(opens, stamp, s, {}) && Current(s, x, m) && Fresh(s, x, m) && x !in s.taken
    requires PushEditStep(opens, stamp, s, s', x, m, base, nodeId, current)
    ensures Settled(opens, s', x) == s'
  {
    hide Inv, Current, Settled, Mistaken, LedgerOk, PushEditStep, Honest;
    InvBooks(opens, stamp, s);
    PushedIsHonest(opens, stamp, s, s', x, m, base, nodeId, current);
    if s'.ledger == s.ledger {
      StillCarried(opens, s, s', x);
    } else {
      HonestIsNot(opens, s', x);
      NotMistaken(opens, s', x);
    }
  }

  lemma {:induction false} ReadyIsFresh(s: State, x: Path, m: Meta)
    requires Ready(s, x, m)
    ensures Fresh(s, x, m)
  {
  }

  /** Short of something having landed at the path that was not free, no answer but a remote rename leaves a
      mistaken entry behind. */
  lemma {:induction false} OnlyRenamesCarry(opens: Address -> Content, stamp: Stamp, caseOnly: (Path, Path) -> bool,
                                            d: Decision, s: State, s': State, x: Path, m: Meta, mid: State, current: ServerNode)
    requires Inv(opens, stamp, s, {}) && Current(s, x, m) && Ready(s, x, m) && x !in s.taken && !d.RemoteRename?
    requires Fits(s, x, m, d) && Turn(opens, stamp, caseOnly, d, s, s', x, m, mid, current)
    ensures Settled(opens, s', x) == s'
  {
    hide Inv, Current, Settled, Ready, Fresh, Turn, Fits, QuietStep;
    if Sends(d) {
      ReadyIsFresh(s, x, m);
      SendingCarriesNothing(opens, stamp, caseOnly, d, s, s', x, m, mid, current);
    } else {
      QuietTurnIs(opens, stamp, caseOnly, d, s, s', x, m, mid, current);
      QuietCarriesNothing(opens, stamp, d, s, s', x, m);
    }
  }

  lemma {:induction false} QuietTurnIs(opens: Address -> Content, stamp: Stamp, caseOnly: (Path, Path) -> bool,
                                       d: Decision, s: State, s': State, x: Path, m: Meta, mid: State, current: ServerNode)
    requires !Sends(d) && Turn(opens, stamp, caseOnly, d, s, s', x, m, mid, current)
    ensures QuietStep(opens, stamp, d, s, s', x, m)
  {
    hide QuietStep;
  }

  lemma {:induction false} SendingCarriesNothing(opens: Address -> Content, stamp: Stamp, caseOnly: (Path, Path) -> bool,
                                                 d: Decision, s: State, s': State, x: Path, m: Meta, mid: State, current: ServerNode)
    requires Inv(opens, stamp, s, {}) && Current(s, x, m) && Fresh(s, x, m) && x !in s.taken && Sends(d) && !d.RemoteRename?
    requires Fits(s, x, m, d) && Turn(opens, stamp, caseOnly, d, s, s', x, m, mid, current)
    ensures Settled(opens, s', x) == s'
  {
    hide Inv, Current, Settled, PushEditStep, PushMoveStep, PushNewStep, Fresh;
    match d
    case PushEdit(known, onServer) =>
      EditCarriesNothing(opens, stamp, s, s', x, m, BaseOf(s.policy.preferLocal, known, onServer), onServer.nodeId, current);
    case PushMove(source) =>
      MoveCarriesNothing(opens, stamp, s, s', x, m, source);
    case PushNew =>
      NewCarriesNothing(opens, stamp, s, s', x, m);
  }

  // ----- what a remote rename carries -----------------------------------------------------------------

  /** The edit in hand landed, or what the server answered instead was matched or set beside it. */
  ghost predicate EditSettled(opens: Address -> Content, stamp: Stamp, s: State, s': State, x: Path, m: Meta,
                              base: Base, nodeId: NodeId, current: ServerNode) {
    || LandedStep(opens, s, s', x, m, base, nodeId)
    || (&& MismatchStep(opens, stamp, s, s', x, nodeId, current)
        && (|| MatchStep(opens, Answered(s, s'.shown), s', x, current)
            || KeepBothStep(opens, stamp, Answered(s, s'.shown), s', x, current)))
  }

  lemma {:induction false} UnsettledLeavesTheEntry(opens: Address -> Content, stamp: Stamp, s: State, s': State, x: Path, m: Meta,
                                                   base: Base, nodeId: NodeId, current: ServerNode)
    requires PushEditStep(opens, stamp, s, s', x, m, base, nodeId, current)
    requires !EditSettled(opens, stamp, s, s', x, m, base, nodeId, current)
    ensures s'.ledger == s.ledger && s'.seen == s.seen && s'.carried == s.carried
  {
    if s' != s && CopyStep(stamp, Answered(s, s'.shown), s', x) {
      PlacedQueues(Answered(s, s'.shown), x, CopyOf(stamp, x));
    }
  }

  lemma {:induction false} SettledEditIsHonest(opens: Address -> Content, stamp: Stamp, s: State, s': State, x: Path, m: Meta,
                                               base: Base, nodeId: NodeId, current: ServerNode)
    requires s.disk.Values <= s.seen && (x in s.disk ==> s.disk[x] == m.plainHash)
    requires EditSettled(opens, stamp, s, s', x, m, base, nodeId, current)
    ensures x in s'.ledger && Honest(opens, s'.seen, s'.ledger[x])
  {
    if !LandedStep(opens, s, s', x, m, base, nodeId) && !MatchStep(opens, Answered(s, s'.shown), s', x, current) {
      BothWritesRecord(opens, Answered(s, s'.shown), x, current.nodeId, current.address.value, s'.queue[|s'.queue| - 1], s'.ledger[x]);
    }
  }

  lemma {:induction false} ArrivedEntry(caseOnly: bool, s: State, s': State, x: Path, m: Meta, known: Known, movedTo: ServerNode)
    requires ArriveStep(caseOnly, s, s', x, m, known, movedTo) && x != movedTo.path
    ensures movedTo.path in s'.disk && s'.disk[movedTo.path] == s.disk[x] && s'.carried == s.carried && s'.seen == s.seen
    ensures s'.disk.Values <= s.disk.Values
    ensures movedTo.path in s'.ledger && s'.ledger[movedTo.path].plainHash == m.plainHash
    ensures s'.ledger[movedTo.path].nodeId == known.nodeId && Some(s'.ledger[movedTo.path].address) == movedTo.address
  {
    var to := movedTo.path;
    ValuesOfUpdate(s.disk, to, s.disk[x]);
    ValuesOfUpdate(s.disk[to := s.disk[x]], x, 0);
    ValuesOfUpdate(s.disk, x, 0);
    ValuesOfUpdate(s.disk - {x}, to, s.disk[x]);
  }

  /** A remote rename that moved the file leaves a mistaken entry exactly when the bytes at the address the
      server has moved the node with are other than this device's, unless an edit was in hand and it landed
      or the server's answer to it was settled. */
  lemma {:induction false} WhatARenameCarries(opens: Address -> Content, stamp: Stamp, caseOnly: bool,
                                              s: State, s': State, x: Path, m: Meta, known: Known, movedTo: ServerNode,
                                              mid: State, current: ServerNode)
    requires Inv(opens, stamp, s, {}) && Current(s, x, m) && Fresh(s, x, m) && x !in s.taken && x != movedTo.path && movedTo.address.Some?
    requires FollowStep(opens, stamp, caseOnly, s, s', x, m, known, movedTo, mid, current)
    ensures Mistaken(opens, s', movedTo.path) <==>
            && opens(movedTo.address.value) != m.plainHash
            && (known.plainHash == m.plainHash ||
                !EditSettled(opens, stamp, mid, s', movedTo.path, m, BaseOf(s.policy.preferLocal, known, movedTo), movedTo.nodeId, current))
    ensures Mistaken(opens, s', movedTo.path) ==>
              s'.ledger[movedTo.path].nodeId == known.nodeId && s'.ledger[movedTo.path].address == movedTo.address.value
  {
    ArrivedEntry(caseOnly, s, mid, x, m, known, movedTo);
    if known.plainHash != m.plainHash {
      EditAfterRename(opens, stamp, mid, s', m, BaseOf(s.policy.preferLocal, known, movedTo), movedTo, current);
    }
  }

  lemma {:induction false} EditAfterRename(opens: Address -> Content, stamp: Stamp, mid: State, s': State, m: Meta, base: Base,
                                           movedTo: ServerNode, current: ServerNode)
    requires mid.disk.Values <= mid.seen && movedTo.path in mid.disk && mid.disk[movedTo.path] == m.plainHash
    requires PushEditStep(opens, stamp, mid, s', movedTo.path, m, base, movedTo.nodeId, current)
    ensures if EditSettled(opens, stamp, mid, s', movedTo.path, m, base, movedTo.nodeId, current)
            then !Mistaken(opens, s', movedTo.path)
            else s'.ledger == mid.ledger && s'.seen == mid.seen
  {
    if EditSettled(opens, stamp, mid, s', movedTo.path, m, base, movedTo.nodeId, current) {
      SettledEditIsHonest(opens, stamp, mid, s', movedTo.path, m, base, movedTo.nodeId, current);
    } else {
      UnsettledLeavesTheEntry(opens, stamp, mid, s', movedTo.path, m, base, movedTo.nodeId, current);
    }
  }

  // ----- over a whole walk ------------------------------------------------------------------------------

  /** No two ledger paths are of one node. */
  ghost predicate OneEach(ledger: map<Path, Known>) {
    forall p, q :: p in ledger && q in ledger && ledger[p].nodeId == ledger[q].nodeId ==> p == q
  }

  ghost predicate ApartAt(opens: Address -> Content, g: Given, n: NodeId, a: Address, p: Path, q: Path) {
    && p != q && p in g.ledger && q in g.walked && g.ledger[p].nodeId == n && g.walked[q].nodeId == n
    && g.walked[q].address == Some(a) && p in g.disk && opens(a) != g.disk[p]
  }

  /** The server had moved the node from the path this device knew it at, and held at that address other
      bytes than this device had at that path. */
  ghost predicate MovedApart(opens: Address -> Content, g: Given, n: NodeId, a: Address) {
    exists p, q :: ApartAt(opens, g, n, a, p, q)
  }

  /** The node was at a path where something has landed that was not free. */
  ghost predicate Displaced(s: State, n: NodeId, p: Path) {
    p in s.taken && Knows(s, n, p)
  }

  /** The ledger had the node at two paths, and the pass moved it from one of them. */
  ghost predicate Doubled(s: State, n: NodeId, p: Path, v: Path) {
    p != v && p in s.given.ledger && s.given.ledger[p].nodeId == n && Rehoused(s, n, v)
  }

  /** The walk of the server found the node with that address. */
  ghost predicate WalkedWith(g: Given, n: NodeId, a: Address) {
    exists q :: q in g.walked && g.walked[q].nodeId == n && g.walked[q].address == Some(a)
  }

  /** What can make an entry mistaken. Of bytes this device has had, only that its node was at a path where
      something has landed that was not free. Of others, that they were the node's on the server, and that the
      server had moved the node from a path with other bytes, or something has landed on its path, or the
      ledger had it twice and the pass moved it. */
  ghost predicate Brought(opens: Address -> Content, s: State, n: NodeId, a: Address) {
    || MovedApart(opens, s.given, n, a)
    || ((WalkedWith(s.given, n, a) || opens(a) in s.seen) && exists p :: Displaced(s, n, p))
    || (WalkedWith(s.given, n, a) && exists p, v :: Doubled(s, n, p, v))
  }

  /** An entry put on record in a pass is of such a node. */
  ghost predicate CarriedBounded(opens: Address -> Content, s: State) {
    forall n: NodeId, a: Address :: (n, a) in s.carried ==> (n, a) in s.given.carried || Brought(opens, s, n, a)
  }

  lemma {:induction false} BroughtStill(opens: Address -> Content, s: State, s': State, n: NodeId, a: Address)
    requires Brought(opens, s, n, a) && s'.given == s.given && s.taken <= s'.taken && s.told <= s'.told && s.sent.Keys <= s'.sent.Keys
    requires s.seen <= s'.seen
    ensures Brought(opens, s', n, a)
  {
    hide MovedApart, WalkedWith;
    if p :| Displaced(s, n, p) {
      assert Displaced(s', n, p);
    }
    if p, v :| Doubled(s, n, p, v) {
      assert Doubled(s', n, p, v);
    }
  }

  ghost predicate FromWalk(s: State, node: ServerNode) {
    node.path in s.given.walked && s.given.walked[node.path] == node
  }

  /** A queued file this device knows, as it was when the pass began. */
  ghost predicate AsGiven(s: State, p: Path)
    requires p in s.ledger
  {
    && p in s.given.ledger && s.given.ledger[p] == s.ledger[p] && p in s.meta
    && (s.ledger[p].nodeId in s.byNodeId ==>
          FromWalk(s, s.byNodeId[s.ledger[p].nodeId]) || exists v :: Rehoused(s, s.ledger[p].nodeId, v))
  }

  /** A node of the index has the address the walk found it with, or the pass has made it. */
  ghost predicate AsWalked(s: State, n: NodeId)
    requires n in s.byNodeId
  {
    (s.byNodeId[n].address.Some? && WalkedWith(s.given, n, s.byNodeId[n].address.value)) || Made(n) in s.sent
  }

  /** What the walk has still to handle is as it was when it began, but where something has landed that was not
      free. */
  ghost predicate Original(s: State) {
    && (forall p :: p in s.meta ==> p in s.given.disk && s.meta[p].plainHash == s.given.disk[p] && p in s.given.listed)
    && Collected(s)
    && (forall p :: p in Queued(s.queue) && p in s.ledger && p !in s.taken ==> AsGiven(s, p))
    && (forall n :: n in s.byNodeId ==> AsWalked(s, n))
  }

  lemma {:induction false} OriginalStill(s: State, s': State)
    requires Original(s) && Onward(s, s')
    ensures Original(s')
  {
    forall p | p in Queued(s'.queue) && p in s'.ledger && p !in s'.taken ensures AsGiven(s', p) {
      assert Undisturbed(s, s', p) && AsGiven(s, p);
      assert forall v :: Rehoused(s, s.ledger[p].nodeId, v) ==> Rehoused(s', s.ledger[p].nodeId, v);
    }
    forall n | n in s'.byNodeId ensures AsWalked(s', n) {
      if n in s.byNodeId && s'.byNodeId[n].address == s.byNodeId[n].address {
        assert AsWalked(s, n);
      }
    }
  }

  /** The first of the queue is ready to be handled. */
  lemma {:induction false} HeadIsReady(opens: Address -> Content, stamp: Stamp, s: State, m: Meta)
    requires Inv(opens, stamp, s, {}) && s.queue != [] && AllIndexed(s) && Original(s) && MeasuredAt(Popped(s), s.queue[0].path, m)
    ensures Ready(Popped(s), s.queue[0].path, m) && Current(Popped(s), s.queue[0].path, m) && Inv(opens, stamp, Popped(s), {})
  {
    hide Inv, Current, Unrecorded, Fresh;
    var x := s.queue[0].path;
    assert x in Queued(s.queue);
    PopKeeps(opens, stamp, s, m);
    if x in s.ledger && x !in s.taken {
      assert AsGiven(s, x);
    }
    MeasuredStood(opens, stamp, s, x, m);
  }

  lemma {:induction false} MeasuredStood(opens: Address -> Content, stamp: Stamp, s: State, x: Path, m: Meta)
    requires Inv(opens, stamp, s, {}) && Original(s) && MeasuredAt(s, x, m)
    ensures StoodAt(s.past, x, m.plainHash)
  {
    hide Books, Informed, TreeOk, InUse, QueueSafe, AllWarranted, Witnessed, AllRightlySent, AllInTurn;
    assert s.past[0].disk == s.given.disk && Last(s.past).disk == s.disk;
  }

  /** The entry a remote rename leaves is of the node it followed. */
  lemma {:induction false} RenamedEntryIs(opens: Address -> Content, stamp: Stamp, caseOnly: bool, s: State, s': State, x: Path, m: Meta,
                                          known: Known, movedTo: ServerNode, mid: State, current: ServerNode)
    requires movedTo.nodeId == known.nodeId && x != movedTo.path
    requires FollowStep(opens, stamp, caseOnly, s, s', x, m, known, movedTo, mid, current)
    requires s.disk.Values <= s.seen
    ensures movedTo.path in s'.ledger && s'.ledger[movedTo.path].nodeId == known.nodeId
    ensures Mistaken(opens, s', movedTo.path) ==>
              Some(s'.ledger[movedTo.path].address) == movedTo.address || opens(s'.ledger[movedTo.path].address) in s'.seen
  {
    hide LandedStep, MatchStep, KeepBothStep, CopyStep, Mistaken;
    ArrivedEntry(caseOnly, s, mid, x, m, known, movedTo);
    if known.plainHash != m.plainHash {
      PushedEntryIs(opens, stamp, mid, s', movedTo.path, m, BaseOf(s.policy.preferLocal, known, movedTo), movedTo.nodeId, current);
    }
  }

  lemma {:induction false} PushedEntryIs(opens: Address -> Content, stamp: Stamp, s: State, s': State, x: Path, m: Meta,
                                         base: Base, nodeId: NodeId, current: ServerNode)
    requires PushEditStep(opens, stamp, s, s', x, m, base, nodeId, current) && x in s.ledger && s.ledger[x].nodeId == nodeId
    requires s.disk.Values <= s.seen
    ensures x in s'.ledger && s'.ledger[x].nodeId == nodeId
    ensures Mistaken(opens, s', x) ==> s'.ledger == s.ledger || opens(s'.ledger[x].address) in s'.seen
  {
    if s' != s && MismatchStep(opens, stamp, s, s', x, nodeId, current) {
      ConflictIsHonest(opens, stamp, Answered(s, s'.shown), s', x, current);
      if CopyStep(stamp, Answered(s, s'.shown), s', x) {
        PlacedQueues(Answered(s, s'.shown), x, CopyOf(stamp, x));
      }
    }
  }

  lemma {:induction false} RenameCarriesWhatMoved(opens: Address -> Content, stamp: Stamp, caseOnly: bool, s0: State, s': State, m: Meta,
                                                  known: Known, movedTo: ServerNode, mid: State, current: ServerNode)
    requires s0.queue != [] && Original(s0) && s0.queue[0].path !in s0.taken
    requires var s, x := Popped(s0), s0.queue[0].path;
             && Inv(opens, stamp, s, {}) && Current(s, x, m) && Fresh(s, x, m) && MeasuredAt(s, x, m)
             && Fits(s, x, m, RemoteRename(known, movedTo))
             && FollowStep(opens, stamp, caseOnly, s, s', x, m, known, movedTo, mid, current)
    ensures Mistaken(opens, s', movedTo.path) ==>
              && s'.ledger[movedTo.path].address == movedTo.address.value
              && (MovedApart(opens, s0.given, known.nodeId, movedTo.address.value) || exists p, v :: Doubled(Popped(s0), known.nodeId, p, v))
  {
    hide Inv, Current, FollowStep, EditSettled;
    var x := s0.queue[0].path;
    WhatARenameCarries(opens, stamp, caseOnly, Popped(s0), s', x, m, known, movedTo, mid, current);
    if Mistaken(opens, s', movedTo.path) {
      assert x in Queued(s0.queue) && AsGiven(s0, x);
      if v :| Rehoused(s0, known.nodeId, v) {
        SentWasNotListed(opens, stamp, Popped(s0), v);
        assert Doubled(Popped(s0), known.nodeId, x, v);
      } else {
        assert ApartAt(opens, s0.given, known.nodeId, movedTo.address.value, x, movedTo.path);
      }
    }
  }

  lemma {:induction false} SentWasNotListed(opens: Address -> Content, stamp: Stamp, s: State, v: Path)
    requires Inv(opens, stamp, s, {}) && Sent(v) in s.sent
    ensures v !in s.given.listed
  {
    hide Books, Informed, TreeOk, InUse, QueueSafe, Recounted, AllWarranted, Witnessed, AllInTurn;
    assert RightlySent(opens, s, Sent(v));
  }

  /** What a turn may put on record as mistaken is of a node that was moved, displaced or doubled. */
  lemma {:induction false} TurnCarries(opens: Address -> Content, stamp: Stamp, caseOnly: (Path, Path) -> bool, d: Decision,
                                       s0: State, s': State, m: Meta, mid: State, current: ServerNode)
    requires s0.queue != [] && Original(s0)
    requires var s, x := Popped(s0), s0.queue[0].path;
             && Inv(opens, stamp, s, {}) && Current(s, x, m) && Ready(s, x, m) && MeasuredAt(s, x, m)
             && Fits(s, x, m, d) && Turn(opens, stamp, caseOnly, d, s, s', x, m, mid, current)
    requires Onward(Popped(s0), s')
    ensures var p := Touched(s0.queue[0].path, d);
            Settled(opens, s', p) == s' ||
            (Mistaken(opens, s', p) && Brought(opens, s', s'.ledger[p].nodeId, s'.ledger[p].address))
  {
    hide Inv, Current, Ready, Original, Brought, Mistaken, FollowStep, Turn, Fits, IndexGrows, QueueKeeps, Settled;
    var s, x := Popped(s0), s0.queue[0].path;
    if d.RemoteRename? {
      RenameTurnCarries(opens, stamp, caseOnly, d, s0, s', m, mid, current);
    } else if x !in s.taken {
      OnlyRenamesCarry(opens, stamp, caseOnly, d, s, s', x, m, mid, current);
    } else if Settled(opens, s', x) != s' {
      NotMistaken(opens, s', x);
      TurnKeeps(opens, stamp, caseOnly, d, s, s', x, m, mid, current);
      SentIsSeen(opens, stamp, caseOnly, d, s, s', x, m, mid, current);
      MistakenIsDisplaced(opens, stamp, s', x, {x});
    }
  }

  lemma {:induction false} NotMistaken(opens: Address -> Content, s: State, p: Path)
    ensures !Mistaken(opens, s, p) ==> Settled(opens, s, p) == s
  {
  }

  /** Short of a rename, an entry newly mistaken is of bytes that were sent from this disk. */
  lemma {:induction false} SentIsSeen(opens: Address -> Content, stamp: Stamp, caseOnly: (Path, Path) -> bool,
                                      d: Decision, s: State, s': State, x: Path, m: Meta, mid: State, current: ServerNode)
    requires Inv(opens, stamp, s, {}) && Current(s, x, m) && Ready(s, x, m) && !d.RemoteRename?
    requires Fits(s, x, m, d) && Turn(opens, stamp, caseOnly, d, s, s', x, m, mid, current)
    ensures Settled(opens, s', x) == s' || (x in s'.ledger && opens(s'.ledger[x].address) in s'.seen)
  {
    hide Inv, Current, Settled, Ready, Turn, Fits, QuietStep;
    if Sends(d) {
      SendingIsSeen(opens, stamp, caseOnly, d, s, s', x, m, mid, current);
    } else {
      QuietTurnIs(opens, stamp, caseOnly, d, s, s', x, m, mid, current);
      QuietCarriesNothing(opens, stamp, d, s, s', x, m);
    }
  }

  lemma {:induction false} SendingIsSeen(opens: Address -> Content, stamp: Stamp, caseOnly: (Path, Path) -> bool,
                                         d: Decision, s: State, s': State, x: Path, m: Meta, mid: State, current: ServerNode)
    requires Inv(opens, stamp, s, {}) && Sends(d) && !d.RemoteRename?
    requires Fits(s, x, m, d) && Turn(opens, stamp, caseOnly, d, s, s', x, m, mid, current)
    ensures Settled(opens, s', x) == s' || (x in s'.ledger && opens(s'.ledger[x].address) in s'.seen)
  {
    hide Inv, Settled, PushEditStep, PushMoveStep, PushNewStep;
    match d
    case PushEdit(known, onServer) =>
      EditIsSeen(opens, stamp, s, s', x, m, BaseOf(s.policy.preferLocal, known, onServer), onServer.nodeId, current);
    case PushMove(source) =>
      MoveCarriesNothing(opens, stamp, s, s', x, m, source);
    case PushNew =>
      NewIsSeen(opens, stamp, s, s', x, m);
  }

  lemma {:induction false} EditIsSeen(opens: Address -> Content, stamp: Stamp, s: State, s': State, x: Path, m: Meta,
                                      base: Base, nodeId: NodeId, current: ServerNode)
    requires Inv(opens, stamp, s, {}) && PushEditStep(opens, stamp, s, s', x, m, base, nodeId, current)
    ensures Settled(opens, s', x) == s' || (x in s'.ledger && opens(s'.ledger[x].address) in s'.seen)
  {
    hide Inv, Settled, Mistaken, LedgerOk, MismatchStep, LandedStep, Honest;
    InvBooks(opens, stamp, s);
    if s' == s {
      CarriedStays(opens, s, x);
    } else if LandedStep(opens, s, s', x, m, base, nodeId) {
      LandedIsSeen(opens, s, s', x, m, base, nodeId);
    } else {
      MismatchIsSettled(opens, stamp, s, s', x, nodeId, current);
    }
  }

  lemma {:induction false} MismatchIsSettled(opens: Address -> Content, stamp: Stamp, s: State, s': State, x: Path, nodeId: NodeId,
                                             current: ServerNode)
    requires LedgerOk(opens, s, {}) && s.disk.Values <= s.seen && MismatchStep(opens, stamp, s, s', x, nodeId, current)
    ensures Settled(opens, s', x) == s'
  {
    hide Settled, Mistaken, LedgerOk, ConflictStep, Honest;
    ConflictIsHonest(opens, stamp, Answered(s, s'.shown), s', x, current);
    if s'.ledger == s.ledger {
      StillCarried(opens, s, s', x);
    } else {
      HonestIsNot(opens, s', x);
      NotMistaken(opens, s', x);
    }
  }

  lemma {:induction false} LandedIsSeen(opens: Address -> Content, s: State, s': State, x: Path, m: Meta, base: Base, nodeId: NodeId)
    requires LandedStep(opens, s, s', x, m, base, nodeId) && s.disk.Values <= s.seen
    ensures x in s'.ledger && opens(s'.ledger[x].address) in s'.seen
  {
  }

  lemma {:induction false} StillCarried(opens: Address -> Content, s: State, s': State, x: Path)
    requires LedgerOk(opens, s, {}) && s'.ledger == s.ledger && s.seen <= s'.seen && s'.carried == s.carried
    ensures Settled(opens, s', x) == s'
  {
    if Mistaken(opens, s', x) {
      assert s'.carried + {(s'.ledger[x].nodeId, s'.ledger[x].address)} == s'.carried;
    }
  }

  lemma {:induction false} HonestIsNot(opens: Address -> Content, s: State, p: Path)
    requires p in s.ledger && Honest(opens, s.seen, s.ledger[p])
    ensures !Mistaken(opens, s, p)
  {
  }

  lemma {:induction false} NewIsSeen(opens: Address -> Content, stamp: Stamp, s: State, s': State, x: Path, m: Meta)
    requires Inv(opens, stamp, s, {}) && PushNewStep(opens, s, s', x, m)
    ensures Settled(opens, s', x) == s' || (x in s'.ledger && opens(s'.ledger[x].address) in s'.seen)
  {
    hide Settled, LedgerOk;
    InvBooks(opens, stamp, s);
    if s' == s {
      CarriedStays(opens, s, x);
    } else {
      assert s.disk[x] in s.disk.Values;
    }
  }

  lemma {:induction false} MistakenIsDisplaced(opens: Address -> Content, stamp: Stamp, s: State, x: Path, but: set<Path>)
    requires Inv(opens, stamp, s, but) && Mistaken(opens, s, x) && x in s.taken && opens(s.ledger[x].address) in s.seen
    ensures Brought(opens, s, s.ledger[x].nodeId, s.ledger[x].address)
  {
    hide Books, TreeOk, DiskSafe, InUse, QueueSafe;
    assert Displaced(s, s.ledger[x].nodeId, x);
  }

  lemma {:induction false} RenameTurnCarries(opens: Address -> Content, stamp: Stamp, caseOnly: (Path, Path) -> bool, d: Decision,
                                             s0: State, s': State, m: Meta, mid: State, current: ServerNode)
    requires s0.queue != [] && Original(s0) && d.RemoteRename?
    requires var s, x := Popped(s0), s0.queue[0].path;
             && Inv(opens, stamp, s, {}) && Current(s, x, m) && Ready(s, x, m) && MeasuredAt(s, x, m)
             && Fits(s, x, m, d) && Turn(opens, stamp, caseOnly, d, s, s', x, m, mid, current)
    requires Onward(Popped(s0), s')
    ensures var p := d.movedTo.path;
            Settled(opens, s', p) == s' ||
            (Mistaken(opens, s', p) && Brought(opens, s', s'.ledger[p].nodeId, s'.ledger[p].address))
  {
    hide Inv, Current, Original, Mistaken, FollowStep, IndexGrows, QueueKeeps, Settled, MovedApart, Unrecorded, Familiar, Collected, Brought;
    var s, x := Popped(s0), s0.queue[0].path;
    var once := caseOnly(x, d.movedTo.path);
    if !FollowStep(opens, stamp, once, s, s', x, m, d.known, d.movedTo, mid, current) {
      StoppedRenameCarriesNothing(opens, stamp, s, s', x, d.movedTo.path);
    } else if !Mistaken(opens, s', d.movedTo.path) {
      NotMistaken(opens, s', d.movedTo.path);
    } else {
      DiskIsSeen(opens, stamp, s);
      RenamedEntryIs(opens, stamp, once, s, s', x, m, d.known, d.movedTo, mid, current);
      RenamedIsWalked(opens, stamp, s0, m, d.known, d.movedTo);
      if x in s.taken {
        EntryIsKnown(opens, stamp, s, x);
        DisplacedStill(opens, s, s', d.known.nodeId, x, s'.ledger[d.movedTo.path].address);
      } else {
        RenameCarriesWhatMoved(opens, stamp, once, s0, s', m, d.known, d.movedTo, mid, current);
        ApartIsBrought(opens, s, s', d.known.nodeId, s'.ledger[d.movedTo.path].address);
      }
    }
  }

  lemma {:induction false} EntryIsKnown(opens: Address -> Content, stamp: Stamp, s: State, x: Path)
    requires Inv(opens, stamp, s, {}) && x in s.ledger
    ensures Knows(s, s.ledger[x].nodeId, x)
  {
    hide Books, TreeOk, DiskSafe, InUse, QueueSafe, Knows;
  }

  lemma {:induction false} DiskIsSeen(opens: Address -> Content, stamp: Stamp, s: State)
    requires Inv(opens, stamp, s, {})
    ensures s.disk.Values <= s.seen
  {
  }

  /** A node followed to another path is not one the pass has made: that has one place. */
  lemma {:induction false} RenamedIsWalked(opens: Address -> Content, stamp: Stamp, s0: State, m: Meta, known: Known, movedTo: ServerNode)
    requires s0.queue != [] && Original(s0) && Inv(opens, stamp, Popped(s0), {})
    requires Fits(Popped(s0), s0.queue[0].path, m, RemoteRename(known, movedTo))
    ensures movedTo.address.Some? && WalkedWith(s0.given, known.nodeId, movedTo.address.value)
  {
    hide Inv, WalkedWith, Collected, AsGiven, ToldIsBounded, Unheard, Knows;
    var s, x := Popped(s0), s0.queue[0].path;
    assert AsWalked(s0, known.nodeId);
    EntryIsKnown(opens, stamp, s, x);
    IndexIsKnown(opens, stamp, s, known.nodeId);
    if Made(known.nodeId) in s.sent {
      MadeIsUnheard(opens, stamp, s, known.nodeId);
      MadeHasOnePlace(s, known.nodeId, x);
      MadeHasOnePlace(s, known.nodeId, movedTo.path);
    }
  }

  lemma {:induction false} IndexIsKnown(opens: Address -> Content, stamp: Stamp, s: State, n: NodeId)
    requires Inv(opens, stamp, s, {}) && n in s.byNodeId
    ensures s.byNodeId[n].nodeId == n && Knows(s, n, s.byNodeId[n].path) && ToldIsBounded(s)
  {
    hide Books, DiskSafe, InUse, QueueSafe, ToldIsBounded;
    assert Said(s, s.byNodeId[n]);
  }

  lemma {:induction false} MadeIsUnheard(opens: Address -> Content, stamp: Stamp, s: State, n: NodeId)
    requires Inv(opens, stamp, s, {}) && Made(n) in s.sent
    ensures Unheard(s.given, n)
  {
    hide Books, Informed, TreeOk, InUse, QueueSafe, Recounted, AllWarranted, Witnessed, AllInTurn, Unheard;
    assert RightlySent(opens, s, Made(n));
  }

  lemma {:induction false} MadeHasOnePlace(s: State, n: NodeId, p: Path)
    requires ToldIsBounded(s) && Made(n) in s.sent && Unheard(s.given, n) && Knows(s, n, p)
    ensures p == s.sent[Made(n)]
  {
    assert SentTo(s, n, p);
  }

  lemma {:induction false} DisplacedStill(opens: Address -> Content, s: State, s': State, n: NodeId, x: Path, a: Address)
    requires Knows(s, n, x) && x in s.taken && Later(s, s') && (WalkedWith(s.given, n, a) || opens(a) in s'.seen)
    ensures Brought(opens, s', n, a)
  {
    assert Displaced(s', n, x);
  }

  lemma {:induction false} ApartIsBrought(opens: Address -> Content, s: State, s': State, n: NodeId, a: Address)
    requires MovedApart(opens, s.given, n, a) || (WalkedWith(s.given, n, a) && exists p, v :: Doubled(s, n, p, v))
    requires Later(s, s')
    ensures Brought(opens, s', n, a)
  {
    assert Brought(opens, s, n, a);
    BroughtStill(opens, s, s', n, a);
  }

  /** Bounded still, with the entry a turn may have written put on record if it is mistaken. */
  lemma {:induction false} BoundedOneMore(opens: Address -> Content, s0: State, s': State, p: Path)
    requires CarriedBounded(opens, s0) && s'.carried == s0.carried && Later(s0, s')
    requires Settled(opens, s', p) == s' ||
             (Mistaken(opens, s', p) && Brought(opens, s', s'.ledger[p].nodeId, s'.ledger[p].address))
    ensures CarriedBounded(opens, Settled(opens, s', p))
  {
    hide Brought, Mistaken;
    var s2 := Settled(opens, s', p);
    forall n: NodeId, a: Address | (n, a) in s2.carried ensures (n, a) in s2.given.carried || Brought(opens, s2, n, a) {
      if (n, a) in s0.carried {
        if (n, a) !in s0.given.carried {
          BroughtStill(opens, s0, s2, n, a);
        }
      } else {
        BroughtStill(opens, s', s2, n, a);
      }
    }
  }

  lemma {:induction false} StoppedRenameCarriesNothing(opens: Address -> Content, stamp: Stamp, s: State, s': State, x: Path, to: Path)
    requires Inv(opens, stamp, s, {}) && (s' == s || (x in s.disk && s' == Placed(s, x, to)))
    ensures Settled(opens, s', to) == s'
  {
    CarriedStays(opens, s', to);
  }

  // ----- one whole turn -----------------------------------------------------------------------------------

  /** What the walk keeps from one turn to the next. */
  ghost predicate Walking(opens: Address -> Content, stamp: Stamp, s: State) {
    Inv(opens, stamp, s, {}) && AllIndexed(s) && Original(s) && CarriedBounded(opens, s)
  }

  /** A turn as it ends: the entry it may have written settled, if it got as far as a decision. */
  ghost function AfterTurn(opens: Address -> Content, s: State, s': State, r: Option<Meta>): State
    requires s.queue != []
  {
    match r
    case None => s'
    case Some(m) => Settled(opens, s', Touched(s.queue[0].path, Decide(SituationOf(Popped(s), s.queue[0].path, m))))
  }

  /** What the handling of the first file of the queue promises. */
  ghost predicate Handled(opens: Address -> Content, stamp: Stamp, caseOnly: (Path, Path) -> bool,
                          s: State, s': State, x: Path, r: Option<Meta>, mid: State, current: ServerNode) {
    match r
    case None => s' == s
    case Some(m) =>
      MeasuredAt(s, x, m) && Turn(opens, stamp, caseOnly, Decide(SituationOf(s, x, m)), s, s', x, m, mid, current)
  }

  lemma {:induction false} SettledGoesOn(opens: Address -> Content, s0: State, s: State, s': State, p: Path)
    requires Nearer(s0, s') && Later(s, s')
    ensures Nearer(s0, Settled(opens, s', p)) && Later(s, Settled(opens, s', p))
  {
  }

  lemma {:induction false} CarriedOriginal(s: State, carried: set<(NodeId, Address)>)
    requires Original(s)
    ensures Original(s.(carried := carried))
  {
    hide Collected;
    var s' := s.(carried := carried);
    assert Collected(s') by {
      CarriedCollected(s, carried);
    }
    forall p | p in Queued(s'.queue) && p in s'.ledger && p !in s'.taken ensures AsGiven(s', p) {
      assert AsGiven(s, p);
      assert forall v :: Rehoused(s, s.ledger[p].nodeId, v) ==> Rehoused(s', s.ledger[p].nodeId, v);
    }
  }

  lemma {:induction false} CarriedCollected(s: State, carried: set<(NodeId, Address)>)
    requires Collected(s)
    ensures Collected(s.(carried := carried))
  {
  }

  lemma {:induction false} SettledWalks(opens: Address -> Content, stamp: Stamp, s': State, p: Path)
    requires Inv(opens, stamp, s', {p}) && AllIndexed(s') && Original(s') && CarriedBounded(opens, Settled(opens, s', p))
    ensures Walking(opens, stamp, Settled(opens, s', p))
  {
    hide Inv, CarriedBounded, Original;
    SettledKeeps(opens, stamp, s', p);
    CarriedOriginal(s', Settled(opens, s', p).carried);
    assert Settled(opens, s', p) == s'.(carried := Settled(opens, s', p).carried);
  }

  lemma {:induction false} PoppedWalks(opens: Address -> Content, stamp: Stamp, s: State)
    requires Walking(opens, stamp, s) && s.queue != []
    ensures Walking(opens, stamp, Popped(s)) && Nearer(s, Popped(s)) && Later(s, Popped(s))
  {
    hide Inv, AllIndexed, Original, CarriedBounded, IndexGrows, QueueKeeps;
    PopKeeps(opens, stamp, s, Meta(0, 0, 0));
    PopIsOnward(s);
    IndexedStill(s, Popped(s));
    OriginalStill(s, Popped(s));
    PopIsBounded(opens, s);
  }

  lemma {:induction false} PopIsBounded(opens: Address -> Content, s: State)
    requires CarriedBounded(opens, s) && s.queue != []
    ensures CarriedBounded(opens, Popped(s))
  {
    hide Brought;
    forall n: NodeId, a: Address | (n, a) in s.carried && (n, a) !in s.given.carried ensures Brought(opens, Popped(s), n, a) {
      BroughtStill(opens, s, Popped(s), n, a);
    }
  }

  lemma {:induction false} ReadyIsIndexed(s: State, x: Path, m: Meta)
    requires Ready(s, x, m)
    ensures AllIndexed(s) && Collected(s)
  {
    hide AllIndexed, Collected;
  }

  lemma {:induction false} WholeTurnOf(opens: Address -> Content, stamp: Stamp, caseOnly: (Path, Path) -> bool,
                                       d: Decision, s: State, s': State, m: Meta, mid: State, current: ServerNode)
    requires Walking(opens, stamp, s) && s.queue != [] && MeasuredAt(Popped(s), s.queue[0].path, m)
    requires Fits(Popped(s), s.queue[0].path, m, d)
    requires Turn(opens, stamp, caseOnly, d, Popped(s), s', s.queue[0].path, m, mid, current)
    ensures var s2 := Settled(opens, s', Touched(s.queue[0].path, d));
            Walking(opens, stamp, s2) && Nearer(s, s2) && Later(s, s2)
  {
    hide Inv, Current, Ready, AllIndexed, Original, CarriedBounded, Fits, Turn, Nearer, Settled, IndexGrows, QueueKeeps;
    var x := s.queue[0].path;
    HeadIsReady(opens, stamp, s, m);
    PoppedWalks(opens, stamp, s);
    ReadyIsIndexed(Popped(s), x, m);
    TurnKeeps(opens, stamp, caseOnly, d, Popped(s), s', x, m, mid, current);
    TurnIsOnward(opens, stamp, caseOnly, d, Popped(s), s', x, m, mid, current);
    TurnIsNearer(opens, stamp, caseOnly, d, s, s', m, mid, current);
    IndexedStill(Popped(s), s');
    OriginalStill(Popped(s), s');
    TurnCarries(opens, stamp, caseOnly, d, s, s', m, mid, current);
    BoundedOneMore(opens, Popped(s), s', Touched(x, d));
    SettledWalks(opens, stamp, s', Touched(x, d));
    SettledGoesOn(opens, s, s, s', Touched(x, d));
  }

  /** One whole turn: off the queue, decided, done, and its entry settled. */
  lemma {:induction false} WholeTurn(opens: Address -> Content, stamp: Stamp, caseOnly: (Path, Path) -> bool,
                                     s: State, s': State, r: Option<Meta>, mid: State, current: ServerNode)
    requires Walking(opens, stamp, s) && s.queue != []
    requires Handled(opens, stamp, caseOnly, Popped(s), s', s.queue[0].path, r, mid, current)
    ensures var s2 := AfterTurn(opens, s, s', r);
            Walking(opens, stamp, s2) && Nearer(s, s2) && Later(s, s2)
  {
    hide Walking, Turn, Fits, Nearer, Later, Settled, Decide;
    match r
    case None =>
      PoppedWalks(opens, stamp, s);
    case Some(m) =>
      WholeTurnFits(opens, stamp, s, m);
      WholeTurnOf(opens, stamp, caseOnly, Decide(SituationOf(Popped(s), s.queue[0].path, m)), s, s', m, mid, current);
  }

  lemma {:induction false} WholeTurnFits(opens: Address -> Content, stamp: Stamp, s: State, m: Meta)
    requires Walking(opens, stamp, s) && s.queue != []
    ensures Fits(Popped(s), s.queue[0].path, m, Decide(SituationOf(Popped(s), s.queue[0].path, m)))
  {
    hide Fits, Decide;
    DecisionFits(Popped(s), s.queue[0].path, m);
  }
}
