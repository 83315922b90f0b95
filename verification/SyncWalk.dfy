/** One turn of the walk: a file taken off the queue, decided and carried out. */
module SyncWalk {
  import opened Options
  import opened Reconcile
  import opened SyncState
  import opened SyncRecord
  import opened SyncSteps

  // ----- taking a file off the queue ------------------------------------------------------------

  /** What the walk goes by: the measurement made before it, or one made now of what is on disk. */
  predicate MeasuredAt(s: State, p: Path, m: Meta) {
    if p in s.meta then m == s.meta[p] else p in s.disk && m.plainHash == s.disk[p]
  }

  function Popped(s: State): State
    requires s.queue != []
  {
    s.(queue := s.queue[1..], handled := s.handled + {s.queue[0].path})
  }

  lemma {:induction false} PopKeepsQueue(s: State, m: Meta)
    requires QueueSafe(s) && InUse(s) && s.queue != [] && Kept(s.disk, s.trail, s.given.start) && s.disk.Values <= s.seen
    ensures QueueSafe(Popped(s)) && InUse(Popped(s))
    ensures MeasuredAt(s, s.queue[0].path, m) ==>
              && Current(Popped(s), s.queue[0].path, m) && Unrecorded(Popped(s), s.queue[0].path)
              && Fresh(Popped(s), s.queue[0].path, m)
  {
  }

  lemma {:induction false} PopKeeps(opens: Address -> Content, stamp: Stamp, s: State, m: Meta)
    requires Inv(opens, stamp, s, {}) && s.queue != []
    ensures Inv(opens, stamp, Popped(s), {})
    ensures MeasuredAt(s, s.queue[0].path, m) ==>
              && Current(Popped(s), s.queue[0].path, m) && Unrecorded(Popped(s), s.queue[0].path)
              && Fresh(Popped(s), s.queue[0].path, m)
  {
    hide LedgerOk, VanishedOk, PutsOk, Informed, TreeOk, QueueSafe, Current, Unrecorded, Fresh, AllWarranted, Witnessed, AllRightlySent,
         AllInTurn, Recounted;
    PopKeepsQueue(s, m);
    RestAfterDisk(opens, s, Popped(s), {});
    ChronicleStays(opens, stamp, s, Popped(s));
  }

  // ----- deciding and doing -----------------------------------------------------------------------

  function SituationOf(s: State, x: Path, m: Meta): Situation {
    Situation(m, Get(s.ledger, x), Get(s.tree, x), s.byNodeId, s.dedup, s.vanished, s.tree, s.policy)
  }

  /** What a decision says about the file it was made for. */
  ghost predicate Fits(s: State, x: Path, m: Meta, d: Decision) {
    match d
    case Nothing => x in s.ledger && s.ledger[x].plainHash == m.plainHash
    case RefreshHint => x in s.ledger && s.ledger[x].plainHash == m.plainHash
    case Pull(node) =>
      x in s.tree && node == s.tree[x] && x in s.ledger && s.ledger[x].plainHash == m.plainHash && !s.policy.preferLocal
    case PushEdit(known, onServer) =>
      x in s.tree && onServer == s.tree[x] && x in s.ledger && s.ledger[x] == known && onServer.nodeId == known.nodeId
      && (known.plainHash != m.plainHash || s.policy.preferLocal)
    case Adopt(onServer) =>
      x in s.tree && onServer == s.tree[x] && m.plainHash in s.dedup && Some(s.dedup[m.plainHash]) == onServer.address
    case Conflict(onServer) => x in s.tree && onServer == s.tree[x]
    case RemoteRename(known, movedTo) =>
      && x in s.ledger && s.ledger[x] == known && known.nodeId in s.byNodeId && movedTo == s.byNodeId[known.nodeId]
      && movedTo.nodeId == known.nodeId && movedTo.path != x && movedTo.path in s.tree && x !in s.tree && movedTo.address.Some?
    case RemoveLocal =>
      x in s.ledger && s.ledger[x].plainHash == m.plainHash && s.policy.applyRemoteDeletes && s.ledger[x].nodeId !in s.byNodeId
    case PushMove(source) =>
      && x !in s.tree && m.plainHash in s.vanished && s.vanished[m.plainHash] == [source] && source in s.vanished[m.plainHash]
      && source.nodeId in s.byNodeId
    case PushNew => x !in s.tree
  }

  lemma {:induction false} DecisionFits(s: State, x: Path, m: Meta)
    requires TreeOk(s.tree, s.byNodeId)
    ensures Fits(s, x, m, Decide(SituationOf(s, x, m)))
  {
  }

  /** The answers that send this device's bytes somewhere, and record them beside an address. */
  predicate Sends(d: Decision) {
    d.PushEdit? || d.RemoteRename? || d.PushMove? || d.PushNew?
  }

  /** What the answers that send nothing may leave behind. */
  ghost predicate QuietStep(opens: Address -> Content, stamp: Stamp, d: Decision, s: State, s': State, x: Path, m: Meta)
    requires !Sends(d)
  {
    match d
    case Nothing => s' == s
    case RefreshHint => x in s.ledger && s' == Recorded(s, x, s.ledger[x].(hint := Some(Hint(m.mtime, m.size))))
    case Pull(node) => PullStep(opens, s, s', node)
    case Adopt(onServer) =>
      && x in s'.ledger && Measured(s'.ledger[x], m) && Bound(s'.ledger[x], onServer, m.plainHash)
      && s' == Recorded(s, x, s'.ledger[x])
    case Conflict(onServer) => ConflictStep(opens, stamp, s, s', x, onServer)
    case RemoveLocal => s' == s || (x in s.ledger && s' == Forgotten(Deleted(s, x, s.ledger[x].nodeId), x))
  }

  /** What a turn may leave behind, by what was decided. */
  ghost predicate Turn(opens: Address -> Content, stamp: Stamp, caseOnly: (Path, Path) -> bool, d: Decision,
                       s: State, s': State, x: Path, m: Meta, mid: State, current: ServerNode) {
    match d
    case PushEdit(known, onServer) =>
      PushEditStep(opens, stamp, s, s', x, m, BaseOf(s.policy.preferLocal, known, onServer), onServer.nodeId, current)
    case RemoteRename(known, movedTo) =>
      RenameStep(opens, stamp, caseOnly(x, movedTo.path), s, s', x, m, known, movedTo, mid, current)
    case PushMove(source) => PushMoveStep(s, s', x, m, source)
    case PushNew => PushNewStep(opens, s, s', x, m)
    case _ => QuietStep(opens, stamp, d, s, s', x, m)
  }

  /** The path whose entry a turn may have written. */
  function Touched(x: Path, d: Decision): Path {
    if d.RemoteRename? then d.movedTo.path else x
  }

  /** Bytes this device has synchronised are nobody's unsynchronised content. */
  lemma {:induction false} SynchronisedIsNobody(s: State, x: Path, m: Meta)
    requires Kept(s.disk, s.trail, s.given.start) && Current(s, x, m) && Unrecorded(s, x)
    requires x in s.ledger && s.ledger[x].plainHash == m.plainHash
    ensures Nobody(s.trail, x)
  {
  }

  /** A node known here and missing from the index is one the walk of the server found nowhere. */
  lemma {:induction false} MissingIsAbsent(s: State, x: Path)
    requires Informed(s) && AllIndexed(s) && x in s.ledger && s.ledger[x].nodeId !in s.byNodeId
    ensures Absent(s, s.ledger[x].nodeId, x)
  {
    assert Knows(s, s.ledger[x].nodeId, x);
  }

  lemma {:induction false} PullTurnKeeps(opens: Address -> Content, stamp: Stamp, s: State, s': State, x: Path, m: Meta, node: ServerNode)
    requires Inv(opens, stamp, s, {}) && Current(s, x, m) && Unrecorded(s, x)
    requires Fits(s, x, m, Decision.Pull(node)) && PullStep(opens, s, s', node)
    ensures Inv(opens, stamp, s', {})
  {
    assert Said(s, s.tree[x]);
    SynchronisedIsNobody(s, x, m);
    PullKeeps(opens, stamp, s, s', node);
  }

  lemma {:induction false} ConflictTurnKeeps(opens: Address -> Content, stamp: Stamp, s: State, s': State, x: Path, m: Meta,
                                             onServer: ServerNode)
    requires Inv(opens, stamp, s, {}) && Current(s, x, m)
    requires x in s.tree && onServer == s.tree[x] && ConflictStep(opens, stamp, s, s', x, onServer)
    ensures Inv(opens, stamp, s', {})
  {
    assert Said(s, s.tree[x]);
    ConflictKeeps(opens, stamp, s, s', x, m, onServer, {});
  }

  lemma {:induction false} RemoveKeeps(opens: Address -> Content, stamp: Stamp, s: State, s': State, x: Path, m: Meta)
    requires Inv(opens, stamp, s, {}) && Current(s, x, m) && Ready(s, x, m)
    requires x in s.ledger && s.ledger[x].plainHash == m.plainHash && s.policy.applyRemoteDeletes && s.ledger[x].nodeId !in s.byNodeId
    requires s' == s || s' == Forgotten(Deleted(s, x, s.ledger[x].nodeId), x)
    ensures Inv(opens, stamp, s', {})
  {
    if s' != s {
      SynchronisedIsNobody(s, x, m);
      MissingIsAbsent(s, x);
      DeleteKeeps(opens, stamp, s, x, s.ledger[x].nodeId, {});
      ForgetKeeps(opens, stamp, Deleted(s, x, s.ledger[x].nodeId), x, {});
    }
  }

  lemma {:induction false} AdoptKeeps(opens: Address -> Content, stamp: Stamp, s: State, x: Path, m: Meta, e: Known)
    requires Inv(opens, stamp, s, {}) && Current(s, x, m)
    requires x in s.tree && e.nodeId == s.tree[x].nodeId && Some(e.address) == s.tree[x].address
    requires e.plainHash == m.plainHash && m.plainHash in s.dedup && s.dedup[m.plainHash] == e.address
    ensures Inv(opens, stamp, Recorded(s, x, e), {})
  {
    assert Said(s, s.tree[x]);
    StatedIsHeld(s);
    RecordKeeps(opens, stamp, s, x, e, {});
  }

  lemma {:induction false} HintKeeps(opens: Address -> Content, stamp: Stamp, s: State, x: Path, m: Meta, hint: Option<Hint>)
    requires Inv(opens, stamp, s, {}) && Current(s, x, m) && x in s.ledger
    ensures Inv(opens, stamp, Recorded(s, x, s.ledger[x].(hint := hint)), {})
  {
    RecordKeeps(opens, stamp, s, x, s.ledger[x].(hint := hint), {});
  }

  lemma {:induction false} QuietKeeps(opens: Address -> Content, stamp: Stamp, d: Decision, s: State, s': State, x: Path, m: Meta)
    requires Inv(opens, stamp, s, {}) && Current(s, x, m) && Ready(s, x, m)
    requires !Sends(d) && Fits(s, x, m, d) && QuietStep(opens, stamp, d, s, s', x, m)
    ensures Inv(opens, stamp, s', {})
  {
    hide Inv, Current, PushEditStep, RenameStep, PushMoveStep, PushNewStep;
    match d
    case Nothing =>
    case RefreshHint =>
      HintKeeps(opens, stamp, s, x, m, Some(Hint(m.mtime, m.size)));
    case Pull(node) =>
      PullTurnKeeps(opens, stamp, s, s', x, m, node);
    case Adopt(onServer) =>
      AdoptKeeps(opens, stamp, s, x, m, s'.ledger[x]);
    case Conflict(onServer) =>
      ConflictTurnKeeps(opens, stamp, s, s', x, m, onServer);
    case RemoveLocal =>
      RemoveKeeps(opens, stamp, s, s', x, m);
  }

  lemma {:induction false} EditTurnKeeps(opens: Address -> Content, stamp: Stamp, s: State, s': State, x: Path, m: Meta, known: Known,
                                         onServer: ServerNode, current: ServerNode)
    requires Inv(opens, stamp, s, {}) && Current(s, x, m) && Fresh(s, x, m)
    requires x in s.tree && onServer == s.tree[x] && x in s.ledger && s.ledger[x] == known && onServer.nodeId == known.nodeId
    requires known.plainHash != m.plainHash || s.policy.preferLocal
    requires PushEditStep(opens, stamp, s, s', x, m, BaseOf(s.policy.preferLocal, known, onServer), onServer.nodeId, current)
    ensures Inv(opens, stamp, s', {x})
  {
    assert Said(s, onServer);
    InvWeakens(opens, stamp, s, {}, {x});
    EntryIsBase(opens, s, s, x, onServer);
    assert Knows(s, onServer.nodeId, x);
    PushEditKeeps(opens, stamp, s, s', x, m, BaseOf(s.policy.preferLocal, known, onServer), onServer.nodeId, current, {x});
  }

  lemma {:induction false} MoveTurnKeeps(opens: Address -> Content, stamp: Stamp, s: State, s': State, x: Path, m: Meta, source: Vanished)
    requires Inv(opens, stamp, s, {}) && Current(s, x, m) && Ready(s, x, m) && x !in s.tree
    requires (m.plainHash in s.vanished && source in s.vanished[m.plainHash] && PushMoveStep(s, s', x, m, source)) || PushNewStep(opens, s, s', x, m)
    ensures Inv(opens, stamp, s', {x})
  {
    InvWeakens(opens, stamp, s, {}, {x});
    if m.plainHash in s.vanished && source in s.vanished[m.plainHash] && PushMoveStep(s, s', x, m, source) {
      PushMoveKeeps(opens, stamp, s, s', x, m, source);
    } else {
      PushNewKeeps(opens, stamp, s, s', x, m);
    }
  }

  lemma {:induction false} RenameTurnKeeps(opens: Address -> Content, stamp: Stamp, caseOnly: bool, s: State, s': State, x: Path, m: Meta,
                                           known: Known, movedTo: ServerNode, mid: State, current: ServerNode)
    requires Inv(opens, stamp, s, {}) && Current(s, x, m) && Familiar(s, x) && Fresh(s, x, m) && Fits(s, x, m, RemoteRename(known, movedTo))
    requires RenameStep(opens, stamp, caseOnly, s, s', x, m, known, movedTo, mid, current)
    ensures Inv(opens, stamp, s', {movedTo.path})
  {
    assert Said(s, movedTo);
    RenameKeeps(opens, stamp, caseOnly, s, s', x, m, known, movedTo, mid, current);
  }

  lemma {:induction false} SendingTurnKeeps(opens: Address -> Content, stamp: Stamp, caseOnly: (Path, Path) -> bool,
                                            d: Decision, s: State, s': State, x: Path, m: Meta, mid: State, current: ServerNode)
    requires Inv(opens, stamp, s, {}) && Current(s, x, m) && Ready(s, x, m)
    requires Sends(d) && Fits(s, x, m, d) && Turn(opens, stamp, caseOnly, d, s, s', x, m, mid, current)
    ensures Inv(opens, stamp, s', {Touched(x, d)})
  {
    hide Inv, Current, PushEditStep, RenameStep, PushMoveStep, PushNewStep, Collected, Familiar, Fresh, Unrecorded, StoodAt, AllIndexed;
    match d
    case PushEdit(known, onServer) =>
      EditTurnKeeps(opens, stamp, s, s', x, m, known, onServer, current);
    case RemoteRename(known, movedTo) =>
      RenameTurnKeeps(opens, stamp, caseOnly(x, movedTo.path), s, s', x, m, known, movedTo, mid, current);
    case PushMove(source) =>
      MoveTurnKeeps(opens, stamp, s, s', x, m, source);
    case PushNew =>
      MoveTurnKeeps(opens, stamp, s, s', x, m, Vanished(x, 0, 0, 0));
  }

  /** Every turn keeps the invariant, but for the honesty of the one entry it may have written. */
  lemma {:induction false} TurnKeeps(opens: Address -> Content, stamp: Stamp, caseOnly: (Path, Path) -> bool,
                                     d: Decision, s: State, s': State, x: Path, m: Meta, mid: State, current: ServerNode)
    requires Inv(opens, stamp, s, {}) && Current(s, x, m) && Ready(s, x, m)
    requires Fits(s, x, m, d) && Turn(opens, stamp, caseOnly, d, s, s', x, m, mid, current)
    ensures Inv(opens, stamp, s', {Touched(x, d)})
  {
    hide Inv, Current, PushEditStep, RenameStep, PushMoveStep, PushNewStep;
    if Sends(d) {
      SendingTurnKeeps(opens, stamp, caseOnly, d, s, s', x, m, mid, current);
    } else {
      QuietKeeps(opens, stamp, d, s, s', x, m);
      InvWeakens(opens, stamp, s', {}, {x});
    }
  }
}
