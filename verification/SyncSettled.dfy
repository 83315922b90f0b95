/** What a pass leaves behind when nothing it tries fails: nothing that still has to travel. */
module SyncSettled {
  import opened Options
  import opened Reconcile
  import opened SyncState
  import opened SyncSteps
  import opened SyncWalk
  import opened SyncProgress
  import opened SyncCarry
  import opened SyncEnds

  // ----- what is done of each answer ----------------------------------------------------------------

  /** A conflict settled: the same bytes bound, or both versions kept. */
  ghost predicate ConflictDone(opens: Address -> Content, stamp: Stamp, s: State, s': State, x: Path, onServer: ServerNode) {
    MatchStep(opens, s, s', x, onServer) || KeepBothStep(opens, stamp, s, s', x, onServer)
  }

  /** The file with its node, and an edit in hand landed or settled. */
  ghost predicate FollowDone(opens: Address -> Content, stamp: Stamp, caseOnly: bool, s: State, s': State, x: Path,
                             m: Meta, known: Known, movedTo: ServerNode, mid: State, current: ServerNode) {
    && FollowStep(opens, stamp, caseOnly, s, s', x, m, known, movedTo, mid, current)
    && (known.plainHash != m.plainHash ==>
          EditSettled(opens, stamp, mid, s', movedTo.path, m, BaseOf(s.policy.preferLocal, known, movedTo), movedTo.nodeId, current))
  }

  ghost predicate QuietDone(opens: Address -> Content, stamp: Stamp, d: Decision, s: State, s': State, x: Path, m: Meta)
    requires !Sends(d)
  {
    match d
    case Pull(node) => PulledStep(opens, s, s', node)
    case Conflict(onServer) => ConflictDone(opens, stamp, s, s', x, onServer)
    case RemoveLocal => x in s.ledger && s' == Forgotten(Deleted(s, x, s.ledger[x].nodeId), x)
    case _ => QuietStep(opens, stamp, d, s, s', x, m)
  }

  /** An answer carried out to its end. */
  ghost predicate TurnDone(opens: Address -> Content, stamp: Stamp, caseOnly: (Path, Path) -> bool, d: Decision,
                           s: State, s': State, x: Path, m: Meta, mid: State, current: ServerNode) {
    match d
    case PushEdit(known, onServer) =>
      EditSettled(opens, stamp, s, s', x, m, BaseOf(s.policy.preferLocal, known, onServer), onServer.nodeId, current)
    case RemoteRename(known, movedTo) =>
      FollowDone(opens, stamp, caseOnly(x, movedTo.path), s, s', x, m, known, movedTo, mid, current)
    case PushMove(source) => MovedStep(Claimed(s, m.plainHash, {}), s', x, m, source)
    case PushNew => NewStep(opens, s, s', x, m)
    case _ => QuietDone(opens, stamp, d, s, s', x, m)
  }

  // ----- and what that leaves -----------------------------------------------------------------------

  /** The entry at a path names the bytes there. */
  predicate Synced(disk: map<Path, Content>, ledger: map<Path, Known>, p: Path) {
    p in disk && p in ledger && ledger[p].plainHash == disk[p]
  }

  predicate Travels(inScope: Path -> bool, p: Path) {
    !InQuarantine(p) && inScope(p)
  }

  /** Every file in scope is synchronised or still queued, what vanished and is not claimed is still gone, and
      what is queued is there. */
  ghost predicate AllButQueued(inScope: Path -> bool, s: State) {
    && (forall p :: p in s.disk && Travels(inScope, p) ==> p in Queued(s.queue) || Synced(s.disk, s.ledger, p))
    && StillGone(s) && Queued(s.queue) <= s.disk.Keys
  }

  /** The same but for a file being handled. */
  ghost predicate AllButOne(inScope: Path -> bool, s: State, x: Path) {
    && (forall p :: p in s.disk && Travels(inScope, p) && p != x ==> p in Queued(s.queue) || Synced(s.disk, s.ledger, p))
    && StillGone(s) && Queued(s.queue) <= s.disk.Keys && x in s.disk && x !in Queued(s.queue)
  }

  ghost predicate StillGone(s: State) {
    forall c, v :: c in s.vanished && v in s.vanished[c] ==> v.path in s.ledger && v.path !in s.disk
  }

  /** As long as every destination is free. */
  ghost predicate Converging(inScope: Path -> bool, s: State) {
    s.taken == {} ==> AllButQueued(inScope, s)
  }

  lemma {:induction false} HeadAndRest(queue: seq<Item>)
    requires queue != []
    ensures Queued(queue) == {queue[0].path} + Queued(queue[1..])
  {
    assert queue == [queue[0]] + queue[1..];
  }

  lemma {:induction false} PoppedIsAllButOne(inScope: Path -> bool, s: State)
    requires s.queue != [] && AllButQueued(inScope, s) && s.queue[0].path !in Queued(s.queue[1..])
    ensures AllButOne(inScope, Popped(s), s.queue[0].path)
  {
    HeadAndRest(s.queue);
  }

  lemma {:induction false} HandledIsAll(inScope: Path -> bool, s: State, x: Path)
    requires AllButOne(inScope, s, x) && Synced(s.disk, s.ledger, x)
    ensures AllButQueued(inScope, s)
  {
  }

  lemma {:induction false} OneIsNoMore(inScope: Path -> bool, s: State, x: Path)
    requires AllButQueued(inScope, s) && x in s.disk && x !in Queued(s.queue)
    ensures AllButOne(inScope, s, x)
  {
  }

  /** Only one path has changed, and nothing vanished has come back. */
  ghost predicate OnlyAt(s: State, s': State, x: Path) {
    && s'.queue == s.queue && s'.vanished == s.vanished
    && (forall p :: p != x ==> (p in s'.disk <==> p in s.disk) && (p in s.disk ==> s'.disk[p] == s.disk[p]))
    && (forall p :: p != x ==> (p in s'.ledger <==> p in s.ledger) && (p in s.ledger ==> s'.ledger[p] == s.ledger[p]))
  }

  lemma {:induction false} OnePathSettles(inScope: Path -> bool, s: State, s': State, x: Path)
    requires AllButOne(inScope, s, x) && OnlyAt(s, s', x) && (x in s'.disk ==> Synced(s'.disk, s'.ledger, x))
    ensures AllButQueued(inScope, s')
  {
  }

  lemma {:induction false} RecordedOnlyAt(s: State, x: Path, e: Known)
    ensures OnlyAt(s, Recorded(s, x, e), x) && x in Recorded(s, x, e).ledger && Recorded(s, x, e).ledger[x] == e
    ensures Recorded(s, x, e).disk == s.disk
  {
  }

  lemma {:induction false} PulledOnlyAt(opens: Address -> Content, s: State, s': State, node: ServerNode)
    requires PulledStep(opens, s, s', node)
    ensures OnlyAt(s, s', node.path) && Synced(s'.disk, s'.ledger, node.path)
  {
    hide Relocated, Measured;
  }

  lemma {:induction false} RemovedOnlyAt(s: State, x: Path, node: NodeId)
    ensures var s' := Forgotten(Deleted(s, x, node), x); OnlyAt(s, s', x) && x !in s'.disk
  {
  }

  lemma {:induction false} LandedOnlyAt(opens: Address -> Content, s: State, s': State, x: Path, m: Meta, base: Base, nodeId: NodeId)
    requires LandedStep(opens, s, s', x, m, base, nodeId)
    ensures OnlyAt(s, s', x) && s'.disk == s.disk && x in s.disk && x in s'.ledger && s'.ledger[x].plainHash == m.plainHash
  {
  }

  lemma {:induction false} NewOnlyAt(opens: Address -> Content, s: State, s': State, x: Path, m: Meta)
    requires NewStep(opens, s, s', x, m)
    ensures OnlyAt(s, s', x) && s'.disk == s.disk && x in s.disk && x in s'.ledger && s'.ledger[x].plainHash == m.plainHash
  {
  }

  lemma {:induction false} AnsweredIsAllButOne(inScope: Path -> bool, s: State, shown: set<(NodeId, Address)>, x: Path)
    requires AllButOne(inScope, s, x)
    ensures AllButOne(inScope, Answered(s, shown), x)
  {
  }

  // ----- conflicts ------------------------------------------------------------------------------------

  lemma {:induction false} BothSettle(opens: Address -> Content, inScope: Path -> bool, s: State, x: Path, node: NodeId, address: Address,
                                      item: Item, e: Known)
    requires AllButOne(inScope, s, x) && item.path != x && Free(s, item.path) && e.plainHash == opens(address)
    ensures AllButQueued(inScope, Recorded(SetAside(opens, Placed(s, x, item.path), x, node, address, item), x, e))
  {
    hide Relocated, GivenUp;
    QueuedOneMore(s.queue, item);
  }

  lemma {:induction false} BothTake(opens: Address -> Content, s: State, x: Path, node: NodeId, address: Address, item: Item, e: Known)
    requires x in s.disk
    ensures Recorded(SetAside(opens, Placed(s, x, item.path), x, node, address, item), x, e).taken
            == if Free(s, item.path) then s.taken else s.taken + {item.path}
  {
  }

  lemma {:induction false} ConflictSettles(opens: Address -> Content, stamp: Stamp, inScope: Path -> bool, s: State, s': State, x: Path,
                                           onServer: ServerNode)
    requires AllButOne(inScope, s, x) && ConflictDone(opens, stamp, s, s', x, onServer) && s'.taken == {}
    ensures AllButQueued(inScope, s')
  {
    hide AllButOne, AllButQueued, Placed, SetAside, Recorded, Free;
    if MatchStep(opens, s, s', x, onServer) {
      RecordedOnlyAt(s, x, s'.ledger[x]);
      OnePathSettles(inScope, s, s', x);
    } else {
      var item := s'.queue[|s'.queue| - 1];
      BothTake(opens, s, x, onServer.nodeId, onServer.address.value, item, s'.ledger[x]);
      assert Free(s, item.path);
      BothSettle(opens, inScope, s, x, onServer.nodeId, onServer.address.value, item, s'.ledger[x]);
    }
  }

  lemma {:induction false} EditSettles(opens: Address -> Content, stamp: Stamp, inScope: Path -> bool, s: State, s': State, x: Path, m: Meta,
                                       base: Base, nodeId: NodeId, current: ServerNode)
    requires AllButOne(inScope, s, x) && s.disk[x] == m.plainHash && s'.taken == {}
    requires EditSettled(opens, stamp, s, s', x, m, base, nodeId, current)
    ensures AllButQueued(inScope, s')
  {
    hide AllButOne, AllButQueued, LandedStep, MatchStep, KeepBothStep;
    if LandedStep(opens, s, s', x, m, base, nodeId) {
      LandedOnlyAt(opens, s, s', x, m, base, nodeId);
      OnePathSettles(inScope, s, s', x);
    } else {
      AnsweredIsAllButOne(inScope, s, s'.shown, x);
      ConflictSettles(opens, stamp, inScope, Answered(s, s'.shown), s', x, current);
    }
  }

  // ----- moves ----------------------------------------------------------------------------------------

  /** A file at its new place, synchronised there once its entry is. */
  lemma {:induction false} ThereSettles(inScope: Path -> bool, caseOnly: bool, s: State, x: Path, to: Path, e: Known)
    requires AllButOne(inScope, s, x) && x != to && Free(s, to) && e.plainHash == s.disk[x]
    ensures var there := if caseOnly then RenamedInPlace(s, x, to) else Departed(Placed(s, x, to), x, to);
            var s' := Recorded(Forgotten(there, x), to, e);
            AllButQueued(inScope, s') && to in s'.disk && s'.disk[to] == s.disk[x] && to !in Queued(s'.queue)
  {
    hide RenamedInPlace, Departed, Placed;
    ThereIs(caseOnly, s, x, to);
    var there := if caseOnly then RenamedInPlace(s, x, to) else Departed(Placed(s, x, to), x, to);
    EntryThere(there, x, to, e);
  }

  lemma {:induction false} EntryThere(there: State, x: Path, to: Path, e: Known)
    ensures var s' := Recorded(Forgotten(there, x), to, e);
            && s'.disk == there.disk && s'.queue == there.queue && s'.vanished == there.vanished
            && s'.ledger == (there.ledger - {x})[to := e]
  {
  }

  lemma {:induction false} ThereIs(caseOnly: bool, s: State, x: Path, to: Path)
    requires x in s.disk && x != to
    ensures var there := if caseOnly then RenamedInPlace(s, x, to) else Departed(Placed(s, x, to), x, to);
            && there.disk == (s.disk - {x})[to := s.disk[x]] && there.ledger == s.ledger && there.queue == s.queue && there.vanished == s.vanished
  {
    hide Relocated, GivenUp, TakenWith;
  }

  lemma {:induction false} ArrivedSettles(inScope: Path -> bool, caseOnly: bool, s: State, s': State, x: Path, m: Meta, known: Known,
                                          movedTo: ServerNode)
    requires AllButOne(inScope, s, x) && s.disk[x] == m.plainHash && x != movedTo.path && Free(s, movedTo.path)
    requires ArriveStep(caseOnly, s, s', x, m, known, movedTo)
    ensures AllButQueued(inScope, s') && movedTo.path in s'.disk && s'.disk[movedTo.path] == m.plainHash && movedTo.path !in Queued(s'.queue)
  {
    hide AllButOne, AllButQueued, RenamedInPlace, Departed, Placed, Recorded, Forgotten, Free;
    ThereSettles(inScope, caseOnly, s, x, movedTo.path, s'.ledger[movedTo.path]);
  }

  lemma {:induction false} ArrivedTakes(caseOnly: bool, s: State, s': State, x: Path, m: Meta, known: Known, movedTo: ServerNode)
    requires ArriveStep(caseOnly, s, s', x, m, known, movedTo)
    ensures s'.taken == if Free(s, movedTo.path) then s.taken else s.taken + {movedTo.path}
  {
    hide Relocated, GivenUp;
  }

  lemma {:induction false} EditTakesMore(opens: Address -> Content, stamp: Stamp, s: State, s': State, x: Path, m: Meta, base: Base,
                                         nodeId: NodeId, current: ServerNode)
    requires EditSettled(opens, stamp, s, s', x, m, base, nodeId, current)
    ensures s.taken <= s'.taken
  {
    hide LandedStep, MatchStep, Placed, SetAside, Recorded, Free;
    var s1 := Answered(s, s'.shown);
    if LandedStep(opens, s, s', x, m, base, nodeId) {
      LandedTakesNothing(opens, s, s', x, m, base, nodeId);
    } else if MatchStep(opens, s1, s', x, current) {
      MatchTakesNothing(opens, s1, s', x, current);
    } else {
      BothTake(opens, s1, x, current.nodeId, current.address.value, s'.queue[|s'.queue| - 1], s'.ledger[x]);
    }
  }

  lemma {:induction false} LandedTakesNothing(opens: Address -> Content, s: State, s': State, x: Path, m: Meta, base: Base, nodeId: NodeId)
    requires LandedStep(opens, s, s', x, m, base, nodeId)
    ensures s'.taken == s.taken
  {
  }

  lemma {:induction false} MatchTakesNothing(opens: Address -> Content, s: State, s': State, x: Path, onServer: ServerNode)
    requires MatchStep(opens, s, s', x, onServer)
    ensures s'.taken == s.taken
  {
  }

  lemma {:induction false} FollowSettles(opens: Address -> Content, stamp: Stamp, inScope: Path -> bool, caseOnly: bool, s: State, s': State,
                                         x: Path, m: Meta, known: Known, movedTo: ServerNode, mid: State, current: ServerNode)
    requires AllButOne(inScope, s, x) && s.disk[x] == m.plainHash && x != movedTo.path && s'.taken == {}
    requires FollowDone(opens, stamp, caseOnly, s, s', x, m, known, movedTo, mid, current)
    ensures AllButQueued(inScope, s')
  {
    hide AllButOne, AllButQueued, ArriveStep, EditSettled, PushEditStep, Free;
    ArrivedTakes(caseOnly, s, mid, x, m, known, movedTo);
    var base := BaseOf(s.policy.preferLocal, known, movedTo);
    if known.plainHash != m.plainHash {
      EditTakesMore(opens, stamp, mid, s', movedTo.path, m, base, movedTo.nodeId, current);
    }
    assert Free(s, movedTo.path) && mid.taken == {};
    ArrivedSettles(inScope, caseOnly, s, mid, x, m, known, movedTo);
    if known.plainHash != m.plainHash {
      OneIsNoMore(inScope, mid, movedTo.path);
      EditSettles(opens, stamp, inScope, mid, s', movedTo.path, m, base, movedTo.nodeId, current);
    }
  }

  /** A node moved here: its old entry had no file. */
  lemma {:induction false} MovedSettles(inScope: Path -> bool, s: State, s': State, x: Path, m: Meta, source: Vanished)
    requires AllButOne(inScope, s, x) && s.disk[x] == m.plainHash && Collected(s)
    requires m.plainHash in s.vanished && source in s.vanished[m.plainHash]
    requires MovedStep(Claimed(s, m.plainHash, {}), s', x, m, source)
    ensures AllButQueued(inScope, s')
  {
  }

  // ----- a whole turn -------------------------------------------------------------------------------

  lemma {:induction false} QuietSettles(opens: Address -> Content, stamp: Stamp, inScope: Path -> bool, d: Decision, s: State, s': State, x: Path,
                                        m: Meta)
    requires AllButOne(inScope, s, x) && s.disk[x] == m.plainHash && s'.taken == {} && TreeOk(s.tree, s.byNodeId)
    requires !Sends(d) && Fits(s, x, m, d) && QuietDone(opens, stamp, d, s, s', x, m)
    ensures AllButQueued(inScope, s')
  {
    hide AllButOne, AllButQueued, PulledStep, ConflictDone, Recorded, Forgotten, Deleted;
    match d
    case Nothing =>
      AllButOneHas(inScope, s, x);
      HandledIsAll(inScope, s, x);
    case RefreshHint =>
      AllButOneHas(inScope, s, x);
      RecordedOnlyAt(s, x, s.ledger[x].(hint := Some(Hint(m.mtime, m.size))));
      OnePathSettles(inScope, s, s', x);
    case Pull(node) =>
      PulledOnlyAt(opens, s, s', node);
      OnePathSettles(inScope, s, s', x);
    case Adopt(_) =>
      AllButOneHas(inScope, s, x);
      RecordedOnlyAt(s, x, s'.ledger[x]);
      OnePathSettles(inScope, s, s', x);
    case Conflict(onServer) =>
      ConflictSettles(opens, stamp, inScope, s, s', x, onServer);
    case RemoveLocal =>
      RemovedOnlyAt(s, x, s.ledger[x].nodeId);
      OnePathSettles(inScope, s, s', x);
  }

  lemma {:induction false} SendingSettles(opens: Address -> Content, stamp: Stamp, inScope: Path -> bool, caseOnly: (Path, Path) -> bool,
                                          d: Decision, s: State, s': State, x: Path, m: Meta, mid: State, current: ServerNode)
    requires AllButOne(inScope, s, x) && s.disk[x] == m.plainHash && s'.taken == {} && Collected(s)
    requires Sends(d) && Fits(s, x, m, d) && TurnDone(opens, stamp, caseOnly, d, s, s', x, m, mid, current)
    ensures AllButQueued(inScope, s')
  {
    hide AllButOne, AllButQueued, EditSettled, FollowDone, MovedStep, NewStep, Collected;
    match d
    case PushEdit(known, onServer) =>
      EditSettles(opens, stamp, inScope, s, s', x, m, BaseOf(s.policy.preferLocal, known, onServer), onServer.nodeId, current);
    case RemoteRename(known, movedTo) =>
      FollowSettles(opens, stamp, inScope, caseOnly(x, movedTo.path), s, s', x, m, known, movedTo, mid, current);
    case PushMove(source) =>
      MovedSettles(inScope, s, s', x, m, source);
    case PushNew =>
      NewOnlyAt(opens, s, s', x, m);
      OnePathSettles(inScope, s, s', x);
  }

  /** A turn carried out to its end leaves every file but those queued synchronised, as long as every destination
      is free. */
  lemma {:induction false} TurnSettles(opens: Address -> Content, stamp: Stamp, inScope: Path -> bool, caseOnly: (Path, Path) -> bool,
                                       d: Decision, s0: State, s': State, m: Meta, mid: State, current: ServerNode)
    requires s0.queue != [] && Walking(opens, stamp, s0) && Converging(inScope, s0) && MeasuredAt(Popped(s0), s0.queue[0].path, m)
    requires Fits(Popped(s0), s0.queue[0].path, m, d)
    requires TurnDone(opens, stamp, caseOnly, d, Popped(s0), s', s0.queue[0].path, m, mid, current)
    requires s0.taken <= s'.taken
    ensures Converging(inScope, s')
  {
    hide Inv, Current, AllButOne, AllButQueued, Fits, TurnDone, Collected, QuietDone, AllIndexed, Unrecorded, Familiar, StoodAt;
    if s'.taken == {} {
      var s, x := Popped(s0), s0.queue[0].path;
      HeadIsReady(opens, stamp, s0, m);
      HeadIsNotQueued(opens, stamp, s0, m);
      PoppedIsAllButOne(inScope, s0);
      assert x in s.disk && s.disk[x] == m.plainHash by {
        AllButOneHas(inScope, s, x);
      }
      if Sends(d) {
        SendingSettles(opens, stamp, inScope, caseOnly, d, s, s', x, m, mid, current);
      } else {
        QuietTurnDone(opens, stamp, caseOnly, d, s, s', x, m, mid, current);
        InvTree(opens, stamp, s);
        QuietSettles(opens, stamp, inScope, d, s, s', x, m);
      }
    }
  }

  /** A turn as a walk takes it, its entry put on record. */
  lemma {:induction false} ConvergesOn(opens: Address -> Content, stamp: Stamp, inScope: Path -> bool, caseOnly: (Path, Path) -> bool,
                                       s: State, s': State, s2: State, r: Option<Meta>, mid: State, current: ServerNode)
    requires Walking(opens, stamp, s) && s.queue != [] && Converging(inScope, s) && r.Some?
    requires Handled(opens, stamp, caseOnly, Popped(s), s', s.queue[0].path, r, mid, current)
    requires TurnDone(opens, stamp, caseOnly, Decide(SituationOf(Popped(s), s.queue[0].path, r.value)), Popped(s), s', s.queue[0].path, r.value,
                      mid, current)
    requires Later(s, s2) && s2 == s'.(carried := s2.carried)
    ensures Converging(inScope, s2)
  {
    hide Walking, Turn, TurnDone, Fits, Decide, AllButQueued, Converging;
    WholeTurnFits(opens, stamp, s, r.value);
    TurnSettles(opens, stamp, inScope, caseOnly, Decide(SituationOf(Popped(s), s.queue[0].path, r.value)), s, s', r.value, mid, current);
    CarriedConverges(inScope, s', s2.carried);
  }

  lemma {:induction false} CarriedConverges(inScope: Path -> bool, s: State, carried: set<(NodeId, Address)>)
    requires Converging(inScope, s)
    ensures Converging(inScope, s.(carried := carried))
  {
  }

  lemma {:induction false} HeadIsNotQueued(opens: Address -> Content, stamp: Stamp, s: State, m: Meta)
    requires s.queue != [] && Current(Popped(s), s.queue[0].path, m) && s.taken == {}
    ensures s.queue[0].path !in Queued(s.queue[1..])
  {
  }

  lemma {:induction false} AllButOneHas(inScope: Path -> bool, s: State, x: Path)
    requires AllButOne(inScope, s, x)
    ensures x in s.disk
  {
  }

  lemma {:induction false} QuietTurnDone(opens: Address -> Content, stamp: Stamp, caseOnly: (Path, Path) -> bool,
                                         d: Decision, s: State, s': State, x: Path, m: Meta, mid: State, current: ServerNode)
    requires !Sends(d) && TurnDone(opens, stamp, caseOnly, d, s, s', x, m, mid, current)
    ensures QuietDone(opens, stamp, d, s, s', x, m)
  {
    hide QuietDone;
  }

  // ----- the rest of a pass --------------------------------------------------------------------------

  /** Every file in scope is synchronised, and what vanished is gone. */
  ghost predicate Clear(inScope: Path -> bool, s: State) {
    && (forall p :: p in s.disk && Travels(inScope, p) ==> Synced(s.disk, s.ledger, p))
    && forall c, v :: c in s.vanished && v in s.vanished[c] ==> v.path !in s.disk
  }

  lemma {:induction false} AllHandledIsClear(inScope: Path -> bool, s: State)
    requires AllButQueued(inScope, s) && s.queue == []
    ensures Clear(inScope, s)
  {
  }

  /** A walk that is over has nothing left to settle, where every destination was free. */
  lemma {:induction false} WalkedIsClear(inScope: Path -> bool, s: State)
    ensures Converging(inScope, s) && s.taken == {} && s.queue == [] ==> Clear(inScope, s)
  {
  }

  lemma {:induction false} WalkedIsSynced(inScope: Path -> bool, s: State)
    ensures Converging(inScope, s) && s.taken == {} && s.queue == [] ==> FilesSynced(inScope, s.disk, s.ledger)
  {
  }

  lemma {:induction false} ClearIsSynced(inScope: Path -> bool, s: State)
    ensures Clear(inScope, s) ==> FilesSynced(inScope, s.disk, s.ledger)
  {
  }

  lemma {:induction false} VanishedClears(inScope: Path -> bool, s: State, s': State, c: Content, v: Vanished)
    requires Clear(inScope, s) && VanishedStep(s, s', v) && c in s.vanished && v in s.vanished[c]
    ensures Clear(inScope, s')
  {
    hide VanishedStep;
    VanishedSame(s, s', v);
    VanishedDisk(s, s', v);
  }

  /** All of an entry handled. */
  lemma {:induction false} WholeVanished(opens: Address -> Content, stamp: Stamp, inScope: Path -> bool, s: State, s': State, c: Content,
                                         v: Vanished, byNodeId0: map<NodeId, ServerNode>, ledger0: map<Path, Known>)
    requires Inv(opens, stamp, s, {}) && VanishedStep(s, s', v) && c in s.vanished && v in s.vanished[c]
    requires OnlyVanishedAreDeleted(s.policy, s.vanished, byNodeId0, s.byNodeId) && AllKept(s, ledger0) && Collected(s)
    ensures Inv(opens, stamp, s', {}) && Quietly(s, s') && s'.queue == s.queue && s'.vanished == s.vanished
    ensures OnlyVanishedAreDeleted(s.policy, s.vanished, byNodeId0, s'.byNodeId)
    ensures AllKept(s', ledger0) && Collected(s') && KeptOnlyFor(s', ledger0, v)
    ensures forall d, u :: d in s.vanished && u in s.vanished[d] && KeptOnlyFor(s, ledger0, u) ==> KeptOnlyFor(s', ledger0, u)
    ensures forall n :: n in s'.byNodeId ==> n in s.byNodeId && s'.byNodeId[n] == s.byNodeId[n]
    ensures Clear(inScope, s) ==> Clear(inScope, s')
  {
    hide Inv, VanishedStep, OnlyVanishedAreDeleted, AllKept, Collected, KeptOnlyFor, Clear, Quietly;
    IndexShrinks(s, s', v);
    VanishedKeeps(opens, stamp, s, s', v);
    VanishedQuietly(s, s', v);
    DeletedOneMore(s, s', c, v, byNodeId0);
    VanishedSettles(s, s', ledger0, c, v);
    if Clear(inScope, s) {
      VanishedClears(inScope, s, s', c, v);
    }
  }

  lemma {:induction false} VanishedDisk(s: State, s': State, v: Vanished)
    requires VanishedStep(s, s', v)
    ensures s'.disk == s.disk
  {
    hide Forgotten;
    var handled := s.handled + {v.path};
    ForgottenDisk(s, handled, v.path, s'.tree, s'.byNodeId);
    ForgottenDisk(s, handled, v.path, s.tree, s.byNodeId);
    assert s' == s.(handled := handled) || s' == Forgotten(s.(handled := handled), v.path).(tree := s'.tree, byNodeId := s'.byNodeId);
  }

  lemma {:induction false} ForgottenDisk(s: State, handled: set<Path>, p: Path, tree: map<Path, ServerNode>, byNodeId: map<NodeId, ServerNode>)
    ensures Forgotten(s.(handled := handled), p).(tree := tree, byNodeId := byNodeId).disk == s.disk
  {
  }

  /** The files in scope alone. */
  ghost predicate FilesSynced(inScope: Path -> bool, disk: map<Path, Content>, ledger: map<Path, Known>) {
    forall p :: p in disk && Travels(inScope, p) ==> Synced(disk, ledger, p)
  }

  lemma {:induction false} PullSyncs(opens: Address -> Content, inScope: Path -> bool, s: State, s': State, node: ServerNode)
    requires FilesSynced(inScope, s.disk, s.ledger) && PullStep(opens, s, s', node)
    ensures FilesSynced(inScope, s'.disk, s'.ledger)
  {
    hide PulledStep;
    if s' != s {
      PulledOnlyAt(opens, s, s', node);
    }
  }

  /** All of a final pull. */
  lemma {:induction false} WholeLastPull(opens: Address -> Content, stamp: Stamp, inScope: Path -> bool, s: State, s': State, p: Path)
    requires Inv(opens, stamp, s, {}) && s.queue == [] && p in s.tree && p !in s.handled && !InQuarantine(p)
    requires PullStep(opens, s, s', s.tree[p])
    ensures Inv(opens, stamp, s', {}) && Quietly(s, s') && s'.taken == s.taken
    ensures forall q :: q != p && q in s.disk ==> q in s'.disk && s'.disk[q] == s.disk[q]
    ensures FilesSynced(inScope, s.disk, s.ledger) ==> FilesSynced(inScope, s'.disk, s'.ledger)
  {
    hide Inv, PullStep, Quietly, FilesSynced;
    InvPath(opens, stamp, s, p);
    LastPullKeeps(opens, stamp, s, s', p);
    PullSpares(opens, s, s', s.tree[p]);
    PullTakes(opens, s, s', s.tree[p]);
    if FilesSynced(inScope, s.disk, s.ledger) {
      PullSyncs(opens, inScope, s, s', s.tree[p]);
    }
  }

  /** With every file in scope synchronised there is nothing a next pass would have to keep. */
  lemma {:induction false} SyncedKeepsNothing(inScope: Path -> bool, disk: map<Path, Content>, ledger: map<Path, Known>, scope: set<Path>)
    requires FilesSynced(inScope, disk, ledger) && forall p :: p in scope ==> Travels(inScope, p)
    ensures Unsynchronised(disk, ledger, scope) == map[]
  {
  }

  // ----- where it begins ------------------------------------------------------------------------------

  ghost predicate AllListed(inScope: Path -> bool, disk: map<Path, Content>, listed: set<Path>) {
    forall p :: p in disk && Travels(inScope, p) ==> p in listed
  }

  /** Nothing that vanished is there. */
  ghost predicate NoneBack(vanished: map<Content, seq<Vanished>>, disk: map<Path, Content>) {
    forall c, v :: c in vanished && v in vanished[c] ==> v.path !in disk
  }

  lemma {:induction false} BegunConverges(inScope: Path -> bool, s: State, listed: set<Path>, walked: map<Path, ServerNode>,
                                          start: map<Path, Content>)
    requires Listed(s, listed, start) && CollectedFrom(s.vanished, s.ledger)
    requires AllListed(inScope, s.disk, listed) && NoneBack(s.vanished, s.disk)
    ensures Converging(inScope, Begun(s, listed, walked, start))
  {
  }

  // ----- after a reset ----------------------------------------------------------------------------------

  /** A file bound, or in the quarantine with the tree's own in its place. */
  ghost predicate ResetDone(opens: Address -> Content, stamp: Stamp, s: State, s': State, x: Path, m: Meta, mid: State) {
    if x in s.tree && Get(s.dedup, m.plainHash) == s.tree[x].address then
      x in s'.ledger && Measured(s'.ledger[x], m) && s' == Recorded(s, x, s'.ledger[x])
    else
      && x in s.disk && mid == Removed(Placed(s, x, Quarantined(stamp, x)), x, Quarantined(stamp, x))
      && if x in s.tree then PulledStep(opens, mid, s', s.tree[x]) else s' == mid
  }

  lemma {:induction false} SequesteredSettles(inScope: Path -> bool, stamp: Stamp, s: State, x: Path)
    requires AllButOne(inScope, s, x) && Free(s, Quarantined(stamp, x)) && s.vanished == map[]
    ensures var mid := Removed(Placed(s, x, Quarantined(stamp, x)), x, Quarantined(stamp, x));
            && AllButQueued(inScope, mid) && x !in mid.disk && mid.vanished == map[] && x !in Queued(mid.queue)
  {
    hide Relocated, GivenUp;
    QuarantinedIsThere(stamp, x);
  }

  lemma {:induction false} SequesteredTakes(stamp: Stamp, s: State, x: Path)
    requires x in s.disk
    ensures var to := Quarantined(stamp, x);
            Removed(Placed(s, x, to), x, to).taken == if Free(s, to) then s.taken else s.taken + {to}
  {
  }

  lemma {:induction false} PullFills(opens: Address -> Content, inScope: Path -> bool, s: State, s': State, node: ServerNode)
    requires AllButQueued(inScope, s) && PulledStep(opens, s, s', node) && s.vanished == map[]
    ensures AllButQueued(inScope, s') && s'.vanished == map[] && s'.taken == s.taken
  {
    hide Relocated, Measured;
  }

  lemma {:induction false} ResetSettles(opens: Address -> Content, stamp: Stamp, inScope: Path -> bool, s: State, s': State, x: Path, m: Meta,
                                        mid: State)
    requires AllButOne(inScope, s, x) && s.disk[x] == m.plainHash && s.vanished == map[] && s'.taken == {}
    requires ResetDone(opens, stamp, s, s', x, m, mid) && s.taken == {}
    ensures AllButQueued(inScope, s')
  {
    hide AllButOne, AllButQueued, PulledStep, Placed, Removed, Recorded, Free;
    if x in s.tree && Get(s.dedup, m.plainHash) == s.tree[x].address {
      AllButOneHas(inScope, s, x);
      RecordedOnlyAt(s, x, s'.ledger[x]);
      OnePathSettles(inScope, s, s', x);
    } else {
      SequesteredTakes(stamp, s, x);
      if x in s.tree {
        PullTakesNothing(opens, mid, s', s.tree[x]);
      }
      assert Free(s, Quarantined(stamp, x));
      SequesteredSettles(inScope, stamp, s, x);
      if x in s.tree {
        PullFills(opens, inScope, mid, s', s.tree[x]);
      }
    }
  }

  lemma {:induction false} PullTakesNothing(opens: Address -> Content, s: State, s': State, node: ServerNode)
    requires PulledStep(opens, s, s', node)
    ensures s'.taken == s.taken
  {
  }

  /** All of a turn of a reset. */
  lemma {:induction false} WholeReset(opens: Address -> Content, stamp: Stamp, inScope: Path -> bool, s: State, s': State, r: Option<Meta>,
                                      mid: State, done: bool)
    requires Inv(opens, stamp, s, {}) && s.queue != [] && (r.None? ==> s' == Popped(s) && !done)
    requires r.Some? ==> MeasuredAt(Popped(s), s.queue[0].path, r.value)
                         && ResetStep(opens, stamp, Popped(s), s', s.queue[0].path, r.value, mid)
                         && (done ==> ResetDone(opens, stamp, Popped(s), s', s.queue[0].path, r.value, mid))
    ensures Inv(opens, stamp, s', {}) && Quietly(s, s') && s'.queue == s.queue[1..]
    ensures s'.tree == s.tree && SameSupply(s, s')
    ensures forall p :: p in s.disk && HeldByTree(s.tree, s.dedup, s.meta, p) ==> p in s'.disk && s'.disk[p] == s.disk[p]
    ensures done && Converging(inScope, s) && s.vanished == map[] ==> Converging(inScope, s')
  {
    hide Inv, ResetStep, ResetDone, HeldByTree, Converging, Quietly, TreeOk;
    WholeResetTurn(opens, stamp, s, s', r, mid);
    WholeResetSame(opens, stamp, s, s', r, mid);
    InvTree(opens, stamp, s);
    forall p | p in s.disk && HeldByTree(s.tree, s.dedup, s.meta, p) ensures p in s'.disk && s'.disk[p] == s.disk[p] {
      WholeResetLeaves(opens, stamp, s, s', r, mid, p);
    }
    if done && Converging(inScope, s) && s.vanished == map[] {
      QuietlyTakes(s, s');
      ResetTurnSettles(opens, stamp, inScope, s, s', r.value, mid);
    }
  }

  lemma {:induction false} QuietlyTakes(s: State, s': State)
    requires Quietly(s, s')
    ensures s.taken <= s'.taken
  {
  }

  lemma {:induction false} PullTakes(opens: Address -> Content, s: State, s': State, node: ServerNode)
    requires PullStep(opens, s, s', node)
    ensures s'.taken == s.taken
  {
    hide PulledStep;
    if s' != s {
      PullTakesNothing(opens, s, s', node);
    }
  }

  /** A turn of a reset, carried out to its end. */
  lemma {:induction false} ResetTurnSettles(opens: Address -> Content, stamp: Stamp, inScope: Path -> bool, s0: State, s': State, m: Meta, mid: State)
    requires s0.queue != [] && Inv(opens, stamp, s0, {}) && Converging(inScope, s0) && s0.vanished == map[]
    requires MeasuredAt(Popped(s0), s0.queue[0].path, m) && s0.taken <= s'.taken
    requires ResetDone(opens, stamp, Popped(s0), s', s0.queue[0].path, m, mid)
    ensures Converging(inScope, s')
  {
    hide Inv, Current, AllButOne, AllButQueued, ResetDone, Unrecorded;
    if s'.taken == {} {
      var s, x := Popped(s0), s0.queue[0].path;
      PopKeeps(opens, stamp, s0, m);
      HeadIsNotQueued(opens, stamp, s0, m);
      PoppedIsAllButOne(inScope, s0);
      AllButOneHas(inScope, s, x);
      ResetSettles(opens, stamp, inScope, s, s', x, m, mid);
    }
  }

  // ----- what vanished ----------------------------------------------------------------------------------

  ghost predicate InLists(vanished: map<Content, seq<Vanished>>, p: Path) {
    exists c, v :: c in vanished && v in vanished[c] && v.path == p
  }

  /** Every path of the ledger in scope whose file is not there is in the lists. */
  ghost predicate AllInLists(inScope: Path -> bool, vanished: map<Content, seq<Vanished>>, ledger: map<Path, Known>, here: set<Path>) {
    forall p :: p in ledger && Travels(inScope, p) && p !in here ==> InLists(vanished, p)
  }

  /** Every entry whose file was not there is still in the lists, or its node has been sent elsewhere. */
  ghost predicate NoneForgotten(inScope: Path -> bool, s: State) {
    forall p :: p in s.given.ledger && Travels(inScope, p) && p !in s.given.listed ==> InLists(s.vanished, p) || Sent(p) in s.sent
  }

  lemma {:induction false} BegunForgetsNone(inScope: Path -> bool, s: State, listed: set<Path>, walked: map<Path, ServerNode>,
                                            start: map<Path, Content>)
    requires AllInLists(inScope, s.vanished, s.ledger, listed)
    ensures NoneForgotten(inScope, Begun(s, listed, walked, start))
  {
  }

  lemma {:induction false} SameListsForgetNone(inScope: Path -> bool, s: State, s': State)
    requires NoneForgotten(inScope, s) && s'.given == s.given && s'.vanished == s.vanished && s.sent.Keys <= s'.sent.Keys
    ensures NoneForgotten(inScope, s')
  {
  }

  /** A list claimed is of the one entry whose node has been moved. */
  lemma {:induction false} MovedForgetsNone(inScope: Path -> bool, s: State, s': State, x: Path, m: Meta, source: Vanished)
    requires NoneForgotten(inScope, s) && m.plainHash in s.vanished && s.vanished[m.plainHash] == [source]
    requires MovedStep(Claimed(s, m.plainHash, {}), s', x, m, source)
    ensures NoneForgotten(inScope, s')
  {
    MovedLists(s, s', x, m, source);
    forall p | p in s'.given.ledger && Travels(inScope, p) && p !in s'.given.listed ensures InLists(s'.vanished, p) || Sent(p) in s'.sent {
      if Sent(p) !in s.sent && p != source.path {
        var c, v :| c in s.vanished && v in s.vanished[c] && v.path == p;
        assert c in s'.vanished && v in s'.vanished[c];
      }
    }
  }

  lemma {:induction false} MovedLists(s: State, s': State, x: Path, m: Meta, source: Vanished)
    requires MovedStep(Claimed(s, m.plainHash, {}), s', x, m, source)
    ensures s'.given == s.given && s'.vanished == s.vanished - {m.plainHash} && s'.sent == s.sent[Sent(source.path) := x]
  {
  }

  lemma {:induction false} BothLists(opens: Address -> Content, s: State, x: Path, node: NodeId, address: Address, item: Item, e: Known)
    requires x in s.disk
    ensures Recorded(SetAside(opens, Placed(s, x, item.path), x, node, address, item), x, e).vanished == s.vanished
  {
  }

  lemma {:induction false} ConflictLists(opens: Address -> Content, stamp: Stamp, s: State, s': State, x: Path, onServer: ServerNode)
    requires ConflictDone(opens, stamp, s, s', x, onServer)
    ensures s'.vanished == s.vanished
  {
    hide Placed, SetAside, Recorded;
    if MatchStep(opens, s, s', x, onServer) {
      RecordedOnlyAt(s, x, s'.ledger[x]);
    } else {
      BothLists(opens, s, x, onServer.nodeId, onServer.address.value, s'.queue[|s'.queue| - 1], s'.ledger[x]);
    }
  }

  lemma {:induction false} EditLists(opens: Address -> Content, stamp: Stamp, s: State, s': State, x: Path, m: Meta, base: Base,
                                     nodeId: NodeId, current: ServerNode)
    requires EditSettled(opens, stamp, s, s', x, m, base, nodeId, current)
    ensures s'.vanished == s.vanished
  {
    hide LandedStep, MatchStep, KeepBothStep;
    if LandedStep(opens, s, s', x, m, base, nodeId) {
      LandedOnlyAt(opens, s, s', x, m, base, nodeId);
    } else {
      ConflictLists(opens, stamp, Answered(s, s'.shown), s', x, current);
    }
  }

  lemma {:induction false} ArriveLists(caseOnly: bool, s: State, s': State, x: Path, m: Meta, known: Known, movedTo: ServerNode)
    requires ArriveStep(caseOnly, s, s', x, m, known, movedTo) && x != movedTo.path
    ensures s'.vanished == s.vanished
  {
    hide RenamedInPlace, Departed, Placed, Recorded, Forgotten;
    var to := movedTo.path;
    var there := if caseOnly then RenamedInPlace(s, x, to) else Departed(Placed(s, x, to), x, to);
    ThereIs(caseOnly, s, x, to);
    EntryThere(there, x, to, s'.ledger[to]);
  }

  lemma {:induction false} QuietLists(opens: Address -> Content, stamp: Stamp, d: Decision, s: State, s': State, x: Path, m: Meta)
    requires !Sends(d) && Fits(s, x, m, d) && QuietDone(opens, stamp, d, s, s', x, m)
    ensures s'.vanished == s.vanished
  {
    hide PulledStep, ConflictDone, Recorded, Forgotten, Deleted;
    match d
    case Nothing =>
    case RefreshHint =>
      RecordedOnlyAt(s, x, s.ledger[x].(hint := Some(Hint(m.mtime, m.size))));
    case Pull(node) =>
      PulledOnlyAt(opens, s, s', node);
    case Adopt(_) =>
      RecordedOnlyAt(s, x, s'.ledger[x]);
    case Conflict(onServer) =>
      ConflictLists(opens, stamp, s, s', x, onServer);
    case RemoveLocal =>
      RemovedOnlyAt(s, x, s.ledger[x].nodeId);
  }

  /** A turn carried out to its end claims a list only for the node it moves. */
  lemma {:induction false} TurnForgetsNone(opens: Address -> Content, stamp: Stamp, inScope: Path -> bool, caseOnly: (Path, Path) -> bool,
                                           d: Decision, s: State, s': State, x: Path, m: Meta, mid: State, current: ServerNode)
    requires NoneForgotten(inScope, s) && Fits(s, x, m, d) && s'.given == s.given && s.sent.Keys <= s'.sent.Keys
    requires TurnDone(opens, stamp, caseOnly, d, s, s', x, m, mid, current)
    ensures NoneForgotten(inScope, s')
  {
    hide NoneForgotten, EditSettled, MovedStep, NewStep, QuietDone, ArriveStep;
    if d.PushMove? {
      MovedForgetsNone(inScope, s, s', x, m, d.source);
    } else {
      match d {
        case PushEdit(known, onServer) =>
          EditLists(opens, stamp, s, s', x, m, BaseOf(s.policy.preferLocal, known, onServer), onServer.nodeId, current);
        case RemoteRename(known, movedTo) =>
          ArriveLists(caseOnly(x, movedTo.path), s, mid, x, m, known, movedTo);
          if known.plainHash != m.plainHash {
            EditLists(opens, stamp, mid, s', movedTo.path, m, BaseOf(s.policy.preferLocal, known, movedTo), movedTo.nodeId, current);
          }
        case PushNew =>
          NewOnlyAt(opens, s, s', x, m);
        case _ =>
          QuietLists(opens, stamp, d, s, s', x, m);
      }
      SameListsForgetNone(inScope, s, s');
    }
  }

  /** A whole turn forgets none. */
  lemma {:induction false} ForgetsNoneOn(opens: Address -> Content, stamp: Stamp, inScope: Path -> bool, caseOnly: (Path, Path) -> bool,
                                         s: State, s': State, s2: State, r: Option<Meta>, mid: State, current: ServerNode)
    requires Walking(opens, stamp, s) && s.queue != [] && NoneForgotten(inScope, s) && r.Some?
    requires TurnDone(opens, stamp, caseOnly, Decide(SituationOf(Popped(s), s.queue[0].path, r.value)), Popped(s), s', s.queue[0].path, r.value,
                      mid, current)
    requires Later(s, s2) && s2 == s'.(carried := s2.carried)
    ensures NoneForgotten(inScope, s2)
  {
    hide Walking, Turn, TurnDone, Fits, Decide, NoneForgotten;
    WholeTurnFits(opens, stamp, s, r.value);
    SameListsForgetNone(inScope, s, Popped(s));
    TurnForgetsNone(opens, stamp, inScope, caseOnly, Decide(SituationOf(Popped(s), s.queue[0].path, r.value)), Popped(s), s',
                    s.queue[0].path, r.value, mid, current);
    SameListsForgetNone(inScope, s', s2);
  }

  // ----- what is left on either side ------------------------------------------------------------------------

  /** Where deletions are pushed, the node of every entry whose file was gone is no longer at its path, or the pass
      has sent it elsewhere. */
  ghost predicate AllGone(inScope: Path -> bool, s: State) {
    s.policy.pushDeletes ==> forall p :: p in s.given.ledger && Travels(inScope, p) && p !in s.given.listed ==>
      Sent(p) in s.sent || NotAt(s.byNodeId, s.given.ledger[p].nodeId, p)
  }

  predicate NotAt(byNodeId: map<NodeId, ServerNode>, n: NodeId, p: Path) {
    n in byNodeId ==> byNodeId[n].path != p
  }

  lemma {:induction false} StillNotAt(before: map<NodeId, ServerNode>, now: map<NodeId, ServerNode>, n: NodeId, p: Path)
    requires NotAt(before, n, p) && forall k :: k in now ==> k in before && now[k] == before[k]
    ensures NotAt(now, n, p)
  {
  }

  /** Every server file in scope is here, or at a path the pass has handled. */
  ghost predicate AllHere(opens: Address -> Content, inScope: Path -> bool, s: State) {
    forall p :: p in s.tree && Travels(inScope, p) && p !in s.handled ==> Arrived(opens, s.disk, s.tree[p], p)
  }

  /** What is still in the lists of a walk that is over. */
  ghost predicate ListsGone(vanished: map<Content, seq<Vanished>>, byNodeId: map<NodeId, ServerNode>) {
    forall c, v :: c in vanished && v in vanished[c] ==> NotAt(byNodeId, v.nodeId, v.path)
  }

  lemma {:induction false} NoneForgottenIsGone(inScope: Path -> bool, s: State, s': State)
    requires NoneForgotten(inScope, s) && Collected(s) && s'.given == s.given && s'.sent == s.sent && s'.policy == s.policy
    requires s.policy.pushDeletes ==> ListsGone(s.vanished, s'.byNodeId)
    ensures AllGone(inScope, s')
  {
    if s.policy.pushDeletes {
      forall p | p in s.given.ledger && Travels(inScope, p) && p !in s.given.listed && Sent(p) !in s.sent
        ensures NotAt(s'.byNodeId, s.given.ledger[p].nodeId, p)
      {
        var c, v :| c in s.vanished && v in s.vanished[c] && v.path == p;
        assert NotAt(s'.byNodeId, v.nodeId, v.path);
      }
    }
  }
}
