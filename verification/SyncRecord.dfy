/** The record of a pass: that each change to the disk keeps it, and what any such record says. */
module SyncRecord {
  import opened Reconcile
  import opened SyncState

  // ----- one change more --------------------------------------------------------------------------

  /** The record with one snapshot more, and what the snapshot was made under. */
  ghost predicate Extended(s: State, s': State, op: Op) {
    && s'.given == s.given && s'.policy == s.policy && s'.told == s.told && s'.sent == s.sent && s'.puts == s.puts
    && s'.shown == s.shown && s'.held == s.held && s'.carried == s.carried
    && s'.past == s.past + [Snapshot(s'.disk, s'.trail, s'.taken, op)] && s'.stood == s.stood + s'.disk.Keys
    && s'.taken == TakenWith(s.taken, op) && s'.seen <= s.seen + s'.disk.Values
  }

  lemma {:induction false} WarrantedStill(opens: Address -> Content, stamp: Stamp, s: State, s': State, before: Snapshot, op: Op)
    requires s'.given == s.given && s'.policy == s.policy && s.told <= s'.told && s.shown <= s'.shown && s.sent.Keys <= s'.sent.Keys
    requires Warranted(opens, stamp, s, before, op)
    ensures Warranted(opens, stamp, s', before, op)
  {
  }

  lemma {:induction false} RecountedOneMore(opens: Address -> Content, s: State, s': State, op: Op)
    requires Recounted(opens, s) && Extended(s, s', op) && Follows(opens, Last(s.past), Last(s'.past))
    ensures Recounted(opens, s')
  {
    forall i | 0 < i < |s'.past| ensures Follows(opens, s'.past[i - 1], s'.past[i]) {
      if i < |s.past| {
        assert s'.past[i - 1] == s.past[i - 1] && s'.past[i] == s.past[i];
      }
    }
  }

  lemma {:induction false} WarrantedOneMore(opens: Address -> Content, stamp: Stamp, s: State, s': State, op: Op)
    requires AllWarranted(opens, stamp, s) && Extended(s, s', op) && s.past != [] && Warranted(opens, stamp, s, Last(s.past), op)
    ensures AllWarranted(opens, stamp, s')
  {
    forall i | 0 < i < |s'.past| ensures Warranted(opens, stamp, s', s'.past[i - 1], s'.past[i].op) {
      if i < |s.past| {
        assert s'.past[i - 1] == s.past[i - 1] && s'.past[i] == s.past[i];
        WarrantedStill(opens, stamp, s, s', s.past[i - 1], s.past[i].op);
      } else {
        WarrantedStill(opens, stamp, s, s', Last(s.past), op);
      }
    }
  }

  lemma {:induction false} StoodStill(ledger: map<Path, Known>, past: seq<Snapshot>, more: Snapshot, n: nat, p: Path)
    requires n <= |past| && StoodIn(ledger, past, n, p)
    ensures StoodIn(ledger, past + [more], n, p) && StoodIn(ledger, past + [more], |past| + 1, p)
  {
    if p !in ledger {
      var j :| 0 <= j < n && j < |past| && p in past[j].disk;
      assert (past + [more])[j] == past[j];
    }
  }

  lemma {:induction false} TakenStill(past: seq<Snapshot>, more: Snapshot, p: Path)
    requires WasTaken(past, p)
    ensures WasTaken(past + [more], p)
  {
    var i :| 0 < i < |past| && Taken(past[i].op) && past[i].op.to == p;
    assert (past + [more])[i] == past[i];
  }

  lemma {:induction false} SeenStill(past: seq<Snapshot>, more: Snapshot, c: Content)
    requires SeenIn(past, c) || c in more.disk.Values
    ensures SeenIn(past + [more], c)
  {
    if SeenIn(past, c) {
      var j :| 0 <= j < |past| && c in past[j].disk.Values;
      assert (past + [more])[j] == past[j];
    } else {
      assert (past + [more])[|past|] == more;
    }
  }

  lemma {:induction false} WitnessedOneMore(s: State, s': State, op: Op)
    requires Witnessed(s) && Extended(s, s', op) && s.past != [] && (Taken(op) ==> op.to in s.stood)
    ensures Witnessed(s')
  {
    var n, more := |s.past|, Last(s'.past);
    assert s'.past[n] == more && s'.past == s.past + [more];
    forall p | p in s'.stood ensures StoodIn(s.given.ledger, s'.past, n + 1, p) {
      if p in s.stood {
        StoodStill(s.given.ledger, s.past, more, n, p);
      } else {
        assert p in s'.past[n].disk;
      }
    }
    forall i | 0 < i < |s'.past| && Taken(s'.past[i].op)
      ensures s'.past[i].op.to in s'.taken && StoodIn(s.given.ledger, s'.past, i, s'.past[i].op.to)
    {
      if i < n {
        assert s'.past[i] == s.past[i];
        StoodStill(s.given.ledger, s.past, more, i, s.past[i].op.to);
      } else {
        StoodStill(s.given.ledger, s.past, more, n, op.to);
      }
    }
    forall p | p in s'.taken ensures WasTaken(s'.past, p) {
      if p in s.taken {
        TakenStill(s.past, more, p);
      } else {
        assert Taken(s'.past[n].op) && s'.past[n].op.to == p;
      }
    }
    forall c | c in s'.seen && c !in s'.given.seen ensures SeenIn(s'.past, c) {
      SeenStill(s.past, more, c);
    }
  }

  lemma {:induction false} StoodAtStill(past: seq<Snapshot>, past': seq<Snapshot>, p: Path, c: Content)
    requires StoodAt(past, p, c) && past <= past'
    ensures StoodAt(past', p, c)
  {
    var j :| 0 <= j < |past| && p in past[j].disk && past[j].disk[p] == c;
    assert past'[j] == past[j];
  }

  lemma {:induction false} RightlySentStill(opens: Address -> Content, s: State, s': State, k: Sending)
    requires s'.given == s.given && s.past <= s'.past && s.shown <= s'.shown
    requires k in s.sent && k in s'.sent && s'.sent[k] == s.sent[k] && RightlySent(opens, s, k)
    ensures RightlySent(opens, s', k)
  {
    match k
    case Made(n) =>
      var a :| MadeFrom(opens, s, n, a, s.sent[k]);
      StoodAtStill(s.past, s'.past, s.sent[k], opens(a));
      assert MadeFrom(opens, s', n, a, s'.sent[k]);
    case Sent(from) =>
      StoodAtStill(s.past, s'.past, s.sent[k], s.given.ledger[from].plainHash);
  }

  lemma {:induction false} AllSentStill(opens: Address -> Content, s: State, s': State)
    requires AllRightlySent(opens, s) && s'.given == s.given && s.past <= s'.past && s.shown <= s'.shown && s'.sent == s.sent
    ensures AllRightlySent(opens, s')
  {
    hide RightlySent;
    forall k | k in s'.sent ensures RightlySent(opens, s', k) {
      RightlySentStill(opens, s, s', k);
    }
  }

  lemma {:induction false} SentOnStill(opens: Address -> Content, s: State, s': State, put: Put)
    requires SentOn(opens, s, put) && s'.given == s.given && s'.policy == s.policy && s.past <= s'.past && s.told <= s'.told
    requires s.held <= s'.held && s.carried <= s'.carried && s.shown <= s'.shown && s.sent.Keys <= s'.sent.Keys && s.taken <= s'.taken
    ensures SentOn(opens, s', put)
  {
    hide StoodAt;
    assert s'.past[..put.why.past] == s.past[..put.why.past];
    var p :| SentFrom(opens, s, put, p);
    assert SentFrom(opens, s', put, p);
    assert Stated(s) <= Stated(s');
    assert forall q :: Knows(s, put.nodeId, q) ==> Knows(s', put.nodeId, q);
  }

  lemma {:induction false} InTurnStill(opens: Address -> Content, s: State, s': State)
    requires AllInTurn(opens, s) && s'.given == s.given && s'.policy == s.policy && s.past <= s'.past && s'.puts == s.puts
    requires s.told <= s'.told && s.held <= s'.held && s.carried <= s'.carried && s.shown <= s'.shown
    requires s.sent.Keys <= s'.sent.Keys && s.taken <= s'.taken
    ensures AllInTurn(opens, s')
  {
    hide SentOn;
    forall i | s'.given.puts <= i < |s'.puts| ensures SentOn(opens, s', s'.puts[i]) {
      SentOnStill(opens, s, s', s.puts[i]);
    }
  }

  lemma {:induction false} OneMore(opens: Address -> Content, stamp: Stamp, s: State, s': State, op: Op)
    requires Chronicle(opens, stamp, s) && Extended(s, s', op)
    requires Follows(opens, Last(s.past), Snapshot(s'.disk, s'.trail, s'.taken, op)) && Warranted(opens, stamp, s, Last(s.past), op)
    requires Taken(op) ==> op.to in s.stood
    ensures Chronicle(opens, stamp, s')
  {
    hide Recounted, AllWarranted, Witnessed, AllRightlySent, AllInTurn, Follows, Warranted;
    PastIs(opens, s);
    RecountedOneMore(opens, s, s', op);
    WarrantedOneMore(opens, stamp, s, s', op);
    WitnessedOneMore(s, s', op);
    AllSentStill(opens, s, s');
    InTurnStill(opens, s, s');
  }

  lemma {:induction false} PastIs(opens: Address -> Content, s: State)
    requires Recounted(opens, s)
    ensures s.past != [] && Last(s.past).disk == s.disk && Last(s.past).trail == s.trail && Last(s.past).taken == s.taken
    ensures s.past[0].disk == s.given.disk
  {
  }

  /** Nothing about the disk and its record has changed; what the pass knows has grown. */
  ghost predicate SameDisk(s: State, s': State) {
    && s'.given == s.given && s'.policy == s.policy && s.told <= s'.told && s.shown <= s'.shown && s.held <= s'.held
    && s'.disk == s.disk && s'.trail == s.trail && s'.past == s.past && s'.stood == s.stood && s'.taken == s.taken
    && s'.seen == s.seen && s.carried <= s'.carried && s.sent.Keys <= s'.sent.Keys
  }

  lemma {:induction false} ChronicleWith(opens: Address -> Content, stamp: Stamp, s: State, s': State)
    requires DiskSafe(opens, stamp, s) && SameDisk(s, s') && AllRightlySent(opens, s') && AllInTurn(opens, s')
    ensures DiskSafe(opens, stamp, s')
  {
    hide Warranted, AllRightlySent, AllInTurn;
    forall i | 0 < i < |s'.past| ensures Warranted(opens, stamp, s', s'.past[i - 1], s'.past[i].op) {
      WarrantedStill(opens, stamp, s, s', s.past[i - 1], s.past[i].op);
    }
  }

  /** What the pass is told later takes nothing back. */
  lemma {:induction false} ChronicleStays(opens: Address -> Content, stamp: Stamp, s: State, s': State)
    requires DiskSafe(opens, stamp, s) && SameDisk(s, s') && s'.sent == s.sent && s'.puts == s.puts
    ensures DiskSafe(opens, stamp, s')
  {
    hide Kept, Recounted, AllWarranted, Witnessed, AllRightlySent, AllInTurn;
    AllSentStill(opens, s, s');
    InTurnStill(opens, s, s');
    ChronicleWith(opens, stamp, s, s');
  }

  /** Nor what it sends. */
  lemma {:induction false} ChronicleSends(opens: Address -> Content, stamp: Stamp, s: State, s': State, k: Sending, p: Path)
    requires DiskSafe(opens, stamp, s) && SameDisk(s, s') && s'.puts == s.puts
    requires k !in s.sent && s'.sent == s.sent[k := p] && RightlySent(opens, s', k)
    ensures DiskSafe(opens, stamp, s')
  {
    hide Kept, Recounted, AllWarranted, Witnessed, AllInTurn, RightlySent;
    forall j | j in s'.sent ensures RightlySent(opens, s', j) {
      if j != k {
        RightlySentStill(opens, s, s', j);
      }
    }
    InTurnStill(opens, s, s');
    ChronicleWith(opens, stamp, s, s');
  }

  /** A write is sent on what there is to go by, of what is on disk. */
  lemma {:induction false} ChroniclePuts(opens: Address -> Content, stamp: Stamp, s: State, put: Put, p: Path)
    requires DiskSafe(opens, stamp, s) && put.why == GroundsOf(s, put.why.named)
    requires (put.nodeId, p) in s.told && p in s.disk && s.disk[p] == opens(put.address)
    requires !put.why.preferLocal ==> NewsAt(opens, s, put.nodeId, opens(put.address), put.why)
    ensures DiskSafe(opens, stamp, WithPut(s, put))
  {
    hide Kept, AllWarranted, AllRightlySent;
    var s' := WithPut(s, put);
    AllSentStill(opens, s, s');
    assert SentOn(opens, s', put) by {
      assert s'.past[..|s.past|] == s.past;
      assert Last(s.past).disk == s.disk;
      assert SentFrom(opens, s', put, p);
      assert Stated(s') == Stated(s);
      assert forall q :: Knows(s, put.nodeId, q) ==> Knows(s', put.nodeId, q);
    }
    hide SentOn, Recounted;
    forall i | s'.given.puts <= i < |s'.puts| ensures SentOn(opens, s', s'.puts[i]) {
      if i < |s.puts| {
        SentOnStill(opens, s, s', s.puts[i]);
      }
    }
    ChronicleWith(opens, stamp, s, s');
  }

  // ----- what each change keeps -------------------------------------------------------------------

  /** Whoever a change does not give up is on disk at the end of its trail after it. */
  lemma {:induction false} FollowsKeeps(opens: Address -> Content, a: Snapshot, b: Snapshot, start: map<Path, Content>)
    requires Kept(a.disk, a.trail, start) && Follows(opens, a, b)
    ensures Kept(b.disk, b.trail, start)
  {
    match b.op
    case Beside(from, to, taken) =>
    case Over(path, _, _, to) =>
    case Left(path, to) =>
    case Gone(path, _) =>
    case Moved(from, to, taken) =>
  }

  lemma {:induction false} NobodyStays(trail: map<Path, seq<Path>>, p: Path)
    requires Nobody(trail, p)
    ensures Relocated(trail, p, p) == trail
  {
  }

  /** What is not free has stood. */
  lemma {:induction false} UsedHasStood(s: State, to: Path)
    requires Witnessed(s) && InUse(s) && !Free(s, to)
    ensures to in s.stood
  {
  }

  /** A copy keeps the record, with nobody given up unless its destination was not free. */
  lemma {:induction false} PlacedIsSafe(opens: Address -> Content, stamp: Stamp, s: State, from: Path, to: Path)
    requires DiskSafe(opens, stamp, s) && InUse(s) && from in s.disk && from != to && LeadsTo(stamp, s, s.taken, from, to)
    ensures DiskSafe(opens, stamp, Placed(s, from, to))
  {
    hide AllWarranted, Witnessed, AllRightlySent, AllInTurn, InUse, LeadsTo;
    var s' := Placed(s, from, to);
    if !Free(s, to) {
      UsedHasStood(s, to);
    }
    OneMore(opens, stamp, s, s', Beside(from, to, !Free(s, to)));
    FollowsKeeps(opens, Last(s.past), Last(s'.past), s.given.start);
  }

  /** A path may be overwritten once its content is at the next place of its trail, or where nobody's is. */
  lemma {:induction false} ReplacedIsSafe(opens: Address -> Content, stamp: Stamp, s: State, path: Path, node: NodeId, address: Address, to: Path)
    requires DiskSafe(opens, stamp, s) && Spared(Last(s.past), path, to)
    requires Warranted(opens, stamp, s, Last(s.past), Over(path, node, address, to))
    ensures DiskSafe(opens, stamp, Replaced(opens, s, path, node, address, to))
  {
    var s' := Replaced(opens, s, path, node, address, to);
    assert s'.disk[path] == opens(address);
    OneMore(opens, stamp, s, s', Over(path, node, address, to));
    FollowsKeeps(opens, Last(s.past), Last(s'.past), s.given.start);
  }

  lemma {:induction false} RemovedIsSafe(opens: Address -> Content, stamp: Stamp, s: State, path: Path, to: Path)
    requires DiskSafe(opens, stamp, s) && path != to && Spared(Last(s.past), path, to) && LeadsTo(stamp, s, s.taken, path, to)
    ensures DiskSafe(opens, stamp, Removed(s, path, to))
  {
    var s' := Removed(s, path, to);
    OneMore(opens, stamp, s, s', Left(path, to));
    FollowsKeeps(opens, Last(s.past), Last(s'.past), s.given.start);
  }

  lemma {:induction false} DeletedIsSafe(opens: Address -> Content, stamp: Stamp, s: State, path: Path, node: NodeId)
    requires DiskSafe(opens, stamp, s) && Nobody(s.trail, path) && s.policy.applyRemoteDeletes && Absent(s, node, path)
    ensures DiskSafe(opens, stamp, Deleted(s, path, node))
  {
    var s' := Deleted(s, path, node);
    OneMore(opens, stamp, s, s', Gone(path, node));
    FollowsKeeps(opens, Last(s.past), Last(s'.past), s.given.start);
  }

  lemma {:induction false} RenamedIsSafe(opens: Address -> Content, stamp: Stamp, s: State, from: Path, to: Path)
    requires DiskSafe(opens, stamp, s) && InUse(s) && from in s.disk && from != to && LeadsTo(stamp, s, s.taken, from, to)
    ensures DiskSafe(opens, stamp, Renamed(s, from, to))
  {
    hide AllWarranted, Witnessed, AllRightlySent, AllInTurn, InUse, LeadsTo;
    var s' := Renamed(s, from, to);
    if !Free(s, to) {
      UsedHasStood(s, to);
    }
    OneMore(opens, stamp, s, s', Moved(from, to, !Free(s, to)));
    FollowsKeeps(opens, Last(s.past), Last(s'.past), s.given.start);
  }

  // ----- what any record says -----------------------------------------------------------------------

  ghost predicate Trodden(stamp: Stamp, s: State, t: seq<Path>) {
    forall i :: 0 < i < |t| ==> LeadsTo(stamp, s, s.taken, t[i - 1], t[i])
  }

  /** The content that stood at `q` is on disk at the end of a trail that begins there, each step of it to a
      conflict copy, into the quarantine or to where its node is. */
  ghost predicate OnItsWay(stamp: Stamp, s: State, i: nat, q: Path)
    requires i < |s.past|
  {
    var x := s.past[i];
    && q in s.given.start && q in x.trail
    && var t := x.trail[q];
       && t != [] && t[0] == q && Trodden(stamp, s, t)
       && At(t) in x.disk && x.disk[At(t)] == s.given.start[q]
  }

  /** One of the first changes gave it up: a destination that was not free, with this content standing there
      or being what was sent there. */
  ghost predicate GaveUp(past: seq<Snapshot>, i: nat, q: Path) {
    exists j :: 0 < j <= i && j < |past| && Taken(past[j].op) && LeftBy(past[j - 1], past[j].op, q)
  }

  ghost predicate LeftBy(a: Snapshot, op: Op, q: Path)
    requires Taken(op)
  {
    q in a.trail && a.trail[q] != [] && (At(a.trail[q]) == op.from || At(a.trail[q]) == op.to)
  }

  lemma {:induction false} TroddenOnce(stamp: Stamp, s: State, t: seq<Path>, to: Path)
    requires t != [] && Trodden(stamp, s, t) && LeadsTo(stamp, s, s.taken, At(t), to)
    ensures Trodden(stamp, s, t + [to])
  {
    var t' := t + [to];
    forall i | 0 < i < |t'| ensures LeadsTo(stamp, s, s.taken, t'[i - 1], t'[i]) {
      if i < |t| {
        assert t'[i - 1] == t[i - 1] && t'[i] == t[i];
      } else {
        assert t'[i - 1] == At(t) && t'[i] == to;
      }
    }
  }

  /** Where a change takes whoever is at a path. */
  lemma {:induction false} GoesOn(stamp: Stamp, s: State, a: Snapshot, b: Snapshot, path: Path, to: Path, q: Path)
    requires q in a.trail && a.trail[q] != [] && a.trail[q][0] == q && Trodden(stamp, s, a.trail[q])
    requires b.trail == Relocated(a.trail, path, to) && (LeadsTo(stamp, s, s.taken, path, to) || Nobody(a.trail, path))
    ensures q in b.trail && b.trail[q] != [] && b.trail[q][0] == q && Trodden(stamp, s, b.trail[q])
  {
    if At(a.trail[q]) == path {
      TroddenOnce(stamp, s, a.trail[q], to);
      assert b.trail[q] == a.trail[q] + [to];
      assert b.trail[q][0] == a.trail[q][0];
    } else {
      assert b.trail[q] == a.trail[q];
    }
  }

  /** Destinations that were not free stay on record. */
  lemma {:induction false} TakenGrows(opens: Address -> Content, s: State, i: nat)
    requires Recounted(opens, s) && i < |s.past|
    ensures s.past[i].taken <= s.taken
    decreases |s.past| - i
  {
    if i + 1 < |s.past| {
      assert Follows(opens, s.past[i], s.past[i + 1]);
      TakenGrows(opens, s, i + 1);
    }
  }

  lemma {:induction false} LeadsMore(stamp: Stamp, s: State, taken: set<Path>, a: Path, b: Path)
    requires LeadsTo(stamp, s, taken, a, b) && taken <= s.taken
    ensures LeadsTo(stamp, s, s.taken, a, b)
  {
  }

  lemma {:induction false} OnItsWayStill(opens: Address -> Content, stamp: Stamp, s: State, i: nat, q: Path)
    requires Chronicle(opens, stamp, s) && 0 < i < |s.past| && OnItsWay(stamp, s, i - 1, q)
    requires Kept(s.past[i].disk, s.past[i].trail, s.given.start)
    ensures OnItsWay(stamp, s, i, q) || (Taken(s.past[i].op) && LeftBy(s.past[i - 1], s.past[i].op, q))
  {
    var a, b := s.past[i - 1], s.past[i];
    assert Follows(opens, a, b) && Warranted(opens, stamp, s, a, b.op);
    TakenGrows(opens, s, i - 1);
    match b.op
    case Beside(from, to, taken) =>
    case Over(path, _, _, to) =>
      if to != path {
        LeadsMore(stamp, s, a.taken, path, to);
      }
      GoesOn(stamp, s, a, b, path, to, q);
    case Left(path, to) =>
      LeadsMore(stamp, s, a.taken, path, to);
      GoesOn(stamp, s, a, b, path, to, q);
    case Gone(_, _) =>
    case Moved(from, to, taken) =>
      if !taken {
        LeadsMore(stamp, s, a.taken, from, to);
        GoesOn(stamp, s, a, b, from, to, q);
      }
  }

  lemma {:induction false} KeptThroughout(opens: Address -> Content, stamp: Stamp, s: State, i: nat)
    requires Chronicle(opens, stamp, s) && i < |s.past|
    requires forall q :: q in s.given.start ==> q in s.given.disk && s.given.disk[q] == s.given.start[q]
    ensures Kept(s.past[i].disk, s.past[i].trail, s.given.start)
    decreases i
  {
    if i > 0 {
      KeptThroughout(opens, stamp, s, i - 1);
      FollowsKeeps(opens, s.past[i - 1], s.past[i], s.given.start);
    }
  }

  /** At every moment of any pass, every content that had to be kept is on disk at the end of its trail,
      unless a change before it met a destination that was not free, where this very content stood or where
      it was being sent. */
  lemma {:induction false} NothingIsLost(opens: Address -> Content, stamp: Stamp, s: State, i: nat, q: Path)
    requires Chronicle(opens, stamp, s) && i < |s.past| && q in s.given.start
    requires forall q :: q in s.given.start ==> q in s.given.disk && s.given.disk[q] == s.given.start[q]
    ensures OnItsWay(stamp, s, i, q) || GaveUp(s.past, i, q)
    decreases i
  {
    if i > 0 {
      NothingIsLost(opens, stamp, s, i - 1, q);
      KeptThroughout(opens, stamp, s, i);
      if OnItsWay(stamp, s, i - 1, q) {
        OnItsWayStill(opens, stamp, s, i, q);
      }
    }
  }

  /** A pass in which every destination was free keeps everything, at every moment. */
  lemma {:induction false} FreeDestinationsLoseNothing(opens: Address -> Content, stamp: Stamp, s: State, i: nat, q: Path)
    requires Chronicle(opens, stamp, s) && i < |s.past| && q in s.given.start && s.taken == {}
    requires forall q :: q in s.given.start ==> q in s.given.disk && s.given.disk[q] == s.given.start[q]
    ensures OnItsWay(stamp, s, i, q)
  {
    NothingIsLost(opens, stamp, s, i, q);
  }
}
