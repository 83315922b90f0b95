/** A run of two passes, every destination free, in which an accepted write replaces bytes this device never had. */
module SyncUnseen {
  import opened Options
  import opened Reconcile
  import opened SyncState
  import opened SyncSteps
  import opened SyncWalk
  import opened SyncCarry
  import opened SyncEnds
  import opened SyncServer

  const OLD: Path := "a"
  const NEW: Path := "b"

  /** Each address opens to the content of its own number. */
  function Plain(a: Address): Content {
    a
  }

  function NeverOnlyCase(p: Path, q: Path): bool {
    false
  }

  /** The node as this device knows it, and as somebody else has since renamed and edited it. */
  const KNOWN := Known(1, 1, 10, 10, None)
  const MOVED := ServerNode(1, NEW, 2, Some(20), true)
  const CARRIED := Known(1, 2, 10, 20, None)

  /** A device that has synchronised one note. */
  function Synchronised(): State {
    State(map[OLD := 10], map[OLD := KNOWN], PolicyOf(Continuous), map[], map[], map[], map[], map[], {}, [], {},
          Given(map[], {}, map[], map[], map[], {}, {}, {}, 0), map[], [], {}, map[], {}, {}, {}, {}, {10}, {(1, 10)}, [])
  }

  const SHOWN := map[NEW := MOVED]

  /** One file listed and measured, the node where the server shows it. */
  function Gathered(s: State, p: Path, m: Meta): State {
    s.(tree := SHOWN, byNodeId := map[1 := MOVED], meta := map[p := m], handled := {}, queue := [Item(p, m.mtime, m.size)],
       ids := {1})
  }

  const BEFORE := Meta(10, 0, 1)
  const AFTER := Meta(30, 1, 1)

  /** Its next pass, about to walk: the node is at another path, with other bytes. */
  function First(): State {
    Begun(Gathered(Synchronised(), OLD, BEFORE), {OLD}, SHOWN, map[])
  }

  /** The file has followed its node, and the entry names the new address beside the old bytes. */
  function Followed(): State {
    var there := Departed(Placed(Popped(First()), OLD, NEW), OLD, NEW);
    Recorded(Forgotten(there, OLD), NEW, CARRIED)
  }

  /** The pass has ended, and the user edits the note. */
  function Edited(): State {
    Followed().(carried := {(1, 20)}, disk := map[NEW := 30], seen := {10, 30})
  }

  /** The pass after that, about to walk. */
  function Second(): State {
    Begun(Gathered(Edited(), NEW, AFTER), {NEW}, SHOWN, map[NEW := 30])
  }

  /** The write: sent on an entry this device held, of bytes it had never had. */
  ghost function Written(): Put {
    Put(1, Some(20), 30, 0, GroundsOf(Popped(Second()), 10))
  }

  /** The edit has landed on the server, whose head had been bytes nobody here ever saw. */
  ghost function Overwritten(): State {
    Recorded(WithPut(Taking(Popped(Second()), 1, 30), Written()), NEW, Known(1, 3, 30, 30, Some(Hint(1, 1))))
  }

  lemma {:induction false} SynchronisedBooks()
    ensures Books(Plain, Synchronised(), {})
  {
  }

  lemma {:induction false} GatheredIsReady(opens: Address -> Content, s: State, p: Path, m: Meta, start: map<Path, Content>)
    requires forall q :: q in s.ledger ==> s.ledger[q].nodeId == 1
    requires s.disk == map[p := m.plainHash] && s.dedup == map[] && s.vanished == map[] && start.Keys <= {p}
    requires p in start && p in s.ledger ==> s.ledger[p].plainHash != start[p]
    ensures var s1 := Gathered(s, p, m);
            && Resupplied(s, s1) && DedupOk(opens, s1.dedup) && TreeOk(s1.tree, s1.byNodeId) && Indexes(s1.tree, s1.byNodeId)
            && Scanned(s1.disk, s1.meta, s1.vanished) && Listed(s1, {p}, start)
  {
  }

  lemma {:induction false} FirstWalks(stamp: Stamp)
    ensures Walking(Plain, stamp, First())
  {
    hide Walking, Books, Resupplied, Listed, Scanned, Indexes, TreeOk, Gathered;
    SynchronisedBooks();
    GatheredIsReady(Plain, Synchronised(), OLD, BEFORE, map[]);
    GatheredDisk(Synchronised(), OLD, BEFORE);
    ReadyToWalk(Plain, stamp, Synchronised(), Gathered(Synchronised(), OLD, BEFORE), {OLD}, map[]);
  }

  lemma {:induction false} GatheredDisk(s: State, p: Path, m: Meta)
    ensures Gathered(s, p, m).disk == s.disk && Gathered(s, p, m).tree == SHOWN
  {
  }

  lemma {:induction false} FirstDecides()
    ensures First().queue == [Item(OLD, 0, 1)] && First().meta == map[OLD := BEFORE]
    ensures Decide(SituationOf(Popped(First()), OLD, BEFORE)) == RemoteRename(KNOWN, MOVED)
  {
  }

  lemma {:induction false} FirstFollows(stamp: Stamp, current: ServerNode)
    ensures FollowStep(Plain, stamp, false, Popped(First()), Followed(), OLD, BEFORE, KNOWN, MOVED, Followed(), current)
    ensures Followed().taken == {}
  {
  }

  lemma {:induction false} FirstLeaves()
    ensures Mistaken(Plain, Followed(), NEW) && Settled(Plain, Followed(), NEW).carried == {(1, 20)}
  {
  }

  lemma {:induction false} EditedBooks()
    ensures Books(Plain, Edited(), {})
  {
  }

  lemma {:induction false} EditedFields()
    ensures var s := Edited();
            && s.disk == map[NEW := 30] && s.dedup == map[] && s.vanished == map[] && s.ledger == map[NEW := CARRIED]
            && s.seen == {10, 30} && s.policy == PolicyOf(Continuous)
  {
  }

  lemma {:induction false} SecondWalks(stamp: Stamp)
    ensures Walking(Plain, stamp, Second())
  {
    hide Walking, Books, Resupplied, Listed, Scanned, Indexes, TreeOk, Gathered, Edited;
    EditedBooks();
    EditedFields();
    GatheredIsReady(Plain, Edited(), NEW, AFTER, map[NEW := 30]);
    GatheredDisk(Edited(), NEW, AFTER);
    ReadyToWalk(Plain, stamp, Edited(), Gathered(Edited(), NEW, AFTER), {NEW}, map[NEW := 30]);
  }

  lemma {:induction false} SecondDecides()
    ensures Second().queue == [Item(NEW, 1, 1)] && Second().meta == map[NEW := AFTER]
    ensures Decide(SituationOf(Popped(Second()), NEW, AFTER)) == PushEdit(CARRIED, MOVED)
  {
    hide Edited;
    EditedFields();
  }

  lemma {:induction false} SecondPushes()
    ensures LandedStep(Plain, Popped(Second()), Overwritten(), NEW, AFTER, Base(Some(20), 10), 1)
    ensures Overwritten().taken == {} && Overwritten().seen == {10, 30} && Written() in Overwritten().puts
    ensures !Popped(Second()).policy.preferLocal
  {
    hide Edited;
    EditedFields();
  }

  /** Two passes over one synchronised note, every destination free. Between the device's first pass and its
      second the note was renamed and edited elsewhere; the first follows the rename, and its entry names the
      address of the other edit beside the old bytes. The user edits the note; the second pass pushes that
      against the address in the entry, which is the head, so the server accepts it. The bytes it replaced
      were never on this device's disk, and no copy of them was made. */
  lemma {:induction false} UnseenBytesReplaced(stamp: Stamp, mid: State, current: ServerNode)
    ensures Walking(Plain, stamp, First()) && First().queue == [Item(OLD, 0, 1)]
    ensures Handled(Plain, stamp, NeverOnlyCase, Popped(First()), Followed(), OLD, Some(BEFORE), Followed(), current)
    ensures Settled(Plain, Followed(), NEW).carried == {(1, 20)}
    ensures Walking(Plain, stamp, Second()) && Second().queue == [Item(NEW, 1, 1)]
    ensures Handled(Plain, stamp, NeverOnlyCase, Popped(Second()), Overwritten(), NEW, Some(AFTER), mid, current)
    ensures Lands([map[1 := Some(20)], map[1 := Some(30)]], Written()) && Written() in Overwritten().puts
    ensures Followed().taken == Overwritten().taken == {} && Plain(Written().base.value) !in Overwritten().seen
  {
    hide Walking, Handled, Mistaken, Settled, First, Second, Followed, Overwritten, Lands;
    WrittenLands();
    FirstWalks(stamp);
    FirstHandled(stamp, current);
    FirstLeaves();
    SecondWalks(stamp);
    SecondHandled(stamp, mid, current);
  }

  lemma {:induction false} WrittenLands()
    ensures Lands([map[1 := Some(20)], map[1 := Some(30)]], Written())
  {
    hide Second, GroundsOf, Popped;
  }

  lemma {:induction false} FirstHandled(stamp: Stamp, current: ServerNode)
    ensures Handled(Plain, stamp, NeverOnlyCase, Popped(First()), Followed(), OLD, Some(BEFORE), Followed(), current)
    ensures First().queue == [Item(OLD, 0, 1)] && Followed().taken == {}
  {
    hide Decide, First, Followed, FollowStep;
    FirstDecides();
    FirstFollows(stamp, current);
  }

  lemma {:induction false} SecondHandled(stamp: Stamp, mid: State, current: ServerNode)
    ensures Handled(Plain, stamp, NeverOnlyCase, Popped(Second()), Overwritten(), NEW, Some(AFTER), mid, current)
    ensures Second().queue == [Item(NEW, 1, 1)]
    ensures Overwritten().taken == {} && Overwritten().seen == {10, 30} && Written() in Overwritten().puts
  {
    hide Decide, Second, Overwritten, LandedStep, MismatchStep;
    SecondDecides();
    SecondPushes();
  }
}
