/** One pass of the sync engine over a vault, against a server that other devices write to at any moment. Every
    request and every disk operation may fail. */
module SyncPass {
  import opened Options
  import opened Reconcile
  import opened SyncState
  import opened SyncSteps
  import opened SyncWalk
  import opened SyncProgress
  import opened SyncCarry
  import opened SyncEnds
  import opened SyncServer
  import opened SyncHistory
  import opened SyncSettled

  lemma {:induction false} NothingQueued()
    ensures Queued([]) == {}
  {
  }

  lemma {:induction false} SomeAreQueued(files: seq<Item>, i: nat)
    requires i <= |files|
    ensures Queued(files[..i]) <= Queued(files) && (i == |files| ==> Queued(files[..i]) == Queued(files))
  {
    assert i == |files| ==> files[..i] == files;
  }

  lemma {:induction false} RemovedIs(s: State, path: Path, to: Path)
    ensures Removed(s, path, to) == Logged(s.(disk := s.disk - {path}, trail := Relocated(s.trail, path, to)), Left(path, to))
  {
    hide Logged, Relocated;
  }

  lemma {:induction false} RenamedIs(s: State, from: Path, to: Path)
    requires from in s.disk
    ensures Renamed(s, from, to) == Logged(s.(disk := (s.disk - {from})[to := s.disk[from]],
                                              trail := if Free(s, to) then Relocated(s.trail, from, to) else GivenUp(s.trail, from, to)),
                                           Moved(from, to, !Free(s, to)))
  {
    hide Logged, Relocated, GivenUp, Free;
  }

  lemma {:induction false} NothingMade(opens: Address -> Content, s: State, x: Path, m: Meta)
    ensures PushNewStep(opens, s, s, x, m)
  {
  }

  lemma {:induction false} BothKept(opens: Address -> Content, stamp: Stamp, s: State, s': State, x: Path, onServer: ServerNode, copy: Path)
    requires x in s.disk && onServer.address.Some? && s.disk[x] != opens(onServer.address.value) && copy == CopyOf(stamp, x)
    requires x in s'.ledger && Bound(s'.ledger[x], onServer, opens(onServer.address.value))
    requires s'.queue != [] && s'.queue[|s'.queue| - 1].path == copy
    requires var over := Replaced(opens, Placed(s, x, copy), x, onServer.nodeId, onServer.address.value, copy);
             s' == Recorded(over.(queue := over.queue + [s'.queue[|s'.queue| - 1]]), x, s'.ledger[x])
    ensures KeepBothStep(opens, stamp, s, s', x, onServer)
  {
    hide Placed, Replaced, Recorded, CopyOf;
  }

  lemma {:induction false} NodeMadeIs(opens: Address -> Content, s: State, x: Path, m: Meta, e: Known)
    requires x in s.disk && opens(e.address) == s.disk[x] && Measured(e, m)
    requires e.nodeId !in s.byNodeId && e.nodeId !in s.ids
    ensures var s' := Planted(Recorded(Taking(s, e.nodeId, e.address), x, e), ServerNode(e.nodeId, x, e.rev, Some(e.address), true));
            PushNewStep(opens, s, s', x, m) && s'.puts == s.puts && s'.shown == s.shown + {(e.nodeId, e.address)}
  {
  }

  lemma {:induction false} PushMoveIs(s: State, s': State, x: Path, m: Meta, source: Vanished)
    requires var claimed := Claimed(s, m.plainHash, {});
             || s' == claimed || s' == claimed.(handled := claimed.handled + {source.path}) || MovedStep(claimed, s', x, m, source)
    ensures PushMoveStep(s, s', x, m, source)
  {
  }

  lemma {:induction false} NothingPushed(opens: Address -> Content, stamp: Stamp, s: State, x: Path, m: Meta, base: Base,
                                         nodeId: NodeId, current: ServerNode)
    ensures PushEditStep(opens, stamp, s, s, x, m, base, nodeId, current)
  {
  }

  lemma {:induction false} Pushed(opens: Address -> Content, stamp: Stamp, s: State, s': State, x: Path, m: Meta, base: Base,
                                  nodeId: NodeId, current: ServerNode)
    requires MismatchStep(opens, stamp, s, s', x, nodeId, current) || LandedStep(opens, s, s', x, m, base, nodeId)
    ensures PushEditStep(opens, stamp, s, s', x, m, base, nodeId, current)
  {
  }

  lemma {:induction false} LandedIs(opens: Address -> Content, s: State, put: Put, x: Path, m: Meta, base: Base, e: Known)
    requires x in s.disk && Measured(e, m) && opens(e.address) == s.disk[x]
    requires put == Put(e.nodeId, base.address, e.address, put.at, GroundsOf(s, base.named))
    ensures LandedStep(opens, s, Recorded(WithPut(Taking(s, e.nodeId, e.address), put), x, e), x, m, base, e.nodeId)
  {
  }

  lemma {:induction false} MismatchIs(opens: Address -> Content, stamp: Stamp, s: State, shown: set<(NodeId, Address)>, s': State, x: Path,
                                      onServer: ServerNode, answering: ServerNode, theirs: Option<Address>)
    requires ConflictStep(opens, stamp, Answered(s, shown), s', x, answering) && Said(s, onServer) && onServer.path == x
    requires answering == onServer.(address := if theirs.Some? then theirs else onServer.address, rev := answering.rev)
    requires shown == s.shown + if theirs.Some? then {(onServer.nodeId, theirs.value)} else {}
    ensures MismatchStep(opens, stamp, s, s', x, onServer.nodeId, answering) && Silent(Answered(s, shown), s')
  {
    hide ConflictStep;
    ConflictTells(opens, stamp, Answered(s, shown), s', x, answering);
  }

  /** Whatever an answer names, the pass has been told of. */
  lemma {:induction false} FitsSaid(s: State, x: Path, m: Meta, d: Decision)
    requires Informed(s) && TreeOk(s.tree, s.byNodeId) && Fits(s, x, m, d)
    ensures d.PushEdit? ==> Said(s, d.onServer) && d.onServer.path == x
    ensures d.RemoteRename? ==> Said(s, d.movedTo)
    ensures d.Adopt? ==> d.onServer.address.Some?
  {
  }

  lemma {:induction false} SuppliedIsPrepared(s: State, s1: State, epoch: Epoch, listed: set<Path>, start: map<Path, Content>, ok: bool)
    requires s1 == s.(policy := s1.policy, tree := s1.tree, byNodeId := s1.byNodeId, meta := s1.meta, dedup := s1.dedup,
                      vanished := s1.vanished, handled := s1.handled, queue := s1.queue, ledger := s1.ledger, ids := s1.ids)
    requires s1.ledger == (if ok && epoch == Reset then map[] else s.ledger) && CollectedFrom(s1.vanished, s1.ledger)
    requires NodesIn(s.ledger, s1.ids)
    requires start == Unsynchronised(s.disk, if epoch == Reset then map[] else s.ledger, listed) && listed <= s.disk.Keys
    requires ok ==> Distinct(s1.queue) && Queued(s1.queue) == listed && s1.meta.Keys == listed
    ensures Resupplied(s, s1) && (ok ==> Listed(s1, listed, start)) && forall p :: p in start ==> p in s1.disk && s1.disk[p] == start[p]
  {
  }

  /** What a turn's end adds is on the record alone. */
  lemma {:induction false} AfterTurnIs(opens: Address -> Content, s: State, s': State, r: Option<Meta>)
    requires s.queue != []
    ensures AfterTurn(opens, s, s', r) == s'.(carried := AfterTurn(opens, s, s', r).carried)
  {
    hide Mistaken, Decide, Touched;
  }

  /** What must be kept stands on the disk the pass is given. */
  lemma {:induction false} MustKeepStands(s: State, epoch: Epoch, ledger: map<Path, Known>, scope: set<Path>)
    requires s.given.start == Unsynchronised(s.given.disk, if epoch == Reset then map[] else ledger, scope)
    ensures StartStands(s)
  {
  }

  class Device {
    const opens: Address -> Content
    const sizeOf: Content -> nat
    const lower: Path -> Path
    const inScope: Path -> bool
    const stamp: Stamp
    const server: Server

    var disk: map<Path, Content>
    var mtimes: map<Path, int>
    var ledger: map<Path, Known>

    var policy: Policy
    var tree: map<Path, ServerNode>
    var byNodeId: map<NodeId, ServerNode>
    var meta: map<Path, Meta>
    var dedup: map<Content, Address>
    var vanished: map<Content, seq<Vanished>>
    var handled: set<Path>
    var queue: seq<Item>

    // The nodes in the ledger as the pass begins: one the server makes is none of them.
    var ids: set<NodeId>

    // What the pass is judged by; its other fields are those above.
    ghost var judged: State

    // All it has gone through, and what each left it with.
    ghost var history: seq<Chapter>

    // How much of what it has tried has failed: the vault, the server, or a refusal.
    ghost var failures: nat

    /** A device that has never synchronised. */
    constructor (opens: Address -> Content, sizeOf: Content -> nat, lower: Path -> Path, inScope: Path -> bool, stamp: Stamp,
                 server: Server, disk: map<Path, Content>, mtimes: map<Path, int>)
      ensures this.disk == disk && this.mtimes == mtimes && ledger == map[] && judged.puts == [] && this.server == server
      ensures InOrder() && history == [Born(Now())]
    {
      this.opens, this.sizeOf, this.lower, this.inScope := opens, sizeOf, lower, inScope;
      this.stamp, this.server := stamp, server;
      this.disk, this.mtimes, ledger := disk, mtimes, map[];
      policy := PolicyOf(Continuous);
      tree, byNodeId, meta, dedup, vanished := map[], map[], map[], map[], map[];
      handled, queue, ids := {}, [], {};
      judged := State(disk, map[], PolicyOf(Continuous), map[], map[], map[], map[], map[], {}, [], {},
                      Given(map[], {}, map[], map[], map[], {}, {}, {}, 0), map[], [], {}, map[], {}, {}, {}, {}, disk.Values, {}, []);
      history, failures := [Born(judged)], 0;
    }

    ghost function Now(): State
      reads this
    {
      judged.(disk := disk, ledger := ledger, policy := policy, tree := tree, byNodeId := byNodeId, meta := meta, dedup := dedup,
              vanished := vanished, handled := handled, queue := queue, ids := ids)
    }

    /** The books are in order, and all the device has gone through leads to where it is. */
    ghost predicate InOrder()
      reads this, server
    {
      Books(opens, Now(), {}) && Recalled(opens, stamp, history) && HeardRightly(server.ages, history) && Latest(history) == Now()
    }

    // ----- the vault ----------------------------------------------------------------------------

    function MtimeOf(path: Path): int
      reads this`mtimes
    {
      if path in mtimes then mtimes[path] else 0
    }

    /** Something did not work. */
    ghost method Fail(failed: bool)
      modifies this`failures
      ensures failures == old(failures) + if failed then 1 else 0
    {
      failures := failures + if failed then 1 else 0;
    }

    method Read(path: Path) returns (r: Option<Content>)
      modifies this`failures
      ensures r.Some? ==> path in disk && r.value == disk[path]
      ensures failures == old(failures) + if r.Some? then 0 else 1
    {
      var readable: bool := *;
      r := if readable && path in disk then Some(disk[path]) else None;
      Fail(r.None?);
    }

    method Write(path: Path, content: Content) returns (ok: bool)
      modifies this`disk, this`mtimes, this`failures
      ensures disk == if ok then old(disk)[path := content] else old(disk)
      ensures failures == old(failures) + if ok then 0 else 1
    {
      ok := *;
      Fail(!ok);
      if ok {
        var now: int := *;
        disk, mtimes := disk[path := content], mtimes[path := now];
      }
    }

    method Delete(path: Path) returns (ok: bool)
      modifies this`disk, this`failures
      ensures disk == if ok then old(disk) - {path} else old(disk)
      ensures failures == old(failures) + if ok then 0 else 1
    {
      ok := *;
      Fail(!ok);
      if ok {
        disk := disk - {path};
      }
    }

    method Rename(from: Path, to: Path) returns (ok: bool)
      modifies this`disk, this`mtimes, this`failures
      ensures ok ==> from in old(disk) && disk == (old(disk) - {from})[to := old(disk)[from]]
      ensures !ok ==> disk == old(disk)
      ensures failures == old(failures) + if ok then 0 else 1
    {
      ok := *;
      ok := ok && from in disk;
      Fail(!ok);
      if ok {
        disk, mtimes := (disk - {from})[to := disk[from]], mtimes[to := MtimeOf(from)];
      }
    }

    /** What the vault says about a file this device just wrote. */
    method HintFor(path: Path) returns (hint: Option<Hint>)
    {
      hint := if path in disk then Some(Hint(MtimeOf(path), sizeOf(disk[path]))) else None;
    }

    // ----- the server ---------------------------------------------------------------------------

    /** `fetchPlain`: the bytes at a node's address, or a failure. */
    method Fetch(node: ServerNode) returns (r: Option<Content>)
      modifies this`failures
      ensures r.Some? ==> node.address.Some? && r.value == opens(node.address.value)
      ensures failures == old(failures) + if r.Some? then 0 else 1
    {
      var up: bool := *;
      r := if up && node.address.Some? then Some(opens(node.address.value)) else None;
      Fail(r.None?);
    }

    /** `resolveContent`: an address already known to hold these bytes, or a new one sealed and uploaded. */
    method SealOrBind(plain: Content) returns (r: Option<Address>)
      requires DedupOk(opens, dedup)
      modifies this`failures
      ensures r.Some? ==> opens(r.value) == plain
      ensures plain in dedup ==> r == Some(dedup[plain])
      ensures failures == old(failures) + if r.Some? then 0 else 1
    {
      if plain in dedup {
        return Some(dedup[plain]);
      }
      var sealed: Address := *;
      r := if opens(sealed) == plain then Some(sealed) else None;
      Fail(r.None?);
    }

    /** A node the server makes for these bytes; its id is one this device knows no node under. */
    method CreateNode(address: Address) returns (r: NodeAnswer)
      requires server.Valid()
      modifies server, this`failures
      ensures failures == old(failures) + if r.Created? then 0 else 1
      ensures server.Valid() && old(server.ages) <= server.ages && server.log == old(server.log)
      ensures r.Created? ==> r.nodeId !in byNodeId && r.nodeId !in ids
      ensures r.Created? ==> WasHead(server.ages, r.nodeId, address)
    {
      r := server.Create(address);
      if r.Created? && (r.nodeId in byNodeId || r.nodeId in ids) {
        r := Failed;
      }
      Fail(r.Failed?);
    }

    // ----- what happens to a path, and its record -----------------------------------------------------

    /** A change to the disk, with what it left behind, put on the record. */
    ghost method Note(s: State, op: Op)
      requires s == Now().(trail := s.trail, seen := s.seen)
      modifies this`judged
      ensures Now() == Logged(s, op)
    {
      hide TakenWith;
      judged := Logged(s, op);
    }

    /** A file's own content written to another place before it is touched. */
    method WriteBeside(from: Path, to: Path, content: Content) returns (ok: bool)
      requires from in disk && content == disk[from]
      modifies this`disk, this`mtimes, this`judged, this`failures
      ensures failures == old(failures) + if ok then 0 else 1
      ensures Now() == if ok then Placed(old(Now()), from, to) else old(Now())
    {
      ghost var s := Now();
      ok := Write(to, content);
      if ok {
        Note(s.(disk := s.disk[to := s.disk[from]], trail := if Free(s, to) then s.trail else GivenUp(s.trail, from, to)),
             Beside(from, to, !Free(s, to)));
      }
    }

    /** A path written over with a node's bytes, its own content, if anybody's, being at `to` by now. */
    method WriteOver(path: Path, content: Content, node: ServerNode, ghost to: Path) returns (ok: bool)
      requires node.address.Some? && content == opens(node.address.value)
      modifies this`disk, this`mtimes, this`judged, this`failures
      ensures failures == old(failures) + if ok then 0 else 1
      ensures Now() == if ok then Replaced(opens, old(Now()), path, node.nodeId, node.address.value, to) else old(Now())
    {
      ghost var s := Now();
      ok := Write(path, content);
      if ok {
        Note(s.(disk := s.disk[path := content], seen := s.seen + {content}, trail := Relocated(s.trail, path, to)),
             Over(path, node.nodeId, node.address.value, to));
      }
    }

    /** A source deleted, its content being at `to` by now. */
    method DeleteSource(path: Path, ghost to: Path) returns (ok: bool)
      modifies this`disk, this`judged, this`failures
      ensures failures == old(failures) + if ok then 0 else 1
      ensures Now() == if ok then Removed(old(Now()), path, to) else old(Now())
    {
      hide Relocated, Logged, Removed;
      ghost var s := Now();
      ok := Delete(path);
      if ok {
        Note(Now().(trail := Relocated(s.trail, path, to)), Left(path, to));
        RemovedIs(s, path, to);
      }
    }

    /** A file deleted with its node. */
    method DeleteLocal(path: Path, ghost node: NodeId) returns (ok: bool)
      modifies this`disk, this`judged, this`failures
      ensures failures == old(failures) + if ok then 0 else 1
      ensures Now() == if ok then Deleted(old(Now()), path, node) else old(Now())
    {
      ghost var s := Now();
      ok := Delete(path);
      if ok {
        Note(s.(disk := s.disk - {path}), Gone(path, node));
      }
    }

    method RenameLocal(from: Path, to: Path) returns (ok: bool)
      modifies this`disk, this`mtimes, this`judged, this`failures
      ensures failures == old(failures) + if ok then 0 else 1
      ensures ok ==> from in old(disk) && Now() == Renamed(old(Now()), from, to)
      ensures !ok ==> Now() == old(Now())
    {
      hide Relocated, GivenUp, Logged, Renamed, Free;
      ghost var s := Now();
      ok := Rename(from, to);
      if ok {
        Note(Now().(trail := if Free(s, to) then Relocated(s.trail, from, to) else GivenUp(s.trail, from, to)), Moved(from, to, !Free(s, to)));
        RenamedIs(s, from, to);
      }
    }

    method Record(path: Path, entry: Known)
      modifies this`ledger, this`judged
      ensures Now() == Recorded(old(Now()), path, entry)
    {
      ghost var s := Now();
      ledger := ledger[path := entry];
      judged := Recorded(s, path, entry);
    }

    // ----- conflicts ----------------------------------------------------------------------------

    /** `resolveConflict`: the server version takes the path and the local one is kept beside it, unless
        the two are the same bytes after all. Destination first; the copy joins the queue. */
    method ResolveConflict(file: Item, onServer: ServerNode, fetched: Option<Content>)
      requires fetched.Some? ==> onServer.address.Some? && fetched.value == opens(onServer.address.value)
      modifies this`disk, this`mtimes, this`ledger, this`queue, this`judged, this`failures
      ensures old(failures) <= failures && (failures == old(failures) ==> ConflictDone(opens, stamp, old(Now()), Now(), file.path, onServer))
      ensures ConflictStep(opens, stamp, old(Now()), Now(), file.path, onServer)
    {
      var serverPlain := fetched;
      if fetched.None? {
        serverPlain := Fetch(onServer);
      }
      var localPlain := Read(file.path);
      if serverPlain.None? || localPlain.None? {
        return;
      }
      if localPlain == serverPlain {
        var hint := HintFor(file.path);
        Record(file.path, Known(onServer.nodeId, onServer.rev, localPlain.value, onServer.address.value, hint));
        assert MatchStep(opens, old(Now()), Now(), file.path, onServer);
        return;
      }
      KeepBoth(file, onServer, localPlain.value, serverPlain.value);
    }

    method KeepBoth(file: Item, onServer: ServerNode, ours: Content, theirs: Content)
      requires file.path in disk && disk[file.path] == ours && ours != theirs
      requires onServer.address.Some? && opens(onServer.address.value) == theirs
      modifies this`disk, this`mtimes, this`ledger, this`queue, this`judged, this`failures
      ensures old(failures) <= failures && (failures == old(failures) ==> KeepBothStep(opens, stamp, old(Now()), Now(), file.path, onServer))
      ensures ConflictStep(opens, stamp, old(Now()), Now(), file.path, onServer)
    {
      hide Placed, Replaced, Recorded, KeepBothStep, MatchStep, CopyOf, SetAside;
      ghost var s := Now();
      var copy := CopyOf(stamp, file.path);
      var ok := WriteBeside(file.path, copy, ours);
      if !ok {
        return;
      }
      ok := WriteOver(file.path, theirs, onServer, copy);
      if !ok {
        assert CopyStep(stamp, s, Now(), file.path);
        return;
      }
      BothWritten(file, onServer, ours, theirs, copy);
      assert KeepBothStep(opens, stamp, s, Now(), file.path, onServer) by {
        BothKept(opens, stamp, s, Now(), file.path, onServer, copy);
      }
    }

    /** The copy queued, and the entry for what took the path. */
    method BothWritten(file: Item, onServer: ServerNode, ours: Content, theirs: Content, copy: Path)
      requires onServer.address.Some? && opens(onServer.address.value) == theirs
      modifies this`ledger, this`queue, this`judged
      ensures file.path in ledger && Bound(ledger[file.path], onServer, theirs) && queue != [] && queue[|queue| - 1].path == copy
      ensures Now() == Recorded(old(Now()).(queue := old(queue) + [queue[|queue| - 1]]), file.path, ledger[file.path])
    {
      var item := Item(copy, MtimeOf(copy), if copy in disk then sizeOf(disk[copy]) else sizeOf(ours));
      var hint := HintFor(file.path);
      queue := queue + [item];
      Record(file.path, Known(onServer.nodeId, onServer.rev, theirs, onServer.address.value, hint));
    }

    // ----- sending -----------------------------------------------------------------------------

    /** Where the bytes at a path are, or now go, on the server. */
    method SealFile(path: Path) returns (r: Option<Address>)
      requires DedupOk(opens, dedup)
      modifies this`failures
      ensures failures == old(failures) + if r.Some? then 0 else 1
      ensures r.Some? ==> path in disk && opens(r.value) == disk[path]
    {
      r := None;
      var plain := Read(path);
      if plain.Some? {
        r := SealOrBind(plain.value);
      }
    }

    /** A node as a refusal describes it. */
    function Answering(node: ServerNode, address: Option<Address>, rev: Option<int>): ServerNode {
      node.(address := if address.Some? then address else node.address, rev := if rev.Some? then rev.value else node.rev)
    }

    /** `pushEdit`: seal or bind, then a write against the version this device last synchronised. A
        mismatch is the answer arriving, and becomes a conflict with what the server says it holds. */
    method PushEdit(file: Item, m: Meta, known: Known, onServer: ServerNode) returns (ghost current: ServerNode)
      requires DedupOk(opens, dedup) && server.Valid() && onServer.path == file.path && Said(Now(), onServer)
      modifies this, server
      ensures old(failures) <= failures
      ensures failures == old(failures) ==>
                EditSettled(opens, stamp, old(Now()), Now(), file.path, m, BaseOf(policy.preferLocal, known, onServer), onServer.nodeId, current)
      ensures PushEditStep(opens, stamp, old(Now()), Now(), file.path, m, BaseOf(policy.preferLocal, known, onServer), onServer.nodeId, current)
      ensures history == old(history) && policy == old(policy) && server.Valid()
      ensures InStep(old(server.ages), old(server.log), old(Now()), server.ages, server.log, Now())
    {
      hide PushEditStep, Said, DedupOk, InStep;
      current := onServer;
      var address := SealFile(file.path);
      if address.Some? {
        current := PutEdit(file, m, onServer, BaseOf(policy.preferLocal, known, onServer), address.value);
      } else {
        NothingPushed(opens, stamp, Now(), file.path, m, BaseOf(policy.preferLocal, known, onServer), onServer.nodeId, current);
        SilentInStep(server.ages, server.log, Now(), Now());
      }
    }

    method PutEdit(file: Item, m: Meta, onServer: ServerNode, base: Base, address: Address) returns (ghost current: ServerNode)
      requires server.Valid() && onServer.path == file.path && Said(Now(), onServer)
      requires file.path in disk && opens(address) == disk[file.path]
      modifies this, server
      ensures old(failures) <= failures
      ensures failures == old(failures) ==>
                EditSettled(opens, stamp, old(Now()), Now(), file.path, m, base, onServer.nodeId, current)
      ensures PushEditStep(opens, stamp, old(Now()), Now(), file.path, m, base, onServer.nodeId, current)
      ensures history == old(history) && policy == old(policy) && server.Valid()
      ensures InStep(old(server.ages), old(server.log), old(Now()), server.ages, server.log, Now())
    {
      hide PushEditStep, Said, InStep, WasHead, Lands;
      ghost var s, ages, log := Now(), server.ages, server.log;
      var out;
      ghost var put;
      out, put := server.Request(onServer.nodeId, address, base.address, GroundsOf(s, base.named));
      current := TakeAnswer(file, m, onServer, base, address, out, put);
      AnswerInStep(ages, log, s, server.ages, Now(), onServer.nodeId, address, out, put);
    }

    /** What the server answered, acted on. */
    method TakeAnswer(file: Item, m: Meta, onServer: ServerNode, base: Base, address: Address, out: PutAnswer, ghost put: Put)
      returns (ghost current: ServerNode)
      requires onServer.path == file.path && Said(Now(), onServer) && file.path in disk && opens(address) == disk[file.path]
      requires out.Accepted? ==> put == Put(onServer.nodeId, base.address, address, put.at, GroundsOf(Now(), base.named))
      modifies this`disk, this`mtimes, this`ledger, this`queue, this`judged, this`failures
      ensures old(failures) <= failures
      ensures failures == old(failures) ==>
                EditSettled(opens, stamp, old(Now()), Now(), file.path, m, base, onServer.nodeId, current)
      ensures PushEditStep(opens, stamp, old(Now()), Now(), file.path, m, base, onServer.nodeId, current)
      ensures Heard(old(Now()), Now(), onServer.nodeId, address, out, put)
    {
      hide PushEditStep, MismatchStep, LandedStep, Said;
      ghost var s := Now();
      current := onServer;
      NothingPushed(opens, stamp, s, file.path, m, base, onServer.nodeId, onServer);
      match out
      case Threw =>
        Fail(true);
      case Refused =>
        Fail(true);
      case Mismatch(theirs, rev) =>
        current := Mismatched(file, onServer, theirs, rev);
        Pushed(opens, stamp, s, Now(), file.path, m, base, onServer.nodeId, current);
      case Accepted(rev) =>
        var entry := Known(onServer.nodeId, rev, m.plainHash, address, Some(Hint(m.mtime, m.size)));
        EditLanded(file, m, put, entry);
        LandedIs(opens, s, put, file.path, m, base, entry);
        Pushed(opens, stamp, s, Now(), file.path, m, base, onServer.nodeId, current);
    }

    /** A write the server refused for its base: what it says it holds is fetched and stood beside. */
    method Mismatched(file: Item, onServer: ServerNode, theirs: Option<Address>, rev: Option<int>) returns (ghost current: ServerNode)
      requires onServer.path == file.path && Said(Now(), onServer)
      modifies this`disk, this`mtimes, this`ledger, this`queue, this`judged, this`failures
      ensures old(failures) <= failures
      ensures failures == old(failures) ==> ConflictDone(opens, stamp, Answered(old(Now()), judged.shown), Now(), file.path, current)
      ensures MismatchStep(opens, stamp, old(Now()), Now(), file.path, onServer.nodeId, current)
      ensures judged.puts == old(judged.puts)
      ensures judged.shown == old(judged.shown) + if theirs.Some? then {(onServer.nodeId, theirs.value)} else {}
    {
      hide ConflictStep, MismatchStep, Said;
      ghost var s := Now();
      var answering := Answering(onServer, theirs, rev);
      current := answering;
      Hear(onServer.nodeId, theirs);
      ghost var shown := judged.shown;
      StandBeside(file, answering);
      MismatchIs(opens, stamp, s, shown, Now(), file.path, onServer, answering, theirs);
    }

    /** What the server says a node holds, put on record. */
    ghost method Hear(nodeId: NodeId, theirs: Option<Address>)
      modifies this`judged
      ensures Now() == Answered(old(Now()), old(judged.shown) + if theirs.Some? then {(nodeId, theirs.value)} else {})
    {
      judged := judged.(shown := judged.shown + if theirs.Some? then {(nodeId, theirs.value)} else {});
    }

    method StandBeside(file: Item, answering: ServerNode)
      modifies this`disk, this`mtimes, this`ledger, this`queue, this`judged, this`failures
      ensures old(failures) <= failures && (failures == old(failures) ==> ConflictDone(opens, stamp, old(Now()), Now(), file.path, answering))
      ensures ConflictStep(opens, stamp, old(Now()), Now(), file.path, answering)
    {
      hide MatchStep, KeepBothStep, CopyStep;
      var serverPlain := Fetch(answering);
      if serverPlain.Some? {
        ResolveConflict(file, answering, serverPlain);
      }
    }

    /** A write the server accepted. */
    method EditLanded(file: Item, m: Meta, ghost put: Put, entry: Known)
      modifies this`ledger, this`judged
      ensures Now() == Recorded(WithPut(Taking(old(Now()), entry.nodeId, entry.address), put), file.path, entry)
    {
      judged := WithPut(Taking(Now(), entry.nodeId, entry.address), put);
      Record(file.path, entry);
    }

    /** `pushNew`. */
    method PushNew(file: Item, m: Meta)
      requires DedupOk(opens, dedup) && server.Valid()
      modifies this, server
      ensures old(failures) <= failures && (failures == old(failures) ==> NewStep(opens, old(Now()), Now(), file.path, m))
      ensures PushNewStep(opens, old(Now()), Now(), file.path, m)
      ensures history == old(history) && server.Valid()
      ensures InStep(old(server.ages), old(server.log), old(Now()), server.ages, server.log, Now())
    {
      hide InStep, PushNewStep, NewStep, DedupOk, WasHead;
      NothingMade(opens, Now(), file.path, m);
      SilentInStep(server.ages, server.log, Now(), Now());
      var address := SealFile(file.path);
      if address.Some? {
        MakeNode(file, m, address.value);
      }
    }

    method MakeNode(file: Item, m: Meta, address: Address)
      requires server.Valid() && file.path in disk && opens(address) == disk[file.path]
      modifies this, server
      ensures old(failures) <= failures && (failures == old(failures) ==> NewStep(opens, old(Now()), Now(), file.path, m))
      ensures PushNewStep(opens, old(Now()), Now(), file.path, m)
      ensures history == old(history) && server.Valid()
      ensures InStep(old(server.ages), old(server.log), old(Now()), server.ages, server.log, Now())
    {
      hide InStep, PushNewStep, NewStep, WasHead;
      ghost var s := Now();
      NothingMade(opens, s, file.path, m);
      var created := CreateNode(address);
      if created.Created? {
        NodeMade(file, m, address, created.nodeId, created.rev);
        CreatedInStep(old(server.ages), server.log, s, server.ages, Now(), {(created.nodeId, address)});
      } else {
        CreatedInStep(old(server.ages), server.log, s, server.ages, Now(), {});
      }
    }

    /** The entry, the tree and the index for a node the server has made. */
    method NodeMade(file: Item, m: Meta, address: Address, nodeId: NodeId, rev: int)
      requires file.path in disk && opens(address) == disk[file.path]
      requires nodeId !in byNodeId && nodeId !in ids
      modifies this`ledger, this`tree, this`byNodeId, this`judged
      ensures NewStep(opens, old(Now()), Now(), file.path, m)
      ensures PushNewStep(opens, old(Now()), Now(), file.path, m)
      ensures judged.puts == old(judged.puts) && judged.shown == old(judged.shown) + {(nodeId, address)}
    {
      hide Planted, PushNewStep;
      ghost var s := Now();
      var node := ServerNode(nodeId, file.path, rev, Some(address), true);
      var entry := Known(nodeId, rev, m.plainHash, address, Some(Hint(m.mtime, m.size)));
      judged := Taking(s, nodeId, address);
      Record(file.path, entry);
      Plant(node);
      NodeMadeIs(opens, s, file.path, m, entry);
    }

    /** A node in the walked tree and its index. */
    method Plant(node: ServerNode)
      modifies this`tree, this`byNodeId, this`judged
      ensures Now() == Planted(old(Now()), node)
    {
      tree := tree[node.path := node];
      byNodeId := byNodeId[node.nodeId := node];
      judged := judged.(told := judged.told + {(node.nodeId, node.path)}, sent := judged.sent[Made(node.nodeId) := node.path]);
    }

    /** `pushMove`: the vanished bytes are claimed, and the node as it stands is moved here. */
    method PushMove(file: Item, m: Meta, source: Vanished)
      requires source.nodeId in byNodeId
      modifies this`vanished, this`handled, this`ledger, this`tree, this`byNodeId, this`judged, this`failures
      ensures old(failures) <= failures && (failures == old(failures) ==> MovedStep(Claimed(old(Now()), m.plainHash, {}), Now(), file.path, m, source))
      ensures PushMoveStep(old(Now()), Now(), file.path, m, source)
    {
      hide MovedStep, PushMoveStep, Claimed;
      ghost var s := Now();
      Claim(m.plainHash);
      MoveClaimed(file, m, source);
      PushMoveIs(s, Now(), file.path, m, source);
    }

    /** The vanished bytes are taken out of the lists. */
    method Claim(c: Content)
      modifies this`vanished
      ensures Now() == Claimed(old(Now()), c, {})
    {
      vanished := vanished - {c};
    }

    /** The node moved, or its refusal remembered. */
    method MoveClaimed(file: Item, m: Meta, source: Vanished)
      requires source.nodeId in byNodeId
      modifies this`handled, this`ledger, this`tree, this`byNodeId, this`judged, this`failures
      ensures old(failures) <= failures && (failures == old(failures) ==> MovedStep(old(Now()), Now(), file.path, m, source))
      ensures || Now() == old(Now()) || Now() == old(Now()).(handled := old(handled) + {source.path})
              || MovedStep(old(Now()), Now(), file.path, m, source)
    {
      hide MovedStep;
      var parents: bool, moved: bool, rev: int := *, *, *;
      Fail(!parents || !moved);
      if parents && moved {
        MoveEntry(file, m, source, rev);
      } else if parents {
        handled := handled + {source.path};
      }
    }

    /** The entry and the walked tree follow a node the server has moved here. */
    method MoveEntry(file: Item, m: Meta, source: Vanished, rev: int)
      requires source.nodeId in byNodeId
      modifies this`ledger, this`tree, this`byNodeId, this`judged
      ensures MovedStep(old(Now()), Now(), file.path, m, source)
    {
      hide Without;
      ledger := ledger - {source.path};
      Record(file.path, Known(source.nodeId, rev, m.plainHash, source.address, Some(Hint(m.mtime, m.size))));
      MoveInTree(file, source, rev);
    }

    /** Only this node's own entries leave the tree: the old path may hold another file by now. */
    method MoveInTree(file: Item, source: Vanished, rev: int)
      requires source.nodeId in byNodeId
      modifies this`tree, this`byNodeId, this`judged
      ensures Now() == old(Now()).(
                tree := Without(Without(old(tree), source.path, source.nodeId), old(byNodeId)[source.nodeId].path, source.nodeId)
                        [file.path := ServerNode(source.nodeId, file.path, rev, Some(source.address), true)],
                byNodeId := old(byNodeId)[source.nodeId := old(byNodeId)[source.nodeId].(path := file.path)],
                told := old(judged.told) + {(source.nodeId, file.path)}, sent := old(judged.sent)[Sent(source.path) := file.path])
    {
      var from := byNodeId[source.nodeId].path;
      if source.path in tree && tree[source.path].nodeId == source.nodeId {
        tree := tree - {source.path};
      }
      if from in tree && tree[from].nodeId == source.nodeId {
        tree := tree - {from};
      }
      byNodeId := byNodeId[source.nodeId := byNodeId[source.nodeId].(path := file.path)];
      tree := tree[file.path := ServerNode(source.nodeId, file.path, rev, Some(source.address), true)];
      judged := judged.(told := judged.told + {(source.nodeId, file.path)}, sent := judged.sent[Sent(source.path) := file.path]);
    }

    // ----- receiving ---------------------------------------------------------------------------

    /** `pull` of one node. */
    method Pull(node: ServerNode) returns (pulled: bool)
      modifies this`disk, this`mtimes, this`ledger, this`judged, this`failures
      ensures failures == old(failures) + (if pulled then 0 else 1) && (pulled ==> PulledStep(opens, old(Now()), Now(), node))
      ensures PullStep(opens, old(Now()), Now(), node)
      ensures pulled ==> node.address.Some? && node.path in disk && disk[node.path] == opens(node.address.value)
      ensures !pulled ==> Now() == old(Now())
    {
      pulled := false;
      var plain := Fetch(node);
      if plain.None? {
        return;
      }
      var ok := WriteOver(node.path, plain.value, node, node.path);
      if ok {
        var hint := HintFor(node.path);
        Record(node.path, Known(node.nodeId, node.rev, plain.value, node.address.value, hint));
        pulled := true;
      }
    }

    // ----- a remote rename ------------------------------------------------------------------------

    predicate CaseOnly(from: Path, to: Path) {
      lower(from) == lower(to)
    }

    /** `applyRemoteRename`: the file follows its node, destination first; the entry follows the file; and
        an edit in hand goes up against the node where it is now. */
    method ApplyRemoteRename(file: Item, m: Meta, known: Known, movedTo: ServerNode) returns (ghost mid: State, ghost current: ServerNode)
      requires DedupOk(opens, dedup) && server.Valid() && movedTo.address.Some? && movedTo.nodeId == known.nodeId && Said(Now(), movedTo)
      modifies this, server
      ensures old(failures) <= failures
      ensures failures == old(failures) ==>
                FollowDone(opens, stamp, CaseOnly(file.path, movedTo.path), old(Now()), Now(), file.path, m, known, movedTo, mid, current)
      ensures RenameStep(opens, stamp, CaseOnly(file.path, movedTo.path), old(Now()), Now(), file.path, m, known, movedTo, mid, current)
      ensures history == old(history) && policy == old(policy) && server.Valid()
      ensures InStep(old(server.ages), old(server.log), old(Now()), server.ages, server.log, Now())
    {
      ghost var s := Now();
      mid, current := s, movedTo;
      var arrived := Follow(file, m, known, movedTo);
      FollowTells(CaseOnly(file.path, movedTo.path), s, Now(), file.path, m, known, movedTo);
      if arrived {
        mid := Now();
        current := PushCarriedEdit(Item(movedTo.path, file.mtime, m.size), m, known, movedTo);
        assert FollowStep(opens, stamp, CaseOnly(file.path, movedTo.path), s, Now(), file.path, m, known, movedTo, mid, current);
      }
    }

    /** This device's edits, if any, still go up: against the node at its new path. */
    method PushCarriedEdit(file: Item, m: Meta, known: Known, movedTo: ServerNode) returns (ghost current: ServerNode)
      requires DedupOk(opens, dedup) && server.Valid() && movedTo.path == file.path && Said(Now(), movedTo)
      modifies this, server
      ensures old(failures) <= failures
      ensures failures == old(failures) && known.plainHash != m.plainHash ==>
                EditSettled(opens, stamp, old(Now()), Now(), file.path, m, BaseOf(policy.preferLocal, known, movedTo), movedTo.nodeId, current)
      ensures known.plainHash == m.plainHash ==> Now() == old(Now())
      ensures known.plainHash != m.plainHash ==>
                PushEditStep(opens, stamp, old(Now()), Now(), file.path, m, BaseOf(policy.preferLocal, known, movedTo), movedTo.nodeId, current)
      ensures history == old(history) && policy == old(policy) && server.Valid()
      ensures InStep(old(server.ages), old(server.log), old(Now()), server.ages, server.log, Now())
    {
      current := movedTo;
      if known.plainHash != m.plainHash {
        current := PushEdit(file, m, known, movedTo);
      }
    }

    /** Destination first, source after. */
    method CopyThenDelete(from: Path, to: Path) returns (moved: bool)
      modifies this`disk, this`mtimes, this`judged, this`failures
      ensures old(failures) <= failures && (failures == old(failures) ==> moved)
      ensures moved ==> from in old(disk) && Now() == Removed(Placed(old(Now()), from, to), from, to)
      ensures !moved ==> Now() == old(Now()) || (from in old(disk) && Now() == Placed(old(Now()), from, to))
    {
      moved := false;
      var plain := Read(from);
      if plain.Some? {
        moved := WriteBeside(from, to, plain.value);
        if moved {
          moved := DeleteSource(from, to);
        }
      }
    }

    /** The file and its entry moved to where the node is. */
    method Follow(file: Item, m: Meta, known: Known, movedTo: ServerNode) returns (arrived: bool)
      requires movedTo.address.Some?
      modifies this`disk, this`mtimes, this`ledger, this`handled, this`judged, this`failures
      ensures old(failures) <= failures && (failures == old(failures) ==> arrived)
      ensures arrived ==> ArriveStep(CaseOnly(file.path, movedTo.path), old(Now()), Now(), file.path, m, known, movedTo)
      ensures !arrived ==>
                || Now() == old(Now())
                || (!CaseOnly(file.path, movedTo.path) && file.path in old(disk) && Now() == Placed(old(Now()), file.path, movedTo.path))
    {
      if CaseOnly(file.path, movedTo.path) {
        arrived := RenameLocal(file.path, movedTo.path);
      } else {
        arrived := CopyThenDelete(file.path, movedTo.path);
      }
      if arrived {
        FollowEntry(file, m, known, movedTo);
      }
    }

    method FollowEntry(file: Item, m: Meta, known: Known, movedTo: ServerNode)
      requires movedTo.address.Some?
      modifies this`ledger, this`handled, this`judged
      ensures movedTo.path in ledger
      ensures var e := ledger[movedTo.path];
              && e.nodeId == known.nodeId && e.rev == movedTo.rev && e.plainHash == m.plainHash && Some(e.address) == movedTo.address
              && var s := old(Now());
                 Now() == Recorded(Forgotten(s.(handled := s.handled + {movedTo.path}), file.path), movedTo.path, e)
    {
      ledger := ledger - {file.path};
      var hint := HintFor(movedTo.path);
      handled := handled + {movedTo.path};
      Record(movedTo.path, Known(known.nodeId, movedTo.rev, m.plainHash, movedTo.address.value, hint));
    }

    // ----- one local file ----------------------------------------------------------------------------

    /** What was measured before the walk, or, for a file born during it, what it is now. */
    method Measure(file: Item) returns (r: Option<Meta>)
      modifies this`failures
      ensures failures == old(failures) + if r.Some? then 0 else 1
      ensures r.Some? ==> MeasuredAt(Now(), file.path, r.value)
    {
      if file.path in meta {
        return Some(meta[file.path]);
      }
      var bytes := Read(file.path);
      r := if bytes.Some? then Some(Meta(bytes.value, file.mtime, sizeOf(bytes.value))) else None;
    }

    /** `reconcileLocal`: decided by `Decide`, then done. */
    method ReconcileLocal(file: Item) returns (ghost r: Option<Meta>, ghost mid: State, ghost current: ServerNode)
      requires DedupOk(opens, dedup) && TreeOk(tree, byNodeId) && server.Valid() && Informed(Now())
      modifies this, server
      ensures old(failures) <= failures
      ensures failures == old(failures) ==> r.Some?
      ensures failures == old(failures) ==>
                TurnDone(opens, stamp, CaseOnly, Decide(SituationOf(old(Now()), file.path, r.value)), old(Now()), Now(), file.path, r.value, mid, current)
      ensures Handled(opens, stamp, CaseOnly, old(Now()), Now(), file.path, r, mid, current)
      ensures history == old(history) && server.Valid()
      ensures InStep(old(server.ages), old(server.log), old(Now()), server.ages, server.log, Now())
    {
      hide TreeOk, Informed, Decide, Fits, Turn;
      var measured := Measure(file);
      r, mid := measured, Now();
      current := ServerNode(0, file.path, 0, None, true);
      if measured.Some? {
        var m := measured.value;
        DecisionFits(Now(), file.path, m);
        mid, current := CarryOut(file, m, Decide(Situation(m, Get(ledger, file.path), Get(tree, file.path), byNodeId, dedup, vanished, tree, policy)));
      }
    }

    method CarryOut(file: Item, m: Meta, d: Decision) returns (ghost mid: State, ghost current: ServerNode)
      requires DedupOk(opens, dedup) && server.Valid() && Informed(Now()) && TreeOk(tree, byNodeId) && Fits(Now(), file.path, m, d)
      modifies this, server
      ensures old(failures) <= failures && (failures == old(failures) ==> TurnDone(opens, stamp, CaseOnly, d, old(Now()), Now(), file.path, m, mid, current))
      ensures Turn(opens, stamp, CaseOnly, d, old(Now()), Now(), file.path, m, mid, current)
      ensures history == old(history) && server.Valid()
      ensures InStep(old(server.ages), old(server.log), old(Now()), server.ages, server.log, Now())
    {
      hide PushEditStep, RenameStep, PushMoveStep, PushNewStep, QuietStep, Informed, TreeOk, InStep, Said, DedupOk;
      ghost var s := Now();
      FitsSaid(s, file.path, m, d);
      mid := s;
      current := ServerNode(0, file.path, 0, None, true);
      match d
      case PushEdit(known, onServer) =>
        current := PushEdit(file, m, known, onServer);
      case RemoteRename(known, movedTo) =>
        mid, current := ApplyRemoteRename(file, m, known, movedTo);
      case PushMove(source) =>
        PushMove(file, m, source);
        MoveTells(s, Now(), file.path, m, source);
        SilentInStep(server.ages, server.log, s, Now());
      case PushNew =>
        PushNew(file, m);
      case _ =>
        CarryOutQuietly(file, m, d);
        QuietTells(opens, stamp, d, s, Now(), file.path, m);
        SilentInStep(server.ages, server.log, s, Now());
    }

    /** The answers that send nothing. */
    method CarryOutQuietly(file: Item, m: Meta, d: Decision)
      requires !Sends(d) && Fits(Now(), file.path, m, d) && TreeOk(tree, byNodeId)
      modifies this
      ensures old(failures) <= failures && (failures == old(failures) ==> QuietDone(opens, stamp, d, old(Now()), Now(), file.path, m))
      ensures QuietStep(opens, stamp, d, old(Now()), Now(), file.path, m)
      ensures history == old(history)
    {
      hide ConflictStep, PullStep, ConflictDone, PulledStep, TreeOk;
      match d
      case Nothing =>
      case RefreshHint =>
        Record(file.path, ledger[file.path].(hint := Some(Hint(m.mtime, m.size))));
      case Pull(node) =>
        var _ := Pull(node);
      case Adopt(onServer) =>
        Record(file.path, Known(onServer.nodeId, onServer.rev, m.plainHash, onServer.address.value, Some(Hint(m.mtime, m.size))));
      case Conflict(onServer) =>
        ResolveConflict(file, onServer, None);
      case RemoveLocal =>
        RemoveLocal(file.path);
    }

    /** A file deleted on the server, unchanged here. */
    method RemoveLocal(path: Path)
      requires path in ledger
      modifies this`disk, this`ledger, this`judged, this`failures
      ensures old(failures) <= failures && (failures == old(failures) ==> Now() == Forgotten(Deleted(old(Now()), path, old(ledger)[path].nodeId), path))
      ensures Now() == old(Now()) || Now() == Forgotten(Deleted(old(Now()), path, old(ledger)[path].nodeId), path)
    {
      var ok := DeleteLocal(path, ledger[path].nodeId);
      if ok {
        ledger := ledger - {path};
      }
    }

    // ----- the walk --------------------------------------------------------------------------------

    /** One turn of the queue. Whatever a file's handling meets, the walk goes on. */
    method TakeTurn()
      requires Walking(opens, stamp, Now()) && queue != [] && server.Valid()
      modifies this, server
      ensures failures == old(failures) && NoneForgotten(inScope, old(Now())) ==> NoneForgotten(inScope, Now())
      ensures old(failures) <= failures && (failures == old(failures) && Converging(inScope, old(Now())) ==> Converging(inScope, Now()))
      ensures Walking(opens, stamp, Now()) && Nearer(old(Now()), Now()) && Later(old(Now()), Now())
      ensures history == old(history) && server.Valid()
      ensures InStep(old(server.ages), old(server.log), old(Now()), server.ages, server.log, Now())
    {
      hide Walking, Nearer, Later, Handled, DedupOk, TreeOk, Informed, TurnDone, Converging, NoneForgotten, Decide;
      ghost var s, before := Now(), failures;
      var file := Next();
      PoppedIsReady(opens, stamp, s);
      ghost var r, mid, current := ReconcileLocal(file);
      ghost var s1 := Now();
      Settle(s, r, mid, current);
      if failures == before && NoneForgotten(inScope, s) {
        ForgetsNoneOn(opens, stamp, inScope, CaseOnly, s, s1, Now(), r, mid, current);
      }
      if failures == before && Converging(inScope, s) {
        ConvergesOn(opens, stamp, inScope, CaseOnly, s, s1, Now(), r, mid, current);
      }
    }

    /** The entry the turn may have written put on record if it is mistaken. */
    ghost method Settle(s: State, r: Option<Meta>, mid: State, current: ServerNode)
      requires Walking(opens, stamp, s) && s.queue != []
      requires Handled(opens, stamp, CaseOnly, Popped(s), Now(), s.queue[0].path, r, mid, current)
      modifies this`judged
      ensures Walking(opens, stamp, Now()) && Nearer(s, Now()) && Later(s, Now())
      ensures Now() == old(Now()).(carried := judged.carried)
      ensures judged.puts == old(judged.puts) && judged.shown == old(judged.shown)
    {
      hide Walking, Nearer, Later, Handled, AfterTurn;
      WholeTurn(opens, stamp, CaseOnly, s, Now(), r, mid, current);
      ghost var after := AfterTurn(opens, s, Now(), r);
      AfterTurnIs(opens, s, Now(), r);
      judged := judged.(carried := after.carried);
      assert Now() == after;
    }

    method Walk()
      requires Walking(opens, stamp, Now()) && server.Valid()
      modifies this, server
      ensures failures == old(failures) && NoneForgotten(inScope, old(Now())) ==> NoneForgotten(inScope, Now())
      ensures old(failures) <= failures && (failures == old(failures) && Converging(inScope, old(Now())) ==> Converging(inScope, Now()))
      ensures queue == [] && Walking(opens, stamp, Now()) && Later(old(Now()), Now())
      ensures history == old(history) && server.Valid()
      ensures InStep(old(server.ages), old(server.log), old(Now()), server.ages, server.log, Now())
    {
      hide Walking, Later, InStep, Converging, NoneForgotten;
      LaterTwice(Now(), Now(), Now());
      SilentInStep(server.ages, server.log, Now(), Now());
      while queue != []
        invariant Walking(opens, stamp, Now()) && Later(old(Now()), Now()) && history == old(history) && server.Valid()
        invariant InStep(old(server.ages), old(server.log), old(Now()), server.ages, server.log, Now())
        invariant old(failures) <= failures
        invariant failures == old(failures) && Converging(inScope, old(Now())) ==> Converging(inScope, Now())
        invariant failures == old(failures) && NoneForgotten(inScope, old(Now())) ==> NoneForgotten(inScope, Now())
        decreases |queue|, |OffTree(ledger, tree)|, Potential(tree, queue)
      {
        ghost var s, ages, log := Now(), server.ages, server.log;
        TakeTurn();
        LaterTwice(old(Now()), s, Now());
        InStepTwice(old(server.ages), old(server.log), old(Now()), ages, log, s, server.ages, server.log, Now());
      }
    }

    // ----- what the walk did not claim -------------------------------------------------------------

    /** `pushDelete`: by node, and only where the server still shows the node at the path that vanished. */
    method PushDelete(v: Vanished)
      requires v.nodeId in byNodeId ==> byNodeId[v.nodeId].path == v.path
      modifies this`ledger, this`tree, this`byNodeId, this`failures
      ensures old(failures) <= failures && (failures == old(failures) ==> v.nodeId !in byNodeId)
      ensures if v.nodeId !in old(byNodeId) then Now() == Forgotten(old(Now()), v.path)
              else Now() == old(Now()) ||
                   Now() == Forgotten(old(Now()), v.path).(tree := old(tree) - {v.path}, byNodeId := old(byNodeId) - {v.nodeId})
    {
      if v.nodeId !in byNodeId {
        ledger := ledger - {v.path};
        return;
      }
      var deleted: bool := *;
      Fail(!deleted);
      if deleted {
        tree := tree - {byNodeId[v.nodeId].path};
        byNodeId := byNodeId - {v.nodeId};
        ledger := ledger - {v.path};
      }
    }

    method HandleVanished(v: Vanished)
      modifies this`handled, this`ledger, this`tree, this`byNodeId, this`failures
      ensures old(failures) <= failures && (failures == old(failures) && policy.pushDeletes ==> NotAt(byNodeId, v.nodeId, v.path))
      ensures VanishedStep(old(Now()), Now(), v)
    {
      handled := handled + {v.path};
      if v.nodeId in byNodeId && byNodeId[v.nodeId].path != v.path {
        ledger := ledger - {v.path};
      } else if !policy.pushDeletes {
        ledger := ledger - {v.path};
      } else {
        PushDelete(v);
      }
    }

    /** Whatever the walk did not claim as a rename. A node is deleted on the server only in an epoch whose
        absences can be trusted, and only one the server showed at a path that vanished here; and there an entry
        stays exactly as long as that has not been done. */
    method ReconcileVanished()
      requires Inv(opens, stamp, Now(), {}) && queue == [] && Collected(Now())
      modifies this
      ensures vanished == old(vanished) && (failures == old(failures) && policy.pushDeletes ==> ListsGone(vanished, byNodeId))
      ensures disk == old(disk) && judged == old(judged) && old(failures) <= failures
      ensures Clear(inScope, old(Now())) ==> Clear(inScope, Now())
      ensures queue == [] && Inv(opens, stamp, Now(), {}) && Quietly(old(Now()), Now()) && history == old(history)
      ensures forall n :: n in old(byNodeId) && n !in byNodeId ==>
                policy.pushDeletes && IsVanished(old(vanished), n, old(byNodeId)[n].path)
      ensures forall c, v :: c in old(vanished) && v in old(vanished)[c] ==>
                (v.path in ledger <==>
                   v.path in old(ledger) && policy.pushDeletes && v.nodeId in byNodeId && byNodeId[v.nodeId].path == v.path)
    {
      hide Inv, Collected, Clear;
      var todo := vanished.Keys;
      while todo != {}
        invariant queue == [] && vanished == old(vanished) && todo <= vanished.Keys && history == old(history) && policy == old(policy)
        invariant Inv(opens, stamp, Now(), {}) && Quietly(old(Now()), Now()) && Collected(Now()) && AllKept(Now(), old(ledger))
        invariant failures == old(failures) && policy.pushDeletes ==>
                    forall c, v :: c in vanished && c !in todo && v in vanished[c] ==> NotAt(byNodeId, v.nodeId, v.path)
        invariant forall c, v :: c in vanished && c !in todo && v in vanished[c] ==> KeptOnlyFor(Now(), old(ledger), v)
        invariant OnlyVanishedAreDeleted(policy, vanished, old(byNodeId), byNodeId)
        invariant disk == old(disk) && judged == old(judged) && old(failures) <= failures
        invariant Clear(inScope, old(Now())) ==> Clear(inScope, Now())
        decreases |todo|
      {
        var c :| c in todo;
        todo := todo - {c};
        ReconcileList(c, old(byNodeId), old(ledger));
      }
      forall c, v | c in old(vanished) && v in old(vanished)[c]
        ensures v.path in ledger <==>
                  v.path in old(ledger) && policy.pushDeletes && v.nodeId in byNodeId && byNodeId[v.nodeId].path == v.path
      {
        assert c in vanished && v in vanished[c] && KeptFor(Now(), old(ledger), v) && KeptOnlyFor(Now(), old(ledger), v);
      }
    }

    method ReconcileList(c: Content, ghost byNodeId0: map<NodeId, ServerNode>, ghost ledger0: map<Path, Known>)
      requires Inv(opens, stamp, Now(), {}) && queue == [] && c in vanished && Collected(Now()) && AllKept(Now(), ledger0)
      requires OnlyVanishedAreDeleted(policy, vanished, byNodeId0, byNodeId)
      modifies this`handled, this`ledger, this`tree, this`byNodeId, this`failures
      ensures forall n :: n in byNodeId ==> n in old(byNodeId) && byNodeId[n] == old(byNodeId)[n]
      ensures failures == old(failures) && policy.pushDeletes ==> forall v :: v in vanished[c] ==> NotAt(byNodeId, v.nodeId, v.path)
      ensures old(failures) <= failures
      ensures Clear(inScope, old(Now())) ==> Clear(inScope, Now())
      ensures Inv(opens, stamp, Now(), {}) && Quietly(old(Now()), Now())
      ensures OnlyVanishedAreDeleted(policy, vanished, byNodeId0, byNodeId)
      ensures Collected(Now()) && AllKept(Now(), ledger0)
      ensures forall v :: v in vanished[c] ==> KeptOnlyFor(Now(), ledger0, v)
      ensures forall d, v :: d in vanished && v in vanished[d] && KeptOnlyFor(old(Now()), ledger0, v) ==> KeptOnlyFor(Now(), ledger0, v)
    {
      hide Inv, VanishedStep, OnlyVanishedAreDeleted, Collected, AllKept, KeptOnlyFor, Clear, Quietly, NotAt;
      var list := vanished[c];
      QuietlyNothing(Now());
      for i := 0 to |list|
        invariant Inv(opens, stamp, Now(), {}) && Quietly(old(Now()), Now())
        invariant OnlyVanishedAreDeleted(policy, vanished, byNodeId0, byNodeId)
        invariant Collected(Now()) && AllKept(Now(), ledger0) && old(failures) <= failures
        invariant Clear(inScope, old(Now())) ==> Clear(inScope, Now())
        invariant forall n :: n in byNodeId ==> n in old(byNodeId) && byNodeId[n] == old(byNodeId)[n]
        invariant failures == old(failures) && policy.pushDeletes ==> forall j :: 0 <= j < i ==> NotAt(byNodeId, list[j].nodeId, list[j].path)
        invariant forall j :: 0 <= j < i ==> KeptOnlyFor(Now(), ledger0, list[j])
        invariant forall d, v :: d in vanished && v in vanished[d] && KeptOnlyFor(old(Now()), ledger0, v) ==> KeptOnlyFor(Now(), ledger0, v)
      {
        ghost var s := Now();
        HandleVanished(list[i]);
        WholeVanished(opens, stamp, inScope, s, Now(), c, list[i], byNodeId0, ledger0);
        QuietlyTwice(old(Now()), s, Now());
        forall j | 0 <= j < i && NotAt(s.byNodeId, list[j].nodeId, list[j].path) ensures NotAt(byNodeId, list[j].nodeId, list[j].path) {
          StillNotAt(s.byNodeId, byNodeId, list[j].nodeId, list[j].path);
        }
      }
    }

    // ----- the last of it ---------------------------------------------------------------------------

    /** What travels: not the quarantine, and whatever else the settings leave in. */
    predicate Scope(path: Path) {
      !InQuarantine(path) && inScope(path)
    }

    /** One of them. */
    method LastPull(p: Path) returns (pulled: bool)
      requires Inv(opens, stamp, Now(), {}) && queue == [] && p in tree && p !in handled && Scope(p)
      modifies this`disk, this`mtimes, this`ledger, this`judged, this`failures
      ensures old(failures) <= failures && (pulled ==> Arrived(opens, disk, tree[p], p)) && (failures == old(failures) ==> pulled)
      ensures judged.sent == old(judged.sent) && judged.taken == old(judged.taken)
      ensures Inv(opens, stamp, Now(), {}) && Quietly(old(Now()), Now())
      ensures forall q :: q != p && q in old(disk) ==> q in disk && disk[q] == old(disk)[q]
      ensures FilesSynced(inScope, old(disk), old(ledger)) ==> FilesSynced(inScope, disk, ledger)
    {
      hide Inv, PullStep, Arrived, FilesSynced, Quietly;
      ghost var s := Now();
      InvPath(opens, stamp, s, p);
      pulled := Pull(tree[p]);
      WholeLastPull(opens, stamp, inScope, s, Now(), p);
      if pulled {
        ArrivedNow(opens, disk, tree[p], p);
      }
    }

    /** Server files no local copy ever stood in for: each is on disk, or could not be fetched or written. No path
        this pass has handled is written. */
    method PullTheRest() returns (failed: set<Path>)
      requires Inv(opens, stamp, Now(), {}) && queue == []
      modifies this`disk, this`mtimes, this`ledger, this`judged, this`failures
      ensures old(failures) <= failures && (failures == old(failures) ==> failed == {})
      ensures judged.sent == old(judged.sent) && judged.taken == old(judged.taken)
      ensures FilesSynced(inScope, old(disk), old(ledger)) ==> FilesSynced(inScope, disk, ledger)
      ensures Inv(opens, stamp, Now(), {}) && Quietly(old(Now()), Now())
      ensures forall p :: p in old(handled) && p in old(disk) ==> p in disk && disk[p] == old(disk)[p]
      ensures forall p :: p in tree && p !in handled && Scope(p) && p !in failed ==> Arrived(opens, disk, tree[p], p)
    {
      hide Inv, PullStep, TreeOk, Informed, DedupOk, Arrived, FilesSynced, Quietly, AllArrived, SameAt, Shared;
      QuietlyNothing(Now());
      failed := {};
      var todo := set p | p in tree && p !in handled && Scope(p);
      ghost var wanted, arrived: set<Path> := todo, {};
      NothingArrived(opens, disk, tree, handled, wanted);
      while todo != {}
        invariant Shared(todo, arrived, failed, wanted)
        invariant Inv(opens, stamp, Now(), {}) && Quietly(old(Now()), Now())
        invariant SameAt(old(disk), disk, handled) && AllArrived(opens, disk, tree, arrived)
        invariant old(failures) <= failures && (failures == old(failures) ==> failed == {})
        invariant judged.sent == old(judged.sent) && judged.taken == old(judged.taken)
        invariant FilesSynced(inScope, old(disk), old(ledger)) ==> FilesSynced(inScope, disk, ledger)
        decreases |todo|
      {
        ghost var s := Now();
        var p :| p in todo;
        SharedIsWanted(todo, arrived, failed, wanted, p);
        var pulled := LastPull(p);
        QuietlyTwice(old(Now()), s, Now());
        ArrivedOneMore(opens, old(disk), s.disk, disk, tree, handled, arrived, p, pulled);
        todo, arrived, failed := todo - {p}, if pulled then arrived + {p} else arrived, if pulled then failed else failed + {p};
      }
      WhatArrived(opens, old(disk), disk, tree, handled, arrived, failed, wanted);
    }

    // ----- after a reset ------------------------------------------------------------------------------

    /** One file of a reset vault. */
    method BindOrQuarantine(file: Item, m: Meta) returns (ghost mid: State)
      requires TreeOk(tree, byNodeId)
      modifies this`disk, this`mtimes, this`ledger, this`judged, this`failures
      ensures old(failures) <= failures && (failures == old(failures) ==> ResetDone(opens, stamp, old(Now()), Now(), file.path, m, mid))
      ensures ResetStep(opens, stamp, old(Now()), Now(), file.path, m, mid)
    {
      hide PullStep;
      mid := Now();
      var onServer := Get(tree, file.path);
      if onServer.Some? && Get(dedup, m.plainHash) == onServer.value.address {
        Record(file.path, Known(onServer.value.nodeId, onServer.value.rev, m.plainHash, onServer.value.address.value,
                                Some(Hint(m.mtime, m.size))));
        return;
      }
      var moved := CopyThenDelete(file.path, Quarantined(stamp, file.path));
      if moved {
        mid := Now();
        if onServer.Some? {
          var _ := Pull(onServer.value);
        }
      }
    }

    method ResetTurn()
      requires Inv(opens, stamp, Now(), {}) && queue != []
      modifies this
      ensures old(failures) <= failures
      ensures failures == old(failures) && Converging(inScope, old(Now())) && old(vanished) == map[] ==> Converging(inScope, Now())
      ensures vanished == old(vanished)
      ensures queue == old(queue)[1..] && Inv(opens, stamp, Now(), {}) && Quietly(old(Now()), Now()) && history == old(history)
      ensures tree == old(tree) && dedup == old(dedup) && meta == old(meta)
      ensures forall p :: p in old(disk) && HeldByTree(tree, dedup, meta, p) ==> p in disk && disk[p] == old(disk)[p]
    {
      hide Inv, ResetStep, TreeOk, HeldByTree, ResetDone, Converging, Quietly;
      ghost var s, before := Now(), failures;
      InvTree(opens, stamp, s);
      var file := Next();
      ghost var measured, mid := HandleReset(file);
      WholeReset(opens, stamp, inScope, s, Now(), measured, mid, failures == before);
    }

    /** The first of the queue, taken off it. */
    method Next() returns (file: Item)
      requires queue != []
      modifies this`queue, this`handled
      ensures file == old(queue)[0] && Now() == Popped(old(Now()))
    {
      file := queue[0];
      queue := queue[1..];
      handled := handled + {file.path};
      assert Now() == Popped(old(Now()));
    }

    method HandleReset(file: Item) returns (ghost r: Option<Meta>, ghost mid: State)
      requires TreeOk(tree, byNodeId)
      modifies this
      ensures history == old(history) && old(failures) <= failures && (failures == old(failures) ==> r.Some?)
      ensures r.None? ==> Now() == old(Now())
      ensures r.Some? ==> MeasuredAt(old(Now()), file.path, r.value) && ResetStep(opens, stamp, old(Now()), Now(), file.path, r.value, mid)
      ensures r.Some? && failures == old(failures) ==> ResetDone(opens, stamp, old(Now()), Now(), file.path, r.value, mid)
    {
      hide ResetStep, ResetDone, TreeOk;
      var measured := Measure(file);
      r, mid := measured, Now();
      if measured.Some? {
        mid := BindOrQuarantine(file, measured.value);
      }
    }

    /** `resyncAfterReset`: the winning tree is the truth now, and a file it holds at its path stays as it is. */
    method ResyncAfterReset() returns (failed: set<Path>)
      requires Inv(opens, stamp, Now(), {})
      modifies this
      ensures policy == old(policy) && (failures == old(failures) ==> AllHere(opens, inScope, Now()))
      ensures old(failures) <= failures
      ensures failures == old(failures) && Converging(inScope, old(Now())) && old(vanished) == map[] && judged.taken == {} ==>
                FilesSynced(inScope, disk, ledger)
      ensures queue == [] && Inv(opens, stamp, Now(), {}) && Quietly(old(Now()), Now()) && history == old(history)
      ensures forall p :: p in judged.given.listed && p in old(disk) && HeldByTree(old(tree), old(dedup), old(meta), p) ==>
                p in disk && disk[p] == old(disk)[p]
    {
      hide Inv, HeldByTree, Converging, FilesSynced;
      while queue != []
        invariant Inv(opens, stamp, Now(), {}) && Quietly(old(Now()), Now()) && history == old(history)
        invariant tree == old(tree) && dedup == old(dedup) && meta == old(meta) && vanished == old(vanished)
        invariant old(failures) <= failures
        invariant failures == old(failures) && Converging(inScope, old(Now())) && vanished == map[] ==> Converging(inScope, Now())
        invariant forall p :: p in old(disk) && HeldByTree(tree, dedup, meta, p) ==> p in disk && disk[p] == old(disk)[p]
        decreases |queue|
      {
        ResetTurn();
      }
      ListedAreHandled(opens, stamp, Now());
      WalkedIsSynced(inScope, Now());
      failed := PullTheRest();
      if failures == old(failures) {
        AllIsHere(Now());
      }
    }

    /** With nothing failed, whatever was to arrive has. */
    lemma AllIsHere(s: State)
      requires forall p :: p in s.tree && p !in s.handled && Scope(p) ==> Arrived(opens, s.disk, s.tree[p], p)
      ensures AllHere(opens, inScope, s)
    {
    }

    // ----- the scan ------------------------------------------------------------------------------------

    function FilesInScope(): set<Path>
      reads this`disk
    {
      set p | p in disk && Scope(p)
    }

    /** The files in scope, each once, in whatever order the vault lists them. */
    method List() returns (files: seq<Item>)
      ensures Distinct(files) && Queued(files) == FilesInScope()
      ensures forall f :: f in files ==> f.path in disk && f == Item(f.path, MtimeOf(f.path), sizeOf(disk[f.path]))
    {
      files := [];
      var todo := disk.Keys;
      while todo != {}
        invariant todo <= disk.Keys && Distinct(files)
        invariant forall p :: p in Queued(files) <==> p in disk && p !in todo && Scope(p)
        invariant forall f :: f in files ==> f.path in disk && f == Item(f.path, MtimeOf(f.path), sizeOf(disk[f.path]))
        decreases |todo|
      {
        var p :| p in todo;
        todo := todo - {p};
        if Scope(p) {
          ListedOneMore(files, Item(p, MtimeOf(p), sizeOf(disk[p])));
          files := files + [Item(p, MtimeOf(p), sizeOf(disk[p]))];
        }
      }
    }

    /** A recorded timestamp and size that still fit mean the bytes have not changed. */
    predicate HonestHints()
      reads this`ledger, this`disk, this`mtimes
    {
      forall p :: p in ledger && p in disk && ledger[p].hint == Some(Hint(MtimeOf(p), sizeOf(disk[p]))) ==>
        ledger[p].plainHash == disk[p]
    }

    /** One file measured: by its recorded hint where that is to be trusted and still fits, or by its bytes. */
    method MeasureListed(f: Item, trustHints: bool) returns (m: Option<Meta>)
      requires trustHints ==> HonestHints()
      requires f.path in disk && f == Item(f.path, MtimeOf(f.path), sizeOf(disk[f.path]))
      modifies this`failures
      ensures failures == old(failures) + if m.Some? then 0 else 1
      ensures m.Some? ==> m.value.plainHash == disk[f.path]
    {
      if trustHints && f.path in ledger && ledger[f.path].hint == Some(Hint(f.mtime, f.size)) {
        return Some(Meta(ledger[f.path].plainHash, f.mtime, f.size));
      }
      var bytes := Read(f.path);
      m := if bytes.Some? then Some(Meta(bytes.value, f.mtime, sizeOf(bytes.value))) else None;
    }

    /** Every file measured; a file that cannot be read ends the pass. */
    method Scan(files: seq<Item>, trustHints: bool) returns (ok: bool)
      requires trustHints ==> HonestHints()
      requires forall f :: f in files ==> f.path in disk && f == Item(f.path, MtimeOf(f.path), sizeOf(disk[f.path]))
      modifies this`meta, this`failures
      ensures old(failures) <= failures && (failures == old(failures) ==> ok)
      ensures forall p :: p in meta ==> p in disk && meta[p].plainHash == disk[p]
      ensures meta.Keys <= Queued(files) && (ok ==> meta.Keys == Queued(files))
    {
      hide Queued;
      meta := map[];
      ok := true;
      NothingQueued();
      var i := 0;
      while i < |files| && ok
        invariant 0 <= i <= |files|
        invariant forall p :: p in meta ==> p in disk && meta[p].plainHash == disk[p]
        invariant meta.Keys == Queued(files[..i]) && old(failures) <= failures && (failures == old(failures) ==> ok)
        decreases |files| - i, ok
      {
        assert files[i] in files && files[..i + 1] == files[..i] + [files[i]];
        QueuedOneMore(files[..i], files[i]);
        var m := MeasureListed(files[i], trustHints);
        if m.Some? {
          meta := meta[files[i].path := m.value];
          i := i + 1;
        } else {
          ok := false;
        }
      }
      SomeAreQueued(files, i);
    }

    /** Paths this device had synced and can no longer find, by their bytes: each in its list once. */
    method CollectVanished(here: set<Path>)
      modifies this`vanished
      ensures CollectedFrom(vanished, ledger)
      ensures forall c, v :: c in vanished && v in vanished[c] <==>
                v.path in ledger && Scope(v.path) && v.path !in here
                && c == ledger[v.path].plainHash && v == VanishedAt(v.path, ledger[v.path])
    {
      vanished := map[];
      var todo := ledger.Keys;
      while todo != {}
        invariant todo <= ledger.Keys
        invariant forall c, v :: c in vanished && v in vanished[c] <==>
                    v.path in ledger && v.path !in todo && Scope(v.path) && v.path !in here
                    && c == ledger[v.path].plainHash && v == VanishedAt(v.path, ledger[v.path])
        decreases |todo|
      {
        var p :| p in todo;
        todo := todo - {p};
        if Scope(p) && p !in here {
          var known := ledger[p];
          var list := if known.plainHash in vanished then vanished[known.plainHash] else [];
          vanished := vanished[known.plainHash := list + [VanishedAt(p, known)]];
        }
      }
    }

    // ----- a whole pass ---------------------------------------------------------------------------------

    /** What a pass in this epoch must not lose. */
    ghost function MustKeep(epoch: Epoch): map<Path, Content>
      reads this
    {
      Unsynchronised(disk, if epoch == Reset then map[] else ledger, FilesInScope())
    }

    /** The walked tree indexed, the vault scanned, what vanished collected, the queue filled. */
    method Prepare(epoch: Epoch, rescan: bool, walked: map<Path, ServerNode>, answer: map<Content, Address>) returns (ok: bool)
      requires Books(opens, Now(), {}) && NodesOk(walked) && DedupOk(opens, answer)
      requires !rescan && !PolicyOf(epoch).preferLocal ==> HonestHints()
      modifies this
      ensures ok ==> NoneForgotten(inScope, Now())
      ensures old(failures) <= failures && (failures == old(failures) ==> ok)
      ensures ok ==> Converging(inScope, Now())
      ensures ok && epoch == Reset ==> vanished == map[]
      ensures disk == old(disk) && policy == PolicyOf(epoch) && ledger == (if ok && epoch == Reset then map[] else old(ledger))
      ensures judged.given == Given(disk, FilesInScope(), ledger, walked, old(MustKeep(epoch)), old(judged.carried), old(judged.seen),
                                   old(judged.held), |old(judged.puts)|)
      ensures judged.told == PairsOf(walked) && judged.shown == HeadsOf(walked) && judged.carried == old(judged.carried)
      ensures judged.puts == old(judged.puts) && history == old(history)
      ensures Books(opens, Now(), {}) && DiskSafe(opens, stamp, Now()) && CarriedBounded(opens, Now()) && Informed(Now())
      ensures ok ==> Walking(opens, stamp, Now())
    {
      hide Books, Informed, DiskSafe, Walking, CarriedBounded, Indexes, TreeOk, Scanned, NodesOk, Resupplied, Listed, Converging, NoneForgotten;
      ghost var s, start := Now(), MustKeep(epoch);
      ok := Gather(epoch, rescan, walked, answer);
      ghost var s1 := Now();
      judged := Begun(s1, FilesInScope(), walked, start);
      Prepared(opens, stamp, s, s1, FilesInScope(), start, ok);
    }

    method Gather(epoch: Epoch, rescan: bool, walked: map<Path, ServerNode>, answer: map<Content, Address>) returns (ok: bool)
      requires NodesOk(walked)
      requires !rescan && !PolicyOf(epoch).preferLocal ==> HonestHints()
      modifies this`policy, this`tree, this`byNodeId, this`handled, this`queue, this`dedup, this`vanished, this`meta, this`ledger,
               this`ids, this`failures
      ensures ok ==> NoneForgotten(inScope, Begun(Now(), FilesInScope(), walked, old(MustKeep(epoch))))
      ensures old(failures) <= failures && (failures == old(failures) ==> ok)
      ensures ok ==> Converging(inScope, Begun(Now(), FilesInScope(), walked, old(MustKeep(epoch))))
      ensures ok && epoch == Reset ==> vanished == map[]
      ensures policy == PolicyOf(epoch) && ledger == (if ok && epoch == Reset then map[] else old(ledger)) && dedup == answer
      ensures tree == walked && TreeOk(tree, byNodeId) && Indexes(tree, byNodeId) && Scanned(disk, meta, vanished)
      ensures Resupplied(old(Now()), Now()) && (ok ==> Listed(Now(), FilesInScope(), old(MustKeep(epoch))))
      ensures forall p :: p in old(MustKeep(epoch)) ==> p in disk && disk[p] == old(MustKeep(epoch))[p]
    {
      hide Indexes, TreeOk, Scanned, NodesOk, Resupplied, Listed, CollectedFrom, Distinct, NodesIn, Converging, PolicyOf, NoneBack,
           Unsynchronised, AllListed, NoneForgotten;
      ghost var s, start := Now(), MustKeep(epoch);
      NoteTree(walked);
      ok := Supply(epoch, rescan, answer);
      assert AllListed(inScope, disk, FilesInScope()) by {
        ListsAll();
      }
      Supplied(s, epoch, start, walked, ok);
    }

    /** What a pass has been supplied with, and where it begins. */
    ghost method Supplied(s: State, epoch: Epoch, start: map<Path, Content>, walked: map<Path, ServerNode>, ok: bool)
      requires Now() == s.(policy := policy, tree := tree, byNodeId := byNodeId, meta := meta, dedup := dedup, vanished := vanished,
                           handled := handled, queue := queue, ledger := ledger, ids := ids)
      requires ledger == (if ok && epoch == Reset then map[] else s.ledger) && CollectedFrom(vanished, ledger) && NodesIn(s.ledger, ids)
      requires start == Unsynchronised(s.disk, if epoch == Reset then map[] else s.ledger, FilesInScope())
      requires ok ==> Distinct(queue) && Queued(queue) == FilesInScope() && meta.Keys == FilesInScope() && NoneBack(vanished, disk)
      requires AllListed(inScope, disk, FilesInScope()) && (ok ==> AllInLists(inScope, vanished, ledger, FilesInScope()))
      ensures ok ==> NoneForgotten(inScope, Begun(Now(), FilesInScope(), walked, start))
      ensures Resupplied(s, Now()) && (ok ==> Listed(Now(), FilesInScope(), start)) && forall p :: p in start ==> p in disk && disk[p] == start[p]
      ensures ok ==> Converging(inScope, Begun(Now(), FilesInScope(), walked, start))
    {
      hide Resupplied, Listed, CollectedFrom, Distinct, NodesIn, Converging, Unsynchronised, NoneBack, AllListed, AllInLists, NoneForgotten;
      SuppliedIsPrepared(s, Now(), epoch, FilesInScope(), start, ok);
      if ok {
        BegunConverges(inScope, Now(), FilesInScope(), walked, start);
        BegunForgetsNone(inScope, Now(), FilesInScope(), walked, start);
      }
    }

    lemma ListsAll()
      ensures AllListed(inScope, disk, FilesInScope())
    {
    }

    /** The nodes there are, and the walked tree with its index. */
    method NoteTree(walked: map<Path, ServerNode>)
      requires NodesOk(walked)
      modifies this`tree, this`byNodeId, this`ids
      ensures tree == walked && TreeOk(tree, byNodeId) && Indexes(tree, byNodeId) && NodesIn(ledger, ids)
    {
      hide Indexes, TreeOk, NodesIn;
      NoteNodes();
      TakeTree(walked);
    }

    method NoteNodes()
      modifies this`ids
      ensures NodesIn(ledger, ids)
    {
      ids := set p | p in ledger :: ledger[p].nodeId;
    }

    method TakeTree(walked: map<Path, ServerNode>)
      requires NodesOk(walked)
      modifies this`tree, this`byNodeId
      ensures tree == walked && TreeOk(tree, byNodeId) && Indexes(tree, byNodeId)
    {
      tree := walked;
      byNodeId := map p | p in walked :: walked[p].nodeId := walked[p];
      IndexIsOk(tree, byNodeId);
    }

    method Supply(epoch: Epoch, rescan: bool, answer: map<Content, Address>) returns (ok: bool)
      requires !rescan && !PolicyOf(epoch).preferLocal ==> HonestHints()
      modifies this`policy, this`handled, this`queue, this`dedup, this`vanished, this`meta, this`ledger, this`failures
      ensures ok && epoch != Reset ==> AllInLists(inScope, vanished, ledger, FilesInScope())
      ensures old(failures) <= failures && (failures == old(failures) ==> ok)
      ensures ok ==> NoneBack(vanished, disk)
      ensures ok && epoch == Reset ==> vanished == map[]
      ensures policy == PolicyOf(epoch) && dedup == answer && ledger == if ok && epoch == Reset then map[] else old(ledger)
      ensures CollectedFrom(vanished, ledger) && Scanned(disk, meta, vanished)
      ensures ok ==> Distinct(queue) && Queued(queue) == FilesInScope() && meta.Keys == FilesInScope()
    {
      hide Distinct;
      policy, dedup := PolicyOf(epoch), answer;
      handled, queue, vanished := {}, [], map[];
      var files := List();
      ok := Scan(files, !rescan && !policy.preferLocal);
      if ok {
        queue := files;
        Forget(epoch);
      }
    }

    /** What vanished since the last pass; after a reset nothing is known to have been there. */
    method Forget(epoch: Epoch)
      requires forall p :: p in meta ==> p in disk && meta[p].plainHash == disk[p]
      modifies this`vanished, this`ledger
      ensures epoch != Reset ==> AllInLists(inScope, vanished, ledger, meta.Keys)
      ensures meta.Keys == FilesInScope() ==> NoneBack(vanished, disk)
      ensures epoch == Reset ==> vanished == map[]
      ensures ledger == if epoch == Reset then map[] else old(ledger)
      ensures CollectedFrom(vanished, ledger) && Scanned(disk, meta, vanished)
    {
      vanished := map[];
      if epoch == Reset {
        ledger := map[];
      } else {
        CollectVanished(meta.Keys);
        AllCollected();
      }
    }

    lemma AllCollected()
      requires forall c, v :: c in vanished && v in vanished[c] <==>
                 v.path in ledger && Scope(v.path) && v.path !in meta.Keys
                 && c == ledger[v.path].plainHash && v == VanishedAt(v.path, ledger[v.path])
      ensures AllInLists(inScope, vanished, ledger, meta.Keys)
    {
      forall p | p in ledger && Travels(inScope, p) && p !in meta.Keys ensures InLists(vanished, p) {
        var v := VanishedAt(p, ledger[p]);
        assert v.path == p && ledger[p].plainHash in vanished && v in vanished[ledger[p].plainHash];
      }
    }

    /** A pass. Whatever the server answers and whatever fails, it is all that `PassOf` says of one, and the
        next chapter of the device's history; the writes it had accepted are the ones the server logged.
        `answer` is what the dedup lookup said. */
    method Sync(epoch: Epoch, rescan: bool, walked: map<Path, ServerNode>, answer: map<Content, Address>) returns (scanned: bool)
      requires InOrder() && NodesOk(walked) && DedupOk(opens, answer) && server.Valid()
      requires !rescan && !PolicyOf(epoch).preferLocal ==> HonestHints()
      modifies this, server
      ensures failures == old(failures) ==> AllGone(inScope, Now()) && AllHere(opens, inScope, Now())
      ensures old(failures) <= failures
      ensures failures == old(failures) ==> scanned
      ensures failures == old(failures) && judged.taken == {} ==> Unsynchronised(disk, ledger, FilesInScope()) == map[]
      ensures InOrder() && server.Valid() && history == old(history) + [Passed(Now())] && policy == PolicyOf(epoch)
      ensures judged.given.listed == old(FilesInScope()) && judged.given.walked == walked
      ensures judged.given.ledger == (if scanned && epoch == Reset then map[] else old(ledger))
      ensures judged.given.start == old(MustKeep(epoch)) && PassOf(opens, stamp, old(Now()), Now())
      ensures FromServer(server.ages, Now()) && old(server.ages) <= server.ages
      ensures server.log == old(server.log) + judged.puts[|old(judged.puts)|..]
    {
      hide Walking, Inv, Informed, CarriedBounded, DiskSafe, Chronicle, Indexes, TreeOk, Recalled, HeardRightly, WasHead, Books, Finished,
           PassOf, NodesOk, FromServer, InStep, StartStands, Later, TakenUp, Converging, FilesSynced, Unsynchronised;
      ghost var s0, ages0 := Now(), server.ages;
      scanned := Prepare(epoch, rescan, walked, answer);
      ghost var s, log := Now(), server.log;
      assert TakenUp(s0, s) by {
        PreparedTakesUp(s0, s, epoch, FilesInScope());
      }
      MustKeepStands(s, epoch, old(ledger), FilesInScope());
      NothingYet(opens, stamp, s);
      SilentInStep(ages0, log, s, s);
      if scanned {
        Finish(epoch, s, ages0, log);
      }
      Conclude(s0, s, ages0, log);
      if FilesSynced(inScope, disk, ledger) {
        SyncedKeepsNothing(inScope, disk, ledger, FilesInScope());
      }
    }

    /** However far the pass got, it is the next chapter. */
    ghost method Conclude(s0: State, s: State, ages0: seq<Heads>, log: seq<Put>)
      requires Recalled(opens, stamp, history) && Latest(history) == s0 && HeardRightly(ages0, history)
      requires TakenUp(s0, s) && StartStands(s) && Finished(opens, stamp, s, Now()) && s.shown == HeadsOf(s.given.walked)
      requires InStep(ages0, log, s, server.ages, server.log, Now())
      modifies this`history
      ensures history == old(history) + [Passed(Now())] && InOrder() && PassOf(opens, stamp, s0, Now()) && FromServer(server.ages, Now())
      ensures judged.given == s.given && policy == s.policy && ages0 <= server.ages && server.log == log + judged.puts[|s.puts|..]
    {
      hide Recalled, HeardRightly, FromServer, WasHead, TakenUp, StartStands, Books, Chronicle, ToldIsBounded, LedgerIsTraced, CarriedBounded,
           PassOf;
      FinishedIsPass(opens, stamp, s0, s, Now());
      InStepIsFromServer(ages0, log, s, server.ages, server.log, Now());
      RecalledOneMore(opens, stamp, server.ages, ages0, history, Passed(Now()));
      history := history + [Passed(Now())];
    }

    /** Everything after the scan. */
    method Finish(epoch: Epoch, ghost s: State, ghost ages: seq<Heads>, ghost log: seq<Put>)
      requires Walking(opens, stamp, Now()) && server.Valid() && s == Now() && ages == server.ages && log == server.log
      modifies this, server
      ensures failures == old(failures) && NoneForgotten(inScope, old(Now())) && (epoch == Reset ==> policy == PolicyOf(Reset)) ==>
                AllGone(inScope, Now()) && AllHere(opens, inScope, Now())
      ensures old(failures) <= failures
      ensures failures == old(failures) && judged.taken == {} && Converging(inScope, old(Now())) && (epoch == Reset ==> old(vanished) == map[]) ==>
                FilesSynced(inScope, disk, ledger)
      ensures Finished(opens, stamp, s, Now()) && server.Valid() && history == old(history)
      ensures InStep(ages, log, s, server.ages, server.log, Now())
    {
      hide Walking, Finished, InStep, Converging, FilesSynced;
      if epoch == Reset {
        FinishReset(s);
        SilentInStep(ages, log, s, s);
        QuietInStep(ages, log, s, ages, log, s, Now());
      } else {
        FinishWalk(s, ages, log);
      }
    }

    /** Everything after the scan, where nothing was reset. */
    method FinishWalk(ghost s: State, ghost ages: seq<Heads>, ghost log: seq<Put>)
      requires Walking(opens, stamp, Now()) && server.Valid() && s == Now() && ages == server.ages && log == server.log
      modifies this, server
      ensures failures == old(failures) && NoneForgotten(inScope, old(Now())) ==> AllGone(inScope, Now()) && AllHere(opens, inScope, Now())
      ensures old(failures) <= failures
      ensures failures == old(failures) && judged.taken == {} && Converging(inScope, old(Now())) ==> FilesSynced(inScope, disk, ledger)
      ensures Finished(opens, stamp, s, Now()) && server.Valid() && history == old(history)
      ensures InStep(ages, log, s, server.ages, server.log, Now())
    {
      hide Walking, Inv, CarriedBounded, Clear, Converging, FilesSynced, NoneForgotten, ListsGone, AllGone, AllHere;
      Walk();
      ghost var s1, ages1, log1 := Now(), server.ages, server.log;
      WalkingIsInv(opens, stamp, s1);
      WalkingIsCollected(opens, stamp, s1);
      WalkedIsClear(inScope, s1);
      ReconcileVanished();
      ClearIsSynced(inScope, Now());
      ghost var s2 := Now();
      var _ := PullTheRest();
      if failures == old(failures) && NoneForgotten(inScope, s) {
        NoneForgottenIsGone(inScope, s1, Now());
        AllIsHere(Now());
      }
      FinishedQuietly(opens, stamp, s, s1, Now());
      QuietInStep(ages, log, s, ages1, log1, s1, Now());
    }

    /** The pass after a reset. */
    method FinishReset(ghost s: State)
      requires Walking(opens, stamp, Now()) && s == Now()
      modifies this
      ensures policy == old(policy) && (failures == old(failures) ==> AllHere(opens, inScope, Now()))
      ensures old(failures) <= failures
      ensures failures == old(failures) && judged.taken == {} && Converging(inScope, old(Now())) && old(vanished) == map[] ==>
                FilesSynced(inScope, disk, ledger)
      ensures Finished(opens, stamp, s, Now()) && history == old(history) && judged.puts == s.puts && judged.shown == s.shown
    {
      hide Walking, Inv, CarriedBounded, Converging, FilesSynced;
      WalkingIsInv(opens, stamp, s);
      var _ := ResyncAfterReset();
      FinishedQuietly(opens, stamp, s, s, Now());
    }

    /** What happens to the vault between passes: anything. */
    method Edited(disk': map<Path, Content>, mtimes': map<Path, int>)
      requires InOrder()
      modifies this`disk, this`mtimes, this`judged, this`history
      ensures disk == disk' && mtimes == mtimes' && judged.puts == old(judged.puts) && InOrder()
      ensures history == old(history) + [Chapter.Edited(Now())]
    {
      hide Recalled, HeardRightly, WasHead, Books;
      ghost var s := Now();
      disk, mtimes := disk', mtimes';
      TakeNote(s);
    }

    /** An edit becomes the next chapter. */
    ghost method TakeNote(s: State)
      requires Books(opens, s, {}) && Recalled(opens, stamp, history) && HeardRightly(server.ages, history) && Latest(history) == s
      requires Now() == s.(disk := disk)
      modifies this`judged, this`history
      ensures Now() == s.(disk := disk, seen := s.seen + disk.Values) && history == old(history) + [Chapter.Edited(Now())] && InOrder()
    {
      hide Recalled, HeardRightly, WasHead, Books;
      judged := judged.(seen := s.seen + disk.Values);
      BooksAfterDisk(opens, s, Now(), {});
      RecalledOneMore(opens, stamp, server.ages, server.ages, history, Chapter.Edited(Now()));
      history := history + [Chapter.Edited(Now())];
    }
  }

  ghost predicate AllInOrder(devices: seq<Device>, server: Server)
    reads devices, server
  {
    forall i :: 0 <= i < |devices| ==> devices[i].server == server && devices[i].InOrder()
  }

  /** What each device has had accepted. */
  ghost function PutsOf(devices: seq<Device>): seq<seq<Put>>
    reads devices
  {
    seq(|devices|, i requires 0 <= i < |devices| reads devices => devices[i].judged.puts)
  }

  ghost predicate OneOfTheirs(puts: seq<seq<Put>>, put: Put) {
    exists i :: 0 <= i < |puts| && put in puts[i]
  }

  /** The log from some point on is of writes the devices have had accepted. */
  ghost predicate Theirs(puts: seq<seq<Put>>, log: seq<Put>, from: nat) {
    forall k :: from <= k < |log| ==> OneOfTheirs(puts, log[k])
  }

  lemma {:induction false} StillTheirs(puts: seq<seq<Put>>, log: seq<Put>, from: nat, i: nat, mine: seq<Put>)
    requires i < |puts| && puts[i] <= mine && Theirs(puts, log, from)
    ensures Theirs(puts[i := mine], log + mine[|puts[i]|..], from)
  {
    var puts', log' := puts[i := mine], log + mine[|puts[i]|..];
    forall k | from <= k < |log'| ensures OneOfTheirs(puts', log'[k]) {
      if k < |log| {
        assert OneOfTheirs(puts, log[k]);
        var j :| 0 <= j < |puts| && log[k] in puts[j];
        assert log[k] in puts'[j];
      } else {
        assert log'[k] in puts'[i];
      }
    }
  }

  /** Any run of any number of devices against one server, each pass or edit wherever it comes, a pass only
      where the server's tree and lookup make sense and the recorded hints, where it relies on them, are
      honest. Every write the server accepted in it replaced exactly the base it named; and whatever a device
      holds, has seen, carries or has had accepted comes from a chapter of its history. */
  method Run(devices: seq<Device>, server: Server, turns: nat)
    requires forall i, j :: 0 <= i < j < |devices| ==> devices[i] != devices[j]
    requires AllInOrder(devices, server) && server.Valid()
    modifies devices, server
    ensures AllInOrder(devices, server) && server.Valid() && old(server.ages) <= server.ages && old(server.log) <= server.log
    ensures Theirs(PutsOf(devices), server.log, |old(server.log)|)
    ensures forall k :: |old(server.log)| <= k < |server.log| ==> Lands(server.ages, server.log[k])
    ensures forall i :: 0 <= i < |devices| ==> old(devices[i].history) <= devices[i].history
    ensures forall i :: 0 <= i < |devices| ==> Accounts(devices[i].opens, devices[i].history)
    ensures forall i :: 0 <= i < |devices| ==> old(devices[i].judged.puts) <= devices[i].judged.puts
  {
    hide Accounts, Recalled, HeardRightly, Books;
    ghost var ages0, log0 := server.ages, server.log;
    for turn := 0 to turns
      invariant AllInOrder(devices, server) && server.Valid() && ages0 <= server.ages && log0 <= server.log
      invariant Theirs(PutsOf(devices), server.log, |log0|)
      invariant forall i :: 0 <= i < |devices| ==> old(devices[i].history) <= devices[i].history
      invariant forall i :: 0 <= i < |devices| ==> old(devices[i].judged.puts) <= devices[i].judged.puts
    {
      var i: int := *;
      if 0 <= i < |devices| {
        OneDevice(devices, server, i, |log0|);
      }
    }
    forall i | 0 <= i < |devices| ensures Accounts(devices[i].opens, devices[i].history) {
      assert devices[i].InOrder();
      HistoryAccounts(devices[i].opens, devices[i].stamp, devices[i].history);
    }
  }

  /** Whatever one device does next. */
  method TakePart(device: Device)
    requires device.InOrder() && device.server.Valid()
    modifies device, device.server
    ensures device.InOrder() && device.server.Valid() && old(device.history) <= device.history
    ensures old(device.server.ages) <= device.server.ages && old(device.judged.puts) <= device.judged.puts
    ensures device.server.log == old(device.server.log) + device.judged.puts[|old(device.judged.puts)|..]
  {
    hide Books, Chronicle, ToldIsBounded, CarriedBounded, WasHead, NodesOk, DedupOk, PolicyOf, HeadsOf, Recalled, HeardRightly, FromServer;
    var pass: bool, epoch: Epoch, rescan: bool, walked: map<Path, ServerNode>, answer: map<Content, Address> := *, *, *, *, *;
    if !pass {
      var disk: map<Path, Content>, mtimes: map<Path, int> := *, *;
      device.Edited(disk, mtimes);
    } else if NodesOk(walked) && DedupOk(device.opens, answer) && (rescan || PolicyOf(epoch).preferLocal || device.HonestHints()) {
      var _ := device.Sync(epoch, rescan, walked, answer);
    }
  }

  method OneDevice(devices: seq<Device>, server: Server, i: nat, ghost from: nat)
    requires i < |devices|
    requires forall j, k :: 0 <= j < k < |devices| ==> devices[j] != devices[k]
    requires AllInOrder(devices, server) && server.Valid() && Theirs(PutsOf(devices), server.log, from)
    modifies devices[i], server
    ensures AllInOrder(devices, server) && server.Valid() && Theirs(PutsOf(devices), server.log, from)
    ensures old(server.ages) <= server.ages && old(server.log) <= server.log
    ensures forall j :: 0 <= j < |devices| ==> old(devices[j].judged.puts) <= devices[j].judged.puts
    ensures forall j :: 0 <= j < |devices| ==> old(devices[j].history) <= devices[j].history
  {
    hide Theirs, Recalled, HeardRightly, Books;
    ghost var puts, log, ages := PutsOf(devices), server.log, server.ages;
    assert devices[i].InOrder();
    assert forall j :: 0 <= j < |devices| && j != i ==> devices[j] != devices[i];
    TakePart(devices[i]);
    forall j | 0 <= j < |devices| && j != i ensures devices[j].InOrder() {
      assert old(devices[j].InOrder());
      assert devices[j].Now() == old(devices[j].Now()) && devices[j].history == old(devices[j].history);
      HeardRightlyStill(ages, server.ages, devices[j].history);
    }
    assert PutsOf(devices) == puts[i := devices[i].judged.puts];
    StillTheirs(puts, log, from, i, devices[i].judged.puts);
  }
}
