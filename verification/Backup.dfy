/** Copying two stores as one, and putting the copy back.

    One lock keeps the collector away; a window turns new writes away but not those under way; the
    database is dumped before the blobs are copied, and restored after them. */
module Backup {
  import opened Options
  import Holdings

  type Address = Holdings.Address

  /** How far a backup that holds the lock has got. */
  datatype Leg =
    | Granted
    | Open
    | Dumped(refs: set<Address>)
    | Copying(refs: set<Address>, todo: set<Address>, copied: set<Address>)

  /** Who holds the lock. */
  datatype Hold = Free | Collecting | BackingUp(leg: Leg)

  /** A finished copy: what its dump references, and the blobs beside it. */
  datatype Copy = Copy(refs: set<Address>, blobs: set<Address>)

  datatype Status = Done | Failed | Skipped | Refused

  /** When, in the history of the store, a copy's database was dumped and its files were listed. */
  datatype Moments = Moments(dumped: nat, listed: nat)

  /** A copy's references are those of one moment, and its blobs are what the store had of them when it was
      listed; by then every one of them still had its row. */
  ghost predicate TakenAt(past: seq<Holdings.Entry>, m: Moments, refs: set<Address>, blobs: set<Address>) {
    && m.dumped <= m.listed < |past|
    && refs == past[m.dumped].yard.names && refs <= past[m.listed].yard.blobs.Keys
    && refs * past[m.listed].yard.files <= blobs
  }

  lemma {:induction false} TakenStill(past: seq<Holdings.Entry>, past': seq<Holdings.Entry>, m: Moments, refs: set<Address>, blobs: set<Address>)
    requires TakenAt(past, m, refs, blobs) && past <= past'
    ensures TakenAt(past', m, refs, blobs)
  {
    assert past'[m.dumped] == past[m.dumped] && past'[m.listed] == past[m.listed];
  }

  /** What goes wrong around a run: whether the dump fails, and which files cannot be read. */
  datatype Trouble = Trouble(dump: bool, unreadable: set<Address>)

  ghost predicate RefusedSince(past: seq<Holdings.Entry>, from: nat) {
    exists k :: from <= k < |past| && past[k].event.Refused?
  }

  /** None of those files is in the store from then on. */
  ghost predicate NoneInStore(some: set<Address>, past: seq<Holdings.Entry>, from: nat) {
    forall k :: from <= k < |past| ==> some !! past[k].yard.files
  }

  /** Where the collector is kept away, only a refused upload takes a file. */
  lemma {:induction false} FilesStay(past: seq<Holdings.Entry>, past': seq<Holdings.Entry>)
    requires Holdings.Chronicle(past') && past != [] && past <= past' && Holdings.Theirs(past', |past|) && !RefusedSince(past', |past|)
    ensures past[|past| - 1].yard.files <= past'[|past'| - 1].yard.files
    decreases |past'|
  {
    if |past'| > |past| {
      var n := |past'| - 1;
      assert Holdings.Follows(past'[n - 1].yard, past'[n].event, past'[n].yard);
      assert !past'[n].event.Refused? && !past'[n].event.Unlinked?;
      var shorter := past'[..n];
      ShorterIsOne(past', n);
      FilesStay(past, shorter);
    }
  }

  lemma {:induction false} ShorterIsOne(past: seq<Holdings.Entry>, n: nat)
    requires Holdings.Chronicle(past) && 0 < n <= |past|
    ensures Holdings.Chronicle(past[..n])
  {
    var shorter := past[..n];
    forall i | 0 < i < n && shorter[i].event.Unlinked? ensures Holdings.CheckedBefore(shorter, i) {
      var c: nat :| Holdings.CheckedAt(past, c, i);
      assert Holdings.CheckedAt(shorter, c, i);
    }
  }

  /** Nothing of the store's is without its file, and no upload is refused while the backup runs. */
  ghost predicate Undisturbed(past: seq<Holdings.Entry>, from: nat) {
    && 0 < from <= |past| && Holdings.Complete(past[from - 1].yard)
    && (forall k :: from <= k < |past| ==> !past[k].event.Refused?)
  }

  /** A copy taken while nothing was disturbed lacks nothing it references. */
  lemma {:induction false} UndisturbedCopiesAreWhole(past: seq<Holdings.Entry>, from: nat, m: Moments, refs: set<Address>, blobs: set<Address>)
    requires Holdings.Chronicle(past) && 0 < from <= |past| && from <= m.listed + 1 && TakenAt(past, m, refs, blobs)
    requires Undisturbed(past, from) && Holdings.Theirs(past, from)
    ensures refs <= blobs
  {
    forall a | a in refs ensures a in blobs {
      if a !in past[m.listed].yard.files {
        assert forall j: nat :: from - 1 < j ==> !Holdings.RemovedAt(past, j, m.listed, a);
        Holdings.NewlyMissing(past, from - 1, m.listed, a);
        assert false;
      }
    }
  }

  class Host {
    const server: Holdings.Server
    var hold: Hold
    var windowOpen: bool
    var copies: seq<Copy>
    /** When each copy was taken, and the one being taken. */
    ghost var takes: seq<Moments>
    ghost var taking: Moments

    constructor (server: Holdings.Server)
      requires server.Valid()
      ensures Valid() && this.server == server && hold == Free && !windowOpen && copies == []
    {
      this.server, hold, windowOpen, copies, takes, taking := server, Free, false, [], [], Moments(0, 0);
    }

    /** The window is open only inside a backup's hold, every leg runs inside the window, and what a dump
        references is in its copy, or still to be copied, or had no file when the files were listed. */
    ghost predicate Valid()
      reads this, server
    {
      && server.Valid()
      && (windowOpen ==> hold.BackingUp?)
      && (hold.BackingUp? && !hold.leg.Granted? ==> windowOpen)
      && (hold.BackingUp? ==> LegOk(server.past, hold.leg, taking))
      && |takes| == |copies| && (forall i :: 0 <= i < |copies| ==> TakenAt(server.past, takes[i], copies[i].refs, copies[i].blobs))
    }

    static ghost predicate LegOk(past: seq<Holdings.Entry>, leg: Leg, m: Moments) {
      match leg
      case Granted => true
      case Open => true
      case Dumped(refs) => m.dumped < |past| && refs == past[m.dumped].yard.names && refs <= past[|past| - 1].yard.blobs.Keys
      case Copying(refs, todo, copied) => TakenAt(past, m, refs, todo + copied)
    }

    // ----- everybody else ---------------------------------------------------------------------------

    /** The hook every request passes: while any leg of a backup runs exactly the reads are admitted, and while
        no backup holds the lock everything is. */
    method Admit(readOnly: bool) returns (accepted: bool)
      requires Valid()
      ensures hold.BackingUp? && !hold.leg.Granted? ==> accepted == readOnly
      ensures !hold.BackingUp? ==> accepted
    {
      accepted := !windowOpen || readOnly;
    }

    /** Whatever was admitted goes on, and commits at any moment, window or none; a collector that comes
        by meanwhile finds the lock held. */
    method Meanwhile(now: int)
      requires Valid() && !hold.Free?
      modifies server
      ensures Valid() && old(server.past) <= server.past && Holdings.Theirs(server.past, |old(server.past)|)
    {
      hide Holdings.Chronicle, Holdings.Claimed, Holdings.Rooted, Holdings.CheckedBefore, Holdings.Theirs;
      server.HasBegun();
      ghost var past := server.past;
      server.Others(now);
      HistoryGoesOn(past, server.past);
    }

    lemma HistoryGoesOn(past: seq<Holdings.Entry>, past': seq<Holdings.Entry>)
      requires past <= past' && past != [] && past[|past| - 1].yard.blobs.Keys <= past'[|past'| - 1].yard.blobs.Keys
      ensures hold.BackingUp? && LegOk(past, hold.leg, taking) ==> LegOk(past', hold.leg, taking)
      ensures forall i :: 0 <= i < |copies| && i < |takes| && TakenAt(past, takes[i], copies[i].refs, copies[i].blobs) ==>
                TakenAt(past', takes[i], copies[i].refs, copies[i].blobs)
    {
    }

    // ----- the lock ----------------------------------------------------------------------------------

    /** `runCollector`: the lock is tried once, and a pass that cannot have it does nothing. */
    method RunCollector(now: int, ttl: nat, quarantine: nat, thinned: set<Holdings.Version>) returns (skipped: bool)
      requires Valid()
      modifies this`hold, server
      ensures Valid() && skipped == !old(hold).Free? && hold == old(hold) && old(server.past) <= server.past
      ensures skipped ==> unchanged(server)
      ensures !skipped ==> forall a :: Holdings.Needed(server.Now(), a) && a !in server.files ==>
                (Holdings.Needed(old(server.Now()), a) && a !in old(server.files)) || Holdings.TakenSince(server.past, |old(server.past)|, a)
      ensures !skipped ==> server.orphans == {} && Holdings.NoneStale(server.claims, now, ttl)
      ensures !skipped ==> exists k :: |old(server.past)| <= k < |server.past| && server.past[k].event == Holdings.Swept(now, quarantine)
    {
      hide Holdings.Chronicle, Holdings.Claimed, Holdings.Rooted, Holdings.TakenSince, Holdings.Needed, Holdings.Reserved, Holdings.NoneStale;
      skipped := !hold.Free?;
      if !skipped {
        hold := Collecting;
        ghost var past := server.past;
        var _ := server.Sweep(now, ttl, quarantine, thinned);
        CopiesStay(past, server.past);
        hold := Free;
      }
    }

    lemma CopiesStay(past: seq<Holdings.Entry>, past': seq<Holdings.Entry>)
      requires past <= past'
      ensures forall i :: 0 <= i < |copies| && i < |takes| && TakenAt(past, takes[i], copies[i].refs, copies[i].blobs) ==>
                TakenAt(past', takes[i], copies[i].refs, copies[i].blobs)
    {
    }

    /** `holdForBackup`: the lock, then the window; or neither, once the wait has run out. */
    method HoldForBackup() returns (ok: bool)
      requires Valid()
      modifies this`hold, this`windowOpen
      ensures Valid() && ok == old(hold).Free?
      ensures ok ==> hold == BackingUp(Open) && windowOpen
      ensures !ok ==> hold == old(hold) && windowOpen == old(windowOpen)
    {
      ok := hold.Free?;
      if ok {
        hold := BackingUp(Granted);
        windowOpen := true;
        hold := BackingUp(Open);
      }
    }

    /** Both or neither: the window, then the lock. */
    method Release()
      requires Valid() && hold.BackingUp?
      modifies this`hold, this`windowOpen
      ensures Valid() && hold == Free && !windowOpen
    {
      windowOpen := false;
      hold := Free;
    }

    // ----- the legs ---------------------------------------------------------------------------------

    /** The database first: one consistent snapshot. */
    method DumpDatabase(fails: bool) returns (ok: bool)
      requires Valid() && hold == BackingUp(Open)
      modifies this`hold, this`taking
      ensures ok == !fails
      ensures Valid() && hold == if ok then BackingUp(Dumped(Holdings.NamesOf(server.nodes, server.versions))) else old(hold)
      ensures ok ==> taking.dumped == |server.past| - 1
    {
      ok := !fails;
      if ok {
        hold := BackingUp(Dumped(Holdings.NamesOf(server.nodes, server.versions)));
        taking := Moments(|server.past| - 1, |server.past| - 1);
        server.RowsOfNames();
      }
    }

    /** The walk over the live store begins: what is there now is to be copied. */
    method ListBlobs()
      requires Valid() && hold.BackingUp? && hold.leg.Dumped?
      modifies this`hold, this`taking
      ensures Valid() && hold == BackingUp(Copying(old(hold).leg.refs, server.files, {}))
      ensures taking == Moments(old(taking).dumped, |server.past| - 1)
    {
      taking := Moments(taking.dumped, |server.past| - 1);
      hold := BackingUp(Copying(hold.leg.refs, server.files, {}));
    }

    /** One file copied; one that has gone since it was listed fails the run. */
    method CopyBlob(a: Address, unreadable: set<Address>) returns (ok: bool)
      requires Valid() && hold.BackingUp? && hold.leg.Copying? && a in hold.leg.todo
      modifies this`hold
      ensures Valid() && hold.BackingUp? && ok == (a in server.files && a !in unreadable)
      ensures ok ==> a in server.files && hold.leg == Copying(old(hold).leg.refs, old(hold).leg.todo - {a}, old(hold).leg.copied + {a})
      ensures !ok ==> hold == old(hold)
    {
      ok := a in server.files && a !in unreadable;
      if ok {
        hold := BackingUp(Copying(hold.leg.refs, hold.leg.todo - {a}, hold.leg.copied + {a}));
      }
    }

    /** Every file listed, until one has gone or cannot be read. */
    method CopyBlobs(now: int, unreadable: set<Address>) returns (ok: bool)
      requires Valid() && hold.BackingUp? && hold.leg.Dumped?
      modifies this`hold, this`taking, server
      ensures Valid() && hold.BackingUp? && taking.dumped == old(taking).dumped && |old(server.past)| <= taking.listed + 1
      ensures old(server.past) <= server.past && Holdings.Theirs(server.past, |old(server.past)|)
      ensures ok ==> hold.leg.Copying? && hold.leg.todo == {} && hold.leg.refs == old(hold).leg.refs
      ensures ok ==> hold.leg.copied == old(server.files) && hold.leg.copied !! unreadable
      ensures old(server.files) !! unreadable && !RefusedSince(server.past, |old(server.past)|) ==> ok
    {
      hide Holdings.Chronicle, Holdings.Claimed, Holdings.Rooted, TakenAt, Holdings.Theirs, Holdings.Reserved, RefusedSince;
      server.HasBegun();
      ghost var past0 := server.past;
      ListBlobs();
      ok := true;
      NothingYet(server.past);
      while ok && hold.leg.todo != {}
        invariant Valid() && hold.BackingUp? && hold.leg.Copying? && hold.leg.refs == old(hold).leg.refs
        invariant taking == Moments(old(taking).dumped, |old(server.past)| - 1)
        invariant old(server.past) <= server.past && Holdings.Theirs(server.past, |old(server.past)|)
        invariant hold.leg.todo + hold.leg.copied == old(server.files) && hold.leg.copied !! unreadable
        invariant ok || !(old(server.files) !! unreadable) || RefusedSince(server.past, |old(server.past)|)
        decreases hold.leg.todo, ok
      {
        ghost var past := server.past;
        Meanwhile(now);
        Holdings.TheirsTwice(past, server.past, |old(server.past)|);
        var a :| a in hold.leg.todo;
        ok := CopyBlob(a, unreadable);
        if !ok && !RefusedSince(server.past, |old(server.past)|) {
          StillThere(past0);
        }
      }
    }

    lemma StillThere(past: seq<Holdings.Entry>)
      requires Valid() && past != [] && past <= server.past && Holdings.Theirs(server.past, |past|) && !RefusedSince(server.past, |past|)
      ensures past[|past| - 1].yard.files <= server.files
    {
      hide RefusedSince, Holdings.Theirs, Holdings.Chronicle;
      FilesStay(past, server.past);
    }

    lemma NothingYet(past: seq<Holdings.Entry>)
      ensures Holdings.Theirs(past, |past|)
    {
    }

    /** The database, then the blobs. */
    method RunLegs(now: int, trouble: Trouble) returns (ok: bool)
      requires Valid() && hold == BackingUp(Open)
      modifies this`hold, this`taking, server
      ensures Valid() && hold.BackingUp? && (ok ==> hold.leg.Copying? && hold.leg.todo == {})
      ensures old(server.past) <= server.past && Holdings.Theirs(server.past, |old(server.past)|)
      ensures ok ==> |old(server.past)| - 1 <= taking.dumped && |old(server.past)| <= taking.listed + 1
      ensures ok ==> !trouble.dump && hold.leg.copied !! trouble.unreadable
      ensures (&& !trouble.dump && NoneInStore(trouble.unreadable, server.past, |old(server.past)| - 1)
               && !RefusedSince(server.past, |old(server.past)|)) ==> ok
    {
      hide Holdings.Chronicle, Holdings.Claimed, Holdings.Rooted, TakenAt, Holdings.Theirs, Holdings.Reserved;
      server.HasBegun();
      ghost var from := |server.past|;
      Meanwhile(now);
      ok := DumpDatabase(trouble.dump);
      if ok {
        ghost var past1 := server.past;
        Meanwhile(now);
        Holdings.TheirsTwice(past1, server.past, from);
        ghost var past2 := server.past;
        assert past2[|past2| - 1].yard.files == server.files;
        ok := CopyBlobs(now, trouble.unreadable);
        assert past2[|past2| - 1] == server.past[|past2| - 1];
        Holdings.TheirsTwice(past2, server.past, from);
      }
    }

    /** `runBackup`. However the run ends, the window is shut and the lock let go; and a run that ends well
        leaves a copy of what the database named at one moment of the run, with every blob of it the store had
        at a later one. If the store was without nothing to begin with and no upload was refused meanwhile, that
        is every blob. And a run that could begin ends well unless the dump fails, a file of the store cannot be
        read, or an upload was refused meanwhile. */
    method RunBackup(ready: bool, trouble: Trouble, now: int) returns (status: Status)
      requires Valid()
      modifies this`hold, this`windowOpen, this`copies, this`takes, this`taking, server
      ensures Valid() && old(server.past) <= server.past
      ensures status == Refused <==> !ready
      ensures ready ==> (status == Skipped <==> !old(hold).Free?)
      ensures status.Refused? || status.Skipped? ==> hold == old(hold) && windowOpen == old(windowOpen) && copies == old(copies) && unchanged(server)
      ensures status.Done? || status.Failed? ==> hold == Free && !windowOpen
      ensures !status.Done? ==> copies == old(copies) && takes == old(takes)
      ensures status.Done? ==> && |copies| == |old(copies)| + 1 && old(copies) <= copies && |takes| == |copies| && old(takes) <= takes
                               && var m, copy := takes[|old(takes)|], copies[|old(copies)|];
                                  && |old(server.past)| - 1 <= m.dumped && TakenAt(server.past, m, copy.refs, copy.blobs)
                                  && (Undisturbed(server.past, |old(server.past)|) ==> copy.refs <= copy.blobs)
                                  && !trouble.dump && copy.blobs !! trouble.unreadable
      ensures (&& ready && old(hold).Free? && !trouble.dump && NoneInStore(trouble.unreadable, server.past, |old(server.past)| - 1)
               && !RefusedSince(server.past, |old(server.past)|)) ==> status.Done?
    {
      hide Holdings.Chronicle, Holdings.Claimed, Holdings.Rooted, TakenAt, Holdings.Theirs, Undisturbed, Holdings.Reserved, NoneInStore,
           RefusedSince;
      if !ready {
        return Refused;
      }
      var held := HoldForBackup();
      if !held {
        return Skipped;
      }
      server.HasBegun();
      ghost var from := |server.past|;
      var copied := RunLegs(now, trouble);
      if copied {
        WholeIfUndisturbed(from);
        copies := copies + [Copy(hold.leg.refs, hold.leg.copied)];
        takes := takes + [taking];
      }
      status := if copied then Done else Failed;
      Release();
    }

    lemma WholeIfUndisturbed(from: nat)
      requires Valid() && hold.BackingUp? && hold.leg.Copying? && hold.leg.todo == {}
      requires 0 < from <= |server.past| && from <= taking.listed + 1 && Holdings.Theirs(server.past, from)
      ensures TakenAt(server.past, taking, hold.leg.refs, hold.leg.copied)
      ensures Undisturbed(server.past, from) ==> hold.leg.refs <= hold.leg.copied
    {
      hide Holdings.Chronicle, Holdings.Claimed, Holdings.Rooted, Holdings.Theirs, Undisturbed;
      assert hold.leg.todo + hold.leg.copied == hold.leg.copied;
      if Undisturbed(server.past, from) {
        UndisturbedCopiesAreWhole(server.past, from, taking, hold.leg.refs, hold.leg.copied);
      }
    }
  }

  // ----- putting it back ------------------------------------------------------------------------------

  datatype Outcome = NotABackup | ServerRunning(connections: nat) | Interrupted | Restored(missing: seq<Address>, checked: nat)

  /** What a database references and what its store has. */
  datatype Moment = Moment(refs: set<Address>, files: set<Address>)

  ghost predicate Whole(m: Moment) {
    m.refs <= m.files
  }

  /** The live pair, and every state it has been in. */
  class Live {
    var refs: set<Address>
    var files: set<Address>
    ghost var past: seq<Moment>

    constructor (refs: set<Address>, files: set<Address>)
      ensures this.refs == refs && this.files == files && past == [Moment(refs, files)]
    {
      this.refs, this.files, past := refs, files, [Moment(refs, files)];
    }

    /** `missingBlobs`: every address the database references that the store does not have, each once. */
    method MissingBlobs() returns (missing: seq<Address>, checked: nat)
      ensures checked == |refs|
      ensures forall a :: a in missing <==> a in refs && a !in files
      ensures forall i, j :: 0 <= i < j < |missing| ==> missing[i] != missing[j]
    {
      missing, checked := [], |refs|;
      var todo := refs;
      while todo != {}
        invariant todo <= refs
        invariant forall a :: a in missing <==> a in refs && a !in todo && a !in files
        invariant forall i, j :: 0 <= i < j < |missing| ==> missing[i] != missing[j]
        decreases todo
      {
        var a :| a in todo;
        todo := todo - {a};
        if a !in files {
          missing := missing + [a];
        }
      }
    }

    /** The blobs of a copy laid over the store, file by file. */
    method CopyIn(blobs: set<Address>, unwritable: set<Address>) returns (ok: bool)
      requires past != [] && past[|past| - 1] == Moment(refs, files)
      modifies this`files, this`past
      ensures old(files) <= files <= old(files) + blobs && ok == (blobs !! unwritable) && (ok ==> files == old(files) + blobs)
      ensures old(past) <= past && past[|past| - 1] == Moment(refs, files)
      ensures forall i :: |old(past)| <= i < |past| ==> past[i].refs == refs && old(files) <= past[i].files
    {
      var todo := blobs;
      ok := true;
      while ok && todo != {}
        invariant todo <= blobs && old(files) <= files && (ok ==> files + todo == old(files) + blobs) && files <= old(files) + blobs
        invariant ok == (blobs - todo !! unwritable)
        invariant old(past) <= past && past[|past| - 1] == Moment(refs, files)
        invariant forall i :: |old(past)| <= i < |past| ==> past[i].refs == refs && old(files) <= past[i].files
        decreases todo, ok
      {
        var a :| a in todo;
        todo := todo - {a};
        ok := a !in unwritable;
        if ok {
          files := files + {a};
          past := past + [Moment(refs, files)];
        }
      }
    }

    /** `restoreFrom`: the refusals, the blobs, the database, the report. Wherever it is interrupted, a
        database that was whole before is whole still; and putting back a whole copy misses nothing. */
    method RestoreFrom(copy: Option<Copy>, connections: nat, unwritable: set<Address>, loads: bool) returns (r: Outcome)
      requires past == [Moment(refs, files)]
      modifies this
      ensures r.NotABackup? <==> copy.None?
      ensures r.ServerRunning? <==> copy.Some? && connections > 0
      ensures r.Restored? <==> copy.Some? && connections == 0 && copy.value.blobs !! unwritable && loads
      ensures r.NotABackup? || r.ServerRunning? ==> refs == old(refs) && files == old(files)
      ensures old(files) <= files
      ensures old(refs) <= old(files) && (copy.Some? ==> copy.value.refs <= copy.value.blobs) ==> forall i :: 0 <= i < |past| ==> Whole(past[i])
      ensures r.Restored? ==> && refs == copy.value.refs && files == old(files) + copy.value.blobs && r.checked == |refs|
                              && (forall a :: a in r.missing <==> a in refs && a !in files)
      ensures r.Restored? && copy.value.refs <= copy.value.blobs ==> r.missing == []
      ensures past != [] && past[|past| - 1] == Moment(refs, files)
    {
      if copy.None? {
        return NotABackup;
      }
      if connections > 0 {
        return ServerRunning(connections);
      }
      var copied := CopyIn(copy.value.blobs, unwritable);
      if !copied || !loads {
        return Interrupted;
      }
      refs := copy.value.refs;
      past := past + [Moment(refs, files)];
      var missing, checked := MissingBlobs();
      assert |missing| > 0 ==> missing[0] in missing;
      return Restored(missing, checked);
    }
  }

  /** What was copied under the lock comes back: a file a restore of a copy is missing had been removed from
      the store before the copy's files were listed, by a refused upload of the same bytes or by a sweep, and
      not uploaded again. */
  lemma {:induction false} CopiesComeBack(host: Host, i: nat, missing: seq<Address>, files: set<Address>)
    requires host.Valid() && i < |host.copies| && host.copies[i].blobs <= files
    requires forall a :: a in missing <==> a in host.copies[i].refs && a !in files
    ensures forall a :: a in missing ==>
              && a in host.server.past[host.takes[i].dumped].yard.names
              && exists j: nat :: Holdings.RemovedAt(host.server.past, j, host.takes[i].listed, a)
  {
    var past, m, copy := host.server.past, host.takes[i], host.copies[i];
    assert TakenAt(past, m, copy.refs, copy.blobs);
    forall a | a in missing ensures exists j: nat :: Holdings.RemovedAt(past, j, m.listed, a) {
      Holdings.MissingIffRemoved(past, m.listed, a);
    }
  }
}
