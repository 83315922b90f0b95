/** The epoch a database carries and the file that outlives it: how a restore is noticed, and when the epoch
    that ends one is new. */
module RestoreEpoch {
  import opened Options

  /** A confirmation under way: the epoch it has settled on, and whether its transaction has committed. */
  datatype Phase = Settled(next: int) | Committed(next: int)

  /** The two marks, the server, the confirmations under way, the epochs of the copies there are to restore,
      and those cursors have been issued under. */
  datatype World = World(
    dbEpoch: int,
    fileEpoch: Option<int>,
    running: bool,
    halted: bool,
    confirming: map<nat, Phase>,
    copies: set<int>,
    issued: set<int>)

  datatype Step =
    | Start
    | Crash
    | Issue
    | Backup
    | Restore(epoch: int)
    | Begin(id: nat)
    | Commit(id: nat)
    | End(id: nat)

  datatype Status = Status(dbEpoch: int, fileEpoch: Option<int>, pending: bool)

  /** `restoreStatus`. */
  function StatusOf(dbEpoch: int, fileEpoch: Option<int>): Status {
    Status(dbEpoch, fileEpoch, fileEpoch.Some? && dbEpoch < fileEpoch.value)
  }

  /** The higher of the two marks. */
  function Top(dbEpoch: int, fileEpoch: Option<int>): int {
    var file := if fileEpoch.Some? then fileEpoch.value else 0;
    if dbEpoch > file then dbEpoch else file
  }

  /** The database is from before the file: a restore has happened that nobody has confirmed. */
  predicate Behind(w: World) {
    StatusOf(w.dbEpoch, w.fileEpoch).pending
  }

  predicate Enabled(w: World, step: Step) {
    match step
    case Start => !w.running
    case Crash => true
    case Issue => w.running
    case Backup => w.running
    case Restore(epoch) => !w.running && epoch in w.copies
    case Begin(id) => w.running && id !in w.confirming
    case Commit(id) => id in w.confirming && w.confirming[id].Settled?
    case End(id) => id in w.confirming && w.confirming[id].Committed?
  }

  function After(w: World, step: Step): World
    requires Enabled(w, step)
  {
    match step
    case Start =>
      var pending := StatusOf(w.dbEpoch, w.fileEpoch).pending;
      w.(running := true, halted := pending, fileEpoch := if pending then w.fileEpoch else Some(w.dbEpoch), confirming := map[])
    case Crash => w.(running := false, confirming := map[])
    case Issue => if w.halted then w else w.(issued := w.issued + {w.dbEpoch})
    case Backup => w.(copies := w.copies + {w.dbEpoch})
    case Restore(epoch) => w.(dbEpoch := epoch)
    case Begin(id) => w.(confirming := w.confirming[id := Settled(Top(w.dbEpoch, w.fileEpoch) + 1)])
    case Commit(id) => w.(dbEpoch := w.confirming[id].next, confirming := w.confirming[id := Committed(w.confirming[id].next)])
    case End(id) => w.(fileEpoch := Some(w.confirming[id].next), halted := false, confirming := w.confirming - {id})
  }

  class Installation {
    var dbEpoch: int
    var fileEpoch: Option<int>
    var running: bool
    var halted: bool
    var confirming: map<nat, Phase>
    ghost var copies: set<int>
    ghost var issued: set<int>

    /** A server that has never started. */
    constructor (epoch: int)
      requires epoch > 0
      ensures Now() == World(epoch, None, false, false, map[], {}, {}) && Ok(Now()) && FileCovers(Now())
    {
      dbEpoch, fileEpoch, running, halted, confirming := epoch, None, false, false, map[];
      copies, issued := {}, {};
    }

    ghost function Now(): World
      reads this
    {
      World(dbEpoch, fileEpoch, running, halted, confirming, copies, issued)
    }

    /** A start: the guard is settled first (`checkRestoreState`), and a file at or below the database is
        brought up to it before anything is served. */
    method StartUp()
      requires Enabled(Now(), Start)
      modifies this
      ensures Now() == After(old(Now()), Start) && (Ok(old(Now())) ==> Ok(Now()))
      ensures dbEpoch == old(dbEpoch) && if Behind(old(Now())) then halted && Behind(Now()) else !halted && fileEpoch == Some(dbEpoch)
    {
      halted := StatusOf(dbEpoch, fileEpoch).pending;
      if !halted {
        fileEpoch := Some(dbEpoch);
      }
      running, confirming := true, map[];
    }

    /** A stop or a crash, at any moment. */
    method Stop()
      modifies this
      ensures Now() == After(old(Now()), Crash)
    {
      running, confirming := false, map[];
    }

    /** A request that ends with a cursor in a client's hands. A halted server answers none. */
    method Serve() returns (epoch: Option<int>)
      requires Enabled(Now(), Issue)
      modifies this`issued
      ensures Now() == After(old(Now()), Issue) && epoch == if halted then None else Some(dbEpoch)
      ensures Ok(old(Now())) ==> Ok(Now()) && (Behind(Now()) ==> epoch == None && issued == old(issued))
    {
      epoch := None;
      if !halted {
        issued := issued + {dbEpoch};
        epoch := Some(dbEpoch);
      }
    }

    method TakeCopy()
      requires Enabled(Now(), Backup)
      modifies this`copies
      ensures Now() == After(old(Now()), Backup)
    {
      copies := copies + {dbEpoch};
    }

    /** A copy put back under a stopped server. The file stays. */
    method PutBack(epoch: int)
      requires Enabled(Now(), Restore(epoch))
      modifies this`dbEpoch
      ensures Now() == After(old(Now()), Restore(epoch))
    {
      dbEpoch := epoch;
    }

    /** `confirmRestore`, first: both marks read, outside any transaction. */
    method ConfirmReads(id: nat) returns (next: int)
      requires Enabled(Now(), Begin(id))
      modifies this`confirming
      ensures Now() == After(old(Now()), Begin(id)) && confirming[id] == Settled(next)
    {
      var status := StatusOf(dbEpoch, fileEpoch);
      var file := if status.fileEpoch.Some? then status.fileEpoch.value else 0;
      next := 1 + if status.dbEpoch > file then status.dbEpoch else file;
      confirming := confirming[id := Settled(next)];
    }

    /** Then the transaction. */
    method ConfirmCommits(id: nat)
      requires Enabled(Now(), Commit(id))
      modifies this`dbEpoch, this`confirming
      ensures Now() == After(old(Now()), Commit(id))
    {
      dbEpoch, confirming := confirming[id].next, confirming[id := Committed(confirming[id].next)];
    }

    /** The rest: the file, and the halt over. */
    method ConfirmEnds(id: nat)
      requires Enabled(Now(), End(id))
      modifies this`fileEpoch, this`halted, this`confirming
      ensures Now() == After(old(Now()), End(id))
      ensures Ok(old(Now())) ==> Ok(Now()) && !halted && fileEpoch == Some(dbEpoch) && confirming == map[]
    {
      fileEpoch := Some(confirming[id].next);
      halted, confirming := false, confirming - {id};
    }
  }

  // ----- runs ---------------------------------------------------------------------------------------------

  ghost predicate Runs(w: World, steps: seq<Step>)
    decreases |steps|
  {
    steps == [] || (Enabled(w, steps[0]) && Runs(After(w, steps[0]), steps[1..]))
  }

  /** No confirmation begins while another is under way. */
  ghost predicate OneByOne(w: World, steps: seq<Step>)
    requires Runs(w, steps)
    decreases |steps|
  {
    steps == [] || ((steps[0].Begin? ==> w.confirming == map[]) && OneByOne(After(w, steps[0]), steps[1..]))
  }

  /** The epoch a confirmation commits is one no cursor carries. */
  predicate New(w: World, step: Step)
    requires Enabled(w, step)
  {
    step.Commit? ==> forall e :: e in w.issued ==> e < w.confirming[step.id].next
  }

  ghost predicate AllNew(w: World, steps: seq<Step>)
    requires Runs(w, steps)
    decreases |steps|
  {
    steps == [] || (New(w, steps[0]) && AllNew(After(w, steps[0]), steps[1..]))
  }

  /** A copy is put back from before an epoch a cursor carries, and the file does not cover that epoch. */
  predicate Lapse(w: World, step: Step) {
    step.Restore? && exists e :: e in w.issued && e > Top(step.epoch, w.fileEpoch)
  }

  ghost predicate NoLapse(w: World, steps: seq<Step>)
    requires Runs(w, steps)
    decreases |steps|
  {
    steps == [] || (!Lapse(w, steps[0]) && NoLapse(After(w, steps[0]), steps[1..]))
  }

  /** A cursor is issued while the file is behind the database. */
  predicate Exposes(w: World, step: Step) {
    step.Issue? && !w.halted && (w.fileEpoch.None? || w.dbEpoch > w.fileEpoch.value)
  }

  ghost predicate NothingExposed(w: World, steps: seq<Step>)
    requires Runs(w, steps)
    decreases |steps|
  {
    steps == [] || (!Exposes(w, steps[0]) && NothingExposed(After(w, steps[0]), steps[1..]))
  }

  /** One confirmation at most, and where it stands; and a server that serves, between confirmations, has its
      file and its database at one epoch. */
  ghost predicate Ok(w: World) {
    && w.dbEpoch > 0 && (w.fileEpoch.Some? ==> w.fileEpoch.value > 0) && (forall e :: e in w.copies ==> e > 0)
    && (w.confirming != map[] ==> w.running)
    && (forall i, j :: i in w.confirming && j in w.confirming ==> i == j)
    && (forall i :: i in w.confirming ==>
          var p := w.confirming[i];
          if p.Settled? then p.next == Top(w.dbEpoch, w.fileEpoch) + 1
          else p.next == w.dbEpoch && (w.fileEpoch.Some? ==> w.fileEpoch.value < p.next))
    && (w.running && !w.halted && (forall i :: i in w.confirming ==> w.confirming[i].Settled?) ==>
          w.fileEpoch == Some(w.dbEpoch))
  }

  // ----- a database behind its file -------------------------------------------------------------------------

  /** Where a run leads. */
  function Final(w: World, steps: seq<Step>): World
    requires Runs(w, steps)
    decreases |steps|
  {
    if steps == [] then w else Final(After(w, steps[0]), steps[1..])
  }

  /** No step of the run issues anything while the database is behind its file. */
  ghost predicate NothingServedBehind(w: World, steps: seq<Step>)
    requires Runs(w, steps)
    decreases |steps|
  {
    steps == [] || ((Behind(w) ==> After(w, steps[0]).issued == w.issued) && NothingServedBehind(After(w, steps[0]), steps[1..]))
  }

  /** The steps that put the database at or past its file again: a confirmation's commit, and a restore of a
      copy the file does not go beyond. */
  predicate CatchesUp(w: World, step: Step) {
    step.Commit? || (step.Restore? && w.fileEpoch.Some? && step.epoch >= w.fileEpoch.value)
  }

  ghost predicate NeverCatchesUp(w: World, steps: seq<Step>)
    requires Runs(w, steps)
    decreases |steps|
  {
    steps == [] || (!CatchesUp(w, steps[0]) && NeverCatchesUp(After(w, steps[0]), steps[1..]))
  }

  /** A server that runs on a database behind its file is halted, issues nothing, and stays so through any step
      but exactly those that catch up. */
  lemma {:induction false} WhatEndsBehind(w: World, step: Step)
    requires Ok(w) && Behind(w) && Enabled(w, step)
    ensures w.running ==> w.halted
    ensures After(w, step).issued == w.issued && (!Behind(After(w, step)) <==> CatchesUp(w, step))
  {
    if step.Commit? {
      assert w.confirming[step.id].next == Top(w.dbEpoch, w.fileEpoch) + 1;
    }
  }

  /** Over any run, one confirmation at a time, a database behind its file serves nothing, wherever the server is
      stopped and started and whatever is put back. */
  lemma {:induction false} BehindServesNothing(w: World, steps: seq<Step>)
    requires Ok(w) && Runs(w, steps) && OneByOne(w, steps)
    ensures NothingServedBehind(w, steps)
    decreases |steps|
  {
    if steps != [] {
      OkStays(w, steps[0]);
      if Behind(w) {
        WhatEndsBehind(w, steps[0]);
      }
      BehindServesNothing(After(w, steps[0]), steps[1..]);
    }
  }

  /** And it stays behind, with not one cursor more in the world, until a confirmation commits or a copy as new as
      the file is put back. */
  lemma {:induction false} BehindUntilConfirmed(w: World, steps: seq<Step>)
    requires Ok(w) && Behind(w) && Runs(w, steps) && OneByOne(w, steps)
    ensures NeverCatchesUp(w, steps) ==> Behind(Final(w, steps)) && Final(w, steps).issued == w.issued
    decreases |steps|
  {
    if steps != [] && !CatchesUp(w, steps[0]) {
      OkStays(w, steps[0]);
      WhatEndsBehind(w, steps[0]);
      BehindUntilConfirmed(After(w, steps[0]), steps[1..]);
    }
  }

  /** Every cursor's epoch is at most the higher of the two marks. */
  predicate Covered(w: World) {
    forall e :: e in w.issued ==> e <= Top(w.dbEpoch, w.fileEpoch)
  }

  /** And at most the file's. */
  predicate FileCovers(w: World) {
    forall e :: e in w.issued ==> w.fileEpoch.Some? && e <= w.fileEpoch.value
  }

  lemma {:induction false} OkStays(w: World, step: Step)
    requires Ok(w) && Enabled(w, step) && (step.Begin? ==> w.confirming == map[])
    ensures Ok(After(w, step))
  {
  }

  /** The marks only ever go down by a restore. */
  lemma {:induction false} TopStays(w: World, step: Step)
    requires Ok(w) && Enabled(w, step) && !step.Restore?
    ensures Top(After(w, step).dbEpoch, After(w, step).fileEpoch) >= Top(w.dbEpoch, w.fileEpoch)
    ensures After(w, step).issued <= w.issued + {w.dbEpoch}
  {
  }

  lemma {:induction false} StepKeeps(w: World, step: Step)
    requires Ok(w) && Enabled(w, step) && (step.Begin? ==> w.confirming == map[])
    ensures Ok(After(w, step))
    ensures Covered(w) ==> New(w, step) && (Covered(After(w, step)) <==> !Lapse(w, step))
    ensures FileCovers(w) && !Exposes(w, step) ==> FileCovers(After(w, step)) && !Lapse(w, step)
  {
    OkStays(w, step);
    if step.Restore? {
      if e :| e in w.issued && e > Top(step.epoch, w.fileEpoch) {
        assert e in After(w, step).issued;
      }
    } else {
      TopStays(w, step);
      FileCoversStays(w, step);
    }
  }

  lemma {:induction false} FileCoversStays(w: World, step: Step)
    requires Ok(w) && Enabled(w, step) && !step.Restore?
    ensures FileCovers(w) && !Exposes(w, step) ==> FileCovers(After(w, step))
  {
  }

  /** Over any run, one confirmation at a time: as long as no copy is put back from before an epoch a cursor
      carries that the file does not cover, every confirmation settles on an epoch no cursor carries. */
  lemma {:induction false} ConfirmationsAreNew(w: World, steps: seq<Step>)
    requires Ok(w) && Covered(w) && Runs(w, steps) && OneByOne(w, steps) && NoLapse(w, steps)
    ensures AllNew(w, steps)
    decreases |steps|
  {
    if steps != [] {
      StepKeeps(w, steps[0]);
      ConfirmationsAreNew(After(w, steps[0]), steps[1..]);
    }
  }

  lemma {:induction false} NoStep(w: World)
    ensures Runs(w, []) && AllNew(w, []) && OneByOne(w, []) && NoLapse(w, []) && NothingExposed(w, []) && NothingServedBehind(w, [])
  {
  }

  lemma {:induction false} OneStep(w: World, step: Step, rest: seq<Step>)
    requires Enabled(w, step)
    ensures Runs(w, [step] + rest) <==> Runs(After(w, step), rest)
    ensures Runs(After(w, step), rest) ==>
              && (AllNew(w, [step] + rest) <==> New(w, step) && AllNew(After(w, step), rest))
              && (OneByOne(w, [step] + rest) <==> (step.Begin? ==> w.confirming == map[]) && OneByOne(After(w, step), rest))
              && (NoLapse(w, [step] + rest) <==> !Lapse(w, step) && NoLapse(After(w, step), rest))
              && (NothingExposed(w, [step] + rest) <==> !Exposes(w, step) && NothingExposed(After(w, step), rest))
              && (NothingServedBehind(w, [step] + rest) <==>
                    (Behind(w) ==> After(w, step).issued == w.issued) && NothingServedBehind(After(w, step), rest))
  {
    assert ([step] + rest)[1..] == rest;
  }

  /** And only as long: once one is, the next confirmation settles on an epoch at most one a cursor carries. */
  lemma {:induction false} ALapseIsSettledOn(w: World, epoch: int, id: nat)
    requires Enabled(w, Restore(epoch)) && Lapse(w, Restore(epoch))
    ensures var steps := [Restore(epoch), Start, Begin(id), Commit(id)]; Runs(w, steps) && !AllNew(w, steps)
  {
    hide Runs, AllNew, OneByOne, NoLapse, NothingExposed, Ok;
    var w1 := After(w, Restore(epoch));
    var w2 := After(w1, Start);
    var w3 := After(w2, Begin(id));
    assert !New(w3, Commit(id));
    NoStep(After(w3, Commit(id)));
    OneStep(w3, Commit(id), []);
    OneStep(w2, Begin(id), [Commit(id)]);
    OneStep(w1, Start, [Begin(id), Commit(id)]);
    OneStep(w, Restore(epoch), [Start, Begin(id), Commit(id)]);
    assert [Restore(epoch)] + [Start, Begin(id), Commit(id)] == [Restore(epoch), Start, Begin(id), Commit(id)];
    assert [Start] + [Begin(id), Commit(id)] == [Start, Begin(id), Commit(id)];
    assert [Begin(id)] + [Commit(id)] == [Begin(id), Commit(id)];
    assert [Commit(id)] + [] == [Commit(id)];
  }

  /** Over any run, one confirmation at a time, in which no cursor is issued while the file is behind, there is
      no such lapse, wherever the server is cut off and whatever is put back. */
  lemma {:induction false} NoLapseUnexposed(w: World, steps: seq<Step>)
    requires Ok(w) && FileCovers(w) && Runs(w, steps) && OneByOne(w, steps) && NothingExposed(w, steps)
    ensures NoLapse(w, steps)
    decreases |steps|
  {
    if steps != [] {
      StepKeeps(w, steps[0]);
      NoLapseUnexposed(After(w, steps[0]), steps[1..]);
    }
  }

  /** A cursor is issued while the file is behind only between the commit and the end of a confirmation made
      while nothing was pending: a server halted for a restore issues none until its confirmation ends. */
  lemma {:induction false} ExposedOnlyWhileConfirming(w: World)
    requires Ok(w) && Enabled(w, Issue) && Exposes(w, Issue)
    ensures !w.halted && exists id :: id in w.confirming && w.confirming[id].Committed?
  {
  }

  /** Two confirmations at a time settle on one epoch: both read, one commits and ends, a cursor is issued, and
      the other commits the epoch that cursor carries. */
  lemma {:induction false} TwoAtATime(w: World)
    requires Ok(w) && w.running && !w.halted && w.confirming == map[]
    ensures var steps := [Begin(1), Begin(2), Commit(1), End(1), Issue, Commit(2)];
            Runs(w, steps) && !OneByOne(w, steps) && NoLapse(w, steps) && NothingExposed(w, steps) && !AllNew(w, steps)
  {
    hide Runs, AllNew, OneByOne, NoLapse, NothingExposed;
    var w1 := After(w, Begin(1));
    var w2 := After(w1, Begin(2));
    var w3 := After(w2, Commit(1));
    var w4 := After(w3, End(1));
    var w5 := After(w4, Issue);
    assert !New(w5, Commit(2));
    NoStep(After(w5, Commit(2)));
    OneStep(w5, Commit(2), []);
    OneStep(w4, Issue, [Commit(2)]);
    OneStep(w3, End(1), [Issue, Commit(2)]);
    OneStep(w2, Commit(1), [End(1), Issue, Commit(2)]);
    OneStep(w1, Begin(2), [Commit(1), End(1), Issue, Commit(2)]);
    OneStep(w, Begin(1), [Begin(2), Commit(1), End(1), Issue, Commit(2)]);
    assert [Begin(1)] + [Begin(2), Commit(1), End(1), Issue, Commit(2)] == [Begin(1), Begin(2), Commit(1), End(1), Issue, Commit(2)];
    assert [Begin(2)] + [Commit(1), End(1), Issue, Commit(2)] == [Begin(2), Commit(1), End(1), Issue, Commit(2)];
    assert [Commit(1)] + [End(1), Issue, Commit(2)] == [Commit(1), End(1), Issue, Commit(2)];
    assert [End(1)] + [Issue, Commit(2)] == [End(1), Issue, Commit(2)];
    assert [Issue] + [Commit(2)] == [Issue, Commit(2)];
    assert [Commit(2)] + [] == [Commit(2)];
  }

  /** The third of three has ended, the first has read and not committed. */
  function ThirdEnded(w3: World): World
    requires w3.running && 3 !in w3.confirming
  {
    After(After(After(w3, Begin(3)), Commit(3)), End(3))
  }

  lemma {:induction false} StaleCommit(w6: World, t: int)
    requires w6.running && !w6.halted && 1 in w6.confirming && w6.confirming[1] == Settled(t) && w6.fileEpoch == Some(t + 1)
    requires t !in w6.issued
    ensures Runs(w6, [Commit(1), Issue]) && !NothingServedBehind(w6, [Commit(1), Issue])
  {
    hide Runs, AllNew, OneByOne, NoLapse, NothingExposed, NothingServedBehind;
    var w7 := After(w6, Commit(1));
    assert Behind(w7) && t in After(w7, Issue).issued;
    NoStep(After(w7, Issue));
    OneStep(w7, Issue, []);
    OneStep(w6, Commit(1), [Issue]);
    assert [Issue] + [] == [Issue];
    assert [Commit(1)] + [Issue] == [Commit(1), Issue];
  }

  /** Three at a time serve from a database behind its file: the first reads, the second commits, the third reads
      that, commits and ends, and the first commits what it had read, on a server that is not halted. */
  lemma {:induction false} ThreeAtATime(w: World)
    requires Ok(w) && w.running && !w.halted && w.confirming == map[] && w.dbEpoch + 1 !in w.issued
    ensures var steps := [Begin(1), Begin(2), Commit(2), Begin(3), Commit(3), End(3), Commit(1), Issue];
            Runs(w, steps) && !OneByOne(w, steps) && !NothingServedBehind(w, steps)
  {
    hide Runs, AllNew, OneByOne, NoLapse, NothingExposed, NothingServedBehind;
    var w1 := After(w, Begin(1));
    var w2 := After(w1, Begin(2));
    var w3 := After(w2, Commit(2));
    StaleCommit(ThirdEnded(w3), w.dbEpoch + 1);
    ThirdOfThree(w3);
    var rest := [Begin(3), Commit(3), End(3), Commit(1), Issue];
    OneStep(w2, Commit(2), rest);
    OneStep(w1, Begin(2), [Commit(2)] + rest);
    OneStep(w, Begin(1), [Begin(2)] + ([Commit(2)] + rest));
    assert [Begin(1)] + ([Begin(2)] + ([Commit(2)] + rest)) == [Begin(1), Begin(2), Commit(2), Begin(3), Commit(3), End(3), Commit(1), Issue];
  }

  lemma {:induction false} ThirdOfThree(w3: World)
    requires w3.running && 3 !in w3.confirming
    requires Runs(ThirdEnded(w3), [Commit(1), Issue]) && !NothingServedBehind(ThirdEnded(w3), [Commit(1), Issue])
    ensures var steps := [Begin(3), Commit(3), End(3), Commit(1), Issue]; Runs(w3, steps) && !NothingServedBehind(w3, steps)
  {
    hide Runs, AllNew, OneByOne, NoLapse, NothingExposed, NothingServedBehind;
    var w4 := After(w3, Begin(3));
    var rest := [Commit(1), Issue];
    OneStep(After(w4, Commit(3)), End(3), rest);
    OneStep(w4, Commit(3), [End(3)] + rest);
    OneStep(w3, Begin(3), [Commit(3)] + ([End(3)] + rest));
    assert [Begin(3)] + ([Commit(3)] + ([End(3)] + rest)) == [Begin(3), Commit(3), End(3), Commit(1), Issue];
  }

  /** A confirmation made while nothing is pending, a cursor issued before its file is written, a crash, and a
      copy from before put back: the same epoch is settled on again with that cursor in the world. */
  method CutOffTooSoon(i: Installation) returns (epoch: Option<int>, again: int)
    requires Ok(i.Now()) && i.running && !i.halted && i.confirming == map[]
    requires i.fileEpoch == Some(i.dbEpoch) && i.dbEpoch in i.copies
    modifies i
    ensures epoch == Some(again) && again in i.issued
  {
    var before := i.dbEpoch;
    var next := i.ConfirmReads(1);
    i.ConfirmCommits(1);
    epoch := i.Serve();
    i.Stop();
    i.PutBack(before);
    i.StartUp();
    again := i.ConfirmReads(1);
  }
}
