/** Claiming the moment a schedule owes, by any number of servers on one row.

    A claim reads the row, works out what is due, and writes it back on a condition; between the two,
    other servers do the same, and somebody may save another schedule. */
module ScheduleClaim {
  import opened Options
  import opened Schedule

  type ServerId = nat

  const CATCH_UP := 6 * 3600

  /** What a server that has read the row is about to claim, and when it read. */
  datatype Pending = Pending(due: int, now: int)

  /** A time of day in a zone that changes its offset by a day at most. */
  ghost predicate Readable(plan: Plan, zone: Zone) {
    Gentle(zone, DAY) && 0 <= plan.time < DAY
  }

  /** The mark a save leaves is below what some server is about to claim. */
  predicate Undercuts(mark: Option<int>, pending: map<ServerId, Pending>) {
    exists s :: s in pending && (mark.None? || mark.value < pending[s].due)
  }

  /** Saving this schedule now can make a moment be claimed twice, or one that predates the save. */
  predicate Harmful(enabled: bool, plan: Plan, zone: Zone, now: int, pending: map<ServerId, Pending>) {
    enabled && (EarlyAt(plan, zone, now) || Undercuts(LastDue(plan, zone, now), pending))
  }

  /** Moments are claimed in order, none twice. */
  ghost predicate Increasing(claimed: seq<int>) {
    forall i, j :: 0 <= i < j < |claimed| ==> claimed[i] < claimed[j]
  }

  /** Nothing is claimed before it is due, so what was claimed before the schedule in force is not past its save. */
  ghost predicate Timely(claimed: seq<int>, clock: int, updatedAt: int, older: nat) {
    && (forall i :: 0 <= i < |claimed| ==> claimed[i] <= clock)
    && (forall i :: 0 <= i < older && i < |claimed| ==> claimed[i] <= updatedAt)
  }

  /** The claims of the schedule in force are in order, and later than its save. */
  ghost predicate InOrder(claimed: seq<int>, updatedAt: int, older: nat)
    requires older <= |claimed|
  {
    Increasing(claimed[older..]) && forall i :: older <= i < |claimed| ==> claimed[i] > updatedAt
  }

  /** The mark is past the moment the schedule in force had already passed, and past every claim of it. */
  ghost predicate Marked(plan: Plan, zone: Zone, last: Option<int>, updatedAt: int, claimed: seq<int>, older: nat) {
    && !EarlyAt(plan, zone, updatedAt)
    && (LastDue(plan, zone, updatedAt).Some? ==> last.Some? && last.value >= LastDue(plan, zone, updatedAt).value)
    && forall i :: older <= i < |claimed| ==> last.Some? && claimed[i] <= last.value
  }

  /** What is about to be claimed is of the schedule in force, or the mark is past it. */
  ghost predicate PendingOk(plan: Plan, zone: Zone, last: Option<int>, updatedAt: int, p: Pending) {
    (last.Some? && p.due <= last.value) || (Fires(plan, zone, p.due) && updatedAt <= p.now)
  }

  lemma {:induction false} SavedInOrder(claimed: seq<int>, clock: int, updatedAt: int, older: nat, now: int)
    requires Timely(claimed, clock, updatedAt, older) && clock <= now
    ensures Timely(claimed, now, now, |claimed|) && InOrder(claimed, now, |claimed|)
  {
  }

  /** A claim later than every claim before it. */
  lemma {:induction false} OneMoreClaim(claimed: seq<int>, older: nat, due: int)
    requires older <= |claimed| && forall i :: 0 <= i < |claimed| ==> claimed[i] < due
    ensures Increasing(claimed) ==> Increasing(claimed + [due])
    ensures Increasing(claimed[older..]) ==> Increasing((claimed + [due])[older..])
  {
    assert (claimed + [due])[older..] == claimed[older..] + [due];
  }

  lemma {:induction false} SavedOk(plan: Plan, zone: Zone, now: int, pending: map<ServerId, Pending>, claimed: seq<int>)
    requires !Harmful(true, plan, zone, now, pending)
    ensures Marked(plan, zone, LastDue(plan, zone, now), now, claimed, |claimed|)
    ensures forall s :: s in pending ==> PendingOk(plan, zone, LastDue(plan, zone, now), now, pending[s])
  {
  }

  /** A firing of the schedule in force past its mark came after it was saved. */
  lemma {:induction false} DueAfterSave(plan: Plan, zone: Zone, last: Option<int>, updatedAt: int, claimed: seq<int>, older: nat, due: int)
    requires Readable(plan, zone) && Marked(plan, zone, last, updatedAt, claimed, older) && Fires(plan, zone, due)
    requires last.None? || last.value < due
    ensures due > updatedAt && last.Some?
  {
    var date :| Weekday(date) in plan.days && AtOn(plan, zone, date) == due;
    LastDueIsGreatest(plan, zone, updatedAt, Weekday(date));
  }

  /** The single row, the servers part way through a claim, and what has been claimed. */
  class Row {
    var enabled: bool
    var plan: Plan
    var zone: Zone
    var last: Option<int>
    var updatedAt: int
    var pending: map<ServerId, Pending>
    ghost var clock: int
    ghost var claimed: seq<int>
    /** How many of the claims are older than the schedule in force. */
    ghost var older: nat
    /** The save of the schedule in force was not harmful when it was made; and no save before it was. */
    ghost var orderly: bool
    ghost var unharmed: bool

    constructor (plan: Plan, zone: Zone, now: int)
      ensures Valid() && !enabled && claimed == [] && pending == map[] && unharmed && clock == now
    {
      enabled, this.plan, this.zone, last, updatedAt, pending := false, plan, zone, None, now, map[];
      clock, claimed, older, orderly, unharmed := now, [], 0, true, true;
    }

    ghost predicate Valid()
      reads this
    {
      && updatedAt <= clock && older <= |claimed|
      && (enabled ==> Readable(plan, zone))
      && (forall s :: s in pending ==> pending[s].due <= pending[s].now <= clock)
      && Timely(claimed, clock, updatedAt, older) && (unharmed ==> orderly && Increasing(claimed))
      && (orderly ==> InOrder(claimed, updatedAt, older))
      && (orderly && enabled ==> Marked(plan, zone, last, updatedAt, claimed, older))
      && (orderly && enabled ==> forall s :: s in pending ==> PendingOk(plan, zone, last, updatedAt, pending[s]))
    }

    /** `saveSchedule`: what a new schedule has already passed is not owed, whatever was saved before it. */
    method Save(enabled': bool, plan': Plan, zone': Zone, now: int)
      requires Valid() && clock <= now && (enabled' ==> Readable(plan', zone'))
      modifies this
      ensures Valid() && claimed == old(claimed) && clock == now && updatedAt == now && older == |claimed|
      ensures enabled == enabled' && plan == plan' && zone == zone' && last == LastDue(plan', zone', now)
      ensures orderly == !Harmful(enabled', plan', zone', now, pending) && unharmed == (old(unharmed) && orderly)
      ensures pending == old(pending)
    {
      hide LastDue, Gentle, Harmful, InOrder, Timely, Increasing, Marked, PendingOk;
      SavedInOrder(claimed, clock, updatedAt, older, now);
      if enabled' && !Harmful(enabled', plan', zone', now, pending) {
        SavedOk(plan', zone', now, pending, claimed);
      }
      orderly := !Harmful(enabled', plan', zone', now, pending);
      unharmed := unharmed && orderly;
      enabled, plan, zone, last, updatedAt := enabled', plan', zone', LastDue(plan', zone', now), now;
      clock, older := now, |claimed|;
    }

    /** The first half of `claimDue`: the row is read, and what is due worked out from it. */
    method Read(server: ServerId, now: int)
      requires Valid() && clock <= now && server !in pending
      modifies this`pending, this`clock
      ensures Valid() && clock == now
      ensures pending == var due := LastDue(plan, zone, now);
                         if enabled && due.Some? && (last.None? || last.value < due.value) then old(pending)[server := Pending(due.value, now)]
                         else old(pending)
    {
      hide LastDue, Gentle, EarlyAt, Fires;
      clock := now;
      var due := LastDue(plan, zone, now);
      if enabled && due.Some? && (last.None? || last.value < due.value) {
        var _ := DueFires(plan, zone, now);
        pending := pending[server := Pending(due.value, now)];
      }
    }

    /** The second half: the conditional update. Unless the save of the schedule in force was harmful, what it
        claims is later than that save and than every claim before it, whatever earlier saves did; and where no
        save was, all there ever were are in order. */
    method Update(server: ServerId) returns (claim: Option<int>, late: bool)
      requires Valid() && server in pending
      modifies this`pending, this`last, this`claimed
      ensures Valid() && pending == old(pending) - {server}
      ensures var p := old(pending)[server];
              if enabled && (old(last).None? || old(last).value < p.due)
              then claim == Some(p.due) && late == (p.now - p.due > 21600) && last == Some(p.due) && claimed == old(claimed) + [p.due]
              else claim == None && last == old(last) && claimed == old(claimed)
      ensures orderly && claim.Some? ==> claim.value > updatedAt && forall i :: 0 <= i < |old(claimed)| ==> old(claimed)[i] < claim.value
      ensures unharmed ==> Increasing(claimed)
    {
      hide LastDue, Gentle, Fires, EarlyAt, Increasing;
      var p := pending[server];
      pending := pending - {server};
      claim, late := None, false;
      if enabled && (last.None? || last.value < p.due) {
        if orderly {
          DueAfterSave(plan, zone, last, updatedAt, claimed, older, p.due);
          OneMoreClaim(claimed, older, p.due);
        }
        claim, late := Some(p.due), p.now - p.due > CATCH_UP;
        last := Some(p.due);
        claimed := claimed + [p.due];
      }
    }

    /** A server that crashes between the two. */
    method Crash(server: ServerId)
      requires Valid()
      modifies this`pending
      ensures Valid() && pending == old(pending) - {server}
    {
      pending := pending - {server};
    }
  }

  // ----- what a harmful save does ---------------------------------------------------------------------------

  /** Saved under a server about to claim a later moment, a schedule sees that server claim one that is not
      its own and was past when it was saved. */
  method UndercutSaveHarms(row: Row, server: ServerId, plan: Plan, zone: Zone, now: int) returns (claim: Option<int>)
    requires row.Valid() && row.clock <= now && Readable(plan, zone) && server in row.pending
    requires LastDue(plan, zone, now).None? || LastDue(plan, zone, now).value < row.pending[server].due
    modifies row
    ensures claim == Some(old(row.pending)[server].due) && claim.value <= row.updatedAt
  {
    row.Save(true, plan, zone, now);
    var late;
    claim, late := row.Update(server);
  }

  /** Saved after its next date has fired early, a schedule owes and gives that firing, which predates it. */
  method EarlySaveHarms(row: Row, server: ServerId, plan: Plan, zone: Zone, now: int, t: int) returns (claim: Option<int>)
    requires row.Valid() && row.clock <= now <= t && Readable(plan, zone) && server !in row.pending
    requires LastDue(plan, zone, now).Some? && LastDue(plan, zone, t).Some?
    requires LastDue(plan, zone, now).value < LastDue(plan, zone, t).value <= now
    modifies row
    ensures claim == LastDue(plan, zone, t) && claim.value <= row.updatedAt == now
  {
    row.Save(true, plan, zone, now);
    row.Read(server, t);
    var late;
    claim, late := row.Update(server);
  }

  /** Exactly the early saves can do that, at a moment that comes. */
  lemma {:induction false} OnlyEarlySavesDo(plan: Plan, zone: Zone, now: int)
    requires Gentle(zone, DAY - 1) && 0 <= plan.time < DAY
    ensures EarlyAt(plan, zone, now) <==> !Stable(plan, zone, now)
  {
    GentlerStill(zone, DAY - 1, DAY);
    if EarlyAt(plan, zone, now) {
      var t := EarlyIsDueLater(plan, zone, now);
    } else {
      StableUnlessEarly(plan, zone, now);
    }
  }

  /** In a zone that leaves out its first hour after midnight: a schedule for half past, saved a quarter of an
      hour before midnight, has a server take a moment half an hour before midnight. */
  method ClaimedBeforeItsSave(row: Row) returns (claim: Option<int>)
    requires row.Valid() && row.clock <= MIDNIGHT - 900 && row.pending == map[]
    modifies row
    ensures claim == Some(MIDNIGHT - 1800) && claim.value < row.updatedAt
  {
    hide LastDue, Gentle, Harmful;
    FromMidnightIsGentle();
    GentlerStill(FromMidnight, 3600, DAY);
    LastDueGoesBack();
    claim := EarlySaveHarms(row, 1, HALF_PAST, FromMidnight, MIDNIGHT - 900, MIDNIGHT + 60);
  }

  // ----- one moment claimed twice -----------------------------------------------------------------------------

  const DAILY := {0, 1, 2, 3, 4, 5, 6}

  lemma {:induction false} UtcIsReadable(utc: Zone, plan: Plan)
    requires forall t :: utc(t) == 0
    requires 0 <= plan.time < DAY
    ensures Readable(plan, utc)
  {
    forall a ensures ChangesOnce(utc, a) {
      assert ChangesAt(utc, a, a, 0, 0);
    }
  }

  lemma {:induction false} UtcDue(utc: Zone, plan: Plan, now: int)
    requires forall t :: utc(t) == 0
    requires 0 <= plan.time <= now % DAY && plan.days == DAILY
    ensures LastDue(plan, utc, now) == Some(now / DAY * DAY + plan.time)
  {
  }

  /** Two servers have read the row and owe the same moment. The first takes it; a schedule is saved whose
      own last moment is an earlier one; the second takes the same moment again. */
  method TakenTwice(row: Row, due: int, plan: Plan, zone: Zone, now: int) returns (first: Option<int>, second: Option<int>)
    requires row.Valid() && row.enabled && row.clock <= now && 1 in row.pending && 2 in row.pending
    requires row.pending[1].due == row.pending[2].due == due && (row.last.Some? ==> row.last.value < due)
    requires Readable(plan, zone) && (LastDue(plan, zone, now).Some? ==> LastDue(plan, zone, now).value < due)
    modifies row
    ensures first == second == Some(due)
  {
    var late;
    first, late := row.Update(1);
    row.Save(true, plan, zone, now);
    second, late := row.Update(2);
  }

  /** Such a save exists: at nine in the morning a schedule for two has just owed two o'clock, and a schedule
      for one has last owed one o'clock. */
  lemma {:induction false} SuchASaveExists(utc: Zone)
    requires forall t :: utc(t) == 0
    ensures var atTwo, atOne, nine := Plan(7200, DAILY), Plan(3600, DAILY), 10 * DAY + 9 * 3600;
            && Readable(atTwo, utc) && Readable(atOne, utc) && !EarlyAt(atTwo, utc, nine) && !EarlyAt(atOne, utc, nine)
            && LastDue(atTwo, utc, nine) == Some(10 * DAY + 7200) && LastDue(atOne, utc, nine) == Some(10 * DAY + 3600)
  {
    UtcIsReadable(utc, Plan(7200, DAILY));
    UtcIsReadable(utc, Plan(3600, DAILY));
    UtcDue(utc, Plan(7200, DAILY), 10 * DAY + 9 * 3600);
    UtcDue(utc, Plan(3600, DAILY), 10 * DAY + 9 * 3600);
  }
}
