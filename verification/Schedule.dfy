/** When a schedule fires, in a zone that changes its offset.

    Instants and wall times are whole seconds since the epoch; a zone is the offset in force at each
    instant; a date is its day number. */
module Schedule {
  import opened Options

  const DAY := 86400

  /** No zone is further than this from UTC. */
  const FURTHEST := 64800

  type Zone = int -> int

  /** In the three days from `a` the offset changes at `c`, if at all. */
  ghost predicate ChangesAt(zone: Zone, a: int, c: int, before: int, after: int) {
    && -FURTHEST <= before <= FURTHEST && -FURTHEST <= after <= FURTHEST
    && forall t :: a <= t < a + 3 * DAY ==> zone(t) == if t < c then before else after
  }

  ghost predicate ChangesOnce(zone: Zone, a: int) {
    exists c, before, after :: ChangesAt(zone, a, c, before, after)
  }

  /** At most one change in any three days. */
  ghost predicate Regular(zone: Zone) {
    forall a :: ChangesOnce(zone, a)
  }

  /** And by no more than `most` seconds. */
  ghost predicate Gentle(zone: Zone, most: int) {
    Regular(zone) && forall t, u :: t <= u < t + 3 * DAY ==> StepsBy(zone, t, u, most)
  }

  predicate StepsBy(zone: Zone, t: int, u: int, most: int) {
    -most <= zone(u) - zone(t) <= most
  }

  /** What a wall clock reads. */
  function Reads(zone: Zone, t: int): int {
    t + zone(t)
  }

  function DateAt(zone: Zone, t: int): int {
    Reads(zone, t) / DAY
  }

  /** `instantOf`: two guesses, each with the offset in force at the one before. */
  function InstantOf(zone: Zone, wanted: int): int {
    var first := wanted - zone(wanted);
    wanted - zone(first)
  }

  lemma {:induction false} Bounded(zone: Zone, t: int)
    requires Regular(zone)
    ensures -FURTHEST <= zone(t) <= FURTHEST
  {
    assert ChangesOnce(zone, t);
    var c, before, after :| ChangesAt(zone, t, c, before, after);
  }

  /** Whenever the clock reads the wanted time at all, it does at the instant found. */
  lemma {:induction false} InstantOfReads(zone: Zone, wanted: int, t: int)
    requires Regular(zone) && Reads(zone, t) == wanted
    ensures Reads(zone, InstantOf(zone, wanted)) == wanted
  {
    Bounded(zone, t);
    assert ChangesOnce(zone, wanted - FURTHEST);
    var c, before, after :| ChangesAt(zone, wanted - FURTHEST, c, before, after);
  }

  /** A time the clock never reads is given an instant past the gap exactly when the zone had changed by
      that time as UTC reads it, and otherwise one short of the gap. */
  lemma {:induction false} InTheGap(zone: Zone, wanted: int, c: int, before: int, after: int)
    requires ChangesAt(zone, wanted - FURTHEST, c, before, after) && wanted - before >= c > wanted - after
    ensures InstantOf(zone, wanted) == if wanted >= c then wanted - before else wanted - after
    ensures InstantOf(zone, wanted) >= c <==> wanted >= c
    ensures Reads(zone, InstantOf(zone, wanted)) != wanted
  {
  }

  /** Of a time the clock reads twice it is the first that is taken exactly when the zone had not changed by
      that time as UTC reads it. */
  lemma {:induction false} InTheRepeat(zone: Zone, wanted: int, c: int, before: int, after: int)
    requires ChangesAt(zone, wanted - FURTHEST, c, before, after) && wanted - before < c <= wanted - after
    ensures Reads(zone, wanted - before) == wanted && Reads(zone, wanted - after) == wanted
    ensures InstantOf(zone, wanted) == if wanted < c then wanted - before else wanted - after
  {
  }

  // ----- firings --------------------------------------------------------------------------------------

  datatype Plan = Plan(time: int, days: set<int>)

  /** 0 is Sunday; the first day of the epoch was a Thursday. */
  function Weekday(date: int): int {
    (date + 4) % 7
  }

  function NextWeekday(day: int): int {
    if day == 6 then 0 else day + 1
  }

  lemma {:induction false} WeekdayNext(date: int)
    ensures 0 <= Weekday(date) < 7 && Weekday(date + 1) == NextWeekday(Weekday(date))
  {
  }

  /** Each date is the weekday after the one before, from a Thursday at the first: the one counting there is. */
  lemma {:induction false} WeekdaysFollow(weekday: int -> int, date: int)
    requires weekday(0) == 4 && forall d :: 0 <= weekday(d) < 7 && weekday(d + 1) == NextWeekday(weekday(d))
    ensures Weekday(date) == weekday(date)
    decreases if date < 0 then -date else date
  {
    if date == 0 {
    } else {
      hide Weekday;
      var nearer := if date > 0 then date - 1 else date + 1;
      WeekdaysFollow(weekday, nearer);
      var earlier := if date > 0 then nearer else date;
      WeekdayNext(earlier);
      WeekdayNext(date);
      assert weekday(earlier + 1) == NextWeekday(weekday(earlier));
    }
  }

  function Wanted(plan: Plan, date: int): int {
    date * DAY + plan.time
  }

  function AtOn(plan: Plan, zone: Zone, date: int): int {
    InstantOf(zone, Wanted(plan, date))
  }

  /** What a date fires is when the clock reads that date and the plan's time, if it ever does. */
  lemma {:induction false} FiresAtItsTime(plan: Plan, zone: Zone, date: int, t: int)
    requires Regular(zone) && 0 <= plan.time < DAY && Reads(zone, t) / DAY == date && Reads(zone, t) % DAY == plan.time
    ensures Reads(zone, AtOn(plan, zone, date)) == Reads(zone, t)
  {
    InstantOfReads(zone, Wanted(plan, date), t);
  }

  // ----- in which order dates fire ----------------------------------------------------------------------

  lemma {:induction false} Around(plan: Plan, zone: Zone, date: int)
    requires Regular(zone)
    ensures var wanted := Wanted(plan, date);
            var first := wanted - zone(wanted);
            wanted - FURTHEST <= first <= wanted + FURTHEST && AtOn(plan, zone, date) == wanted - zone(first)
  {
    Bounded(zone, Wanted(plan, date));
  }

  /** A later date never fires sooner, and fires later where the offset changes by less than a day. */
  lemma {:induction false} LaterDateFiresLater(plan: Plan, zone: Zone, date: int, later: int, most: int)
    requires Gentle(zone, most) && 0 <= most <= DAY && date < later
    ensures AtOn(plan, zone, later) >= AtOn(plan, zone, date) + DAY - most
    decreases later - date
  {
    if later == date + 1 {
      NextDate(plan, zone, date, most);
    } else {
      NextDate(plan, zone, later - 1, most);
      LaterDateFiresLater(plan, zone, date, later - 1, most);
    }
  }

  lemma {:induction false} NextDate(plan: Plan, zone: Zone, date: int, most: int)
    requires Gentle(zone, most) && 0 <= most <= DAY
    ensures AtOn(plan, zone, date + 1) >= AtOn(plan, zone, date) + DAY - most
  {
    Around(plan, zone, date);
    Around(plan, zone, date + 1);
    var w, w' := Wanted(plan, date), Wanted(plan, date + 1);
    var f, f' := w - zone(w), w' - zone(w');
    assert StepsBy(zone, f, f', most) || StepsBy(zone, f', f, most);
  }

  /** Whatever the zone does, what the day before yesterday was to fire has fired. */
  lemma {:induction false} LongBefore(plan: Plan, zone: Zone, at: int, date: int)
    requires Gentle(zone, DAY) && 0 <= plan.time < DAY && date <= DateAt(zone, at) - 2
    ensures AtOn(plan, zone, date) < at
  {
    var here := DateAt(zone, at);
    var last := here - 2;
    Around(plan, zone, last);
    Bounded(zone, at);
    var w := Wanted(plan, last);
    var f := w - zone(w);
    Bounded(zone, f);
    if at < here * DAY - 21600 {
      assert if f <= at then StepsBy(zone, f, at, DAY) else StepsBy(zone, at, f, DAY);
    }
    if date < last {
      LaterDateFiresLater(plan, zone, date, last, DAY);
    }
  }

  /** And what the day after tomorrow fires is still to come. */
  lemma {:induction false} LongAfter(plan: Plan, zone: Zone, at: int, date: int)
    requires Gentle(zone, DAY) && 0 <= plan.time < DAY && date >= DateAt(zone, at) + 2
    ensures AtOn(plan, zone, date) > at
  {
    var here := DateAt(zone, at);
    var next := here + 2;
    Around(plan, zone, next);
    Bounded(zone, at);
    var w := Wanted(plan, next);
    var f := w - zone(w);
    Bounded(zone, f);
    if at >= here * DAY + 108000 {
      assert if f <= at then StepsBy(zone, f, at, DAY) else StepsBy(zone, at, f, DAY);
    }
    if date > next {
      LaterDateFiresLater(plan, zone, next, date, DAY);
    }
  }

  /** What tomorrow's date fires has come already: the zone leaves the time out of that date, and the instant
      found for it lies before it. */
  predicate EarlyAt(plan: Plan, zone: Zone, at: int) {
    Weekday(DateAt(zone, at) + 1) in plan.days && AtOn(plan, zone, DateAt(zone, at) + 1) <= at
  }

  /** What yesterday's date fires is still to come. */
  predicate LateAt(plan: Plan, zone: Zone, at: int) {
    Weekday(DateAt(zone, at) - 1) in plan.days && AtOn(plan, zone, DateAt(zone, at) - 1) > at
  }

  /** The instant found for a planned date reads that date, and the clock never goes back to an earlier date. */
  ghost predicate OwnDates(plan: Plan, zone: Zone) {
    && (forall date :: Weekday(date) in plan.days ==> DateAt(zone, AtOn(plan, zone, date)) == date)
    && (forall t, u :: t <= u ==> DateAt(zone, t) <= DateAt(zone, u))
  }

  /** That is enough for neither to happen, ever: a time a zone leaves out in the middle of a date is read on
      that date all the same. */
  lemma {:induction false} OwnDatesArePunctual(plan: Plan, zone: Zone, at: int)
    requires OwnDates(plan, zone)
    ensures !EarlyAt(plan, zone, at) && !LateAt(plan, zone, at)
  {
    var here := DateAt(zone, at);
    assert AtOn(plan, zone, here + 1) <= at ==> DateAt(zone, AtOn(plan, zone, here + 1)) <= here;
    assert AtOn(plan, zone, here - 1) > at ==> DateAt(zone, AtOn(plan, zone, here - 1)) >= here;
  }

  /** And so is a time of day that occurs on every date, and once. */
  lemma {:induction false} OnceADayIsPunctual(plan: Plan, zone: Zone, at: int)
    requires Sane(plan, zone)
    ensures !EarlyAt(plan, zone, at) && !LateAt(plan, zone, at)
  {
    DatesInOrder(plan, zone, at, DateAt(zone, at) + 1);
    DatesInOrder(plan, zone, at, DateAt(zone, at) - 1);
  }

  /** The planned time of day occurs on every date, and once. */
  ghost predicate OnceADay(plan: Plan, zone: Zone) {
    forall date :: Once(plan, zone, date)
  }

  ghost predicate Once(plan: Plan, zone: Zone, date: int) {
    exists t :: OccursOnlyAt(zone, Wanted(plan, date), t)
  }

  ghost predicate OccursOnlyAt(zone: Zone, wanted: int, t: int) {
    Reads(zone, t) == wanted && forall u :: Reads(zone, u) == wanted ==> u == t
  }

  ghost predicate Sane(plan: Plan, zone: Zone) {
    0 <= plan.time < DAY && Regular(zone) && OnceADay(plan, zone)
  }

  lemma {:induction false} TheOccurrence(plan: Plan, zone: Zone, date: int, u: int)
    requires Sane(plan, zone)
    ensures Reads(zone, AtOn(plan, zone, date)) == Wanted(plan, date)
    ensures Reads(zone, u) == Wanted(plan, date) ==> u == AtOn(plan, zone, date)
  {
    assert Once(plan, zone, date);
    var t :| OccursOnlyAt(zone, Wanted(plan, date), t);
    InstantOfReads(zone, Wanted(plan, date), t);
  }

  /** After a firing the clock does not read an earlier time again: it would read the firing's twice. */
  lemma {:induction false} NeverBackAfter(plan: Plan, zone: Zone, date: int, t: int)
    requires Sane(plan, zone)
    ensures var fired := AtOn(plan, zone, date);
            fired <= t < fired + DAY + DAY / 2 ==> Reads(zone, t) >= Wanted(plan, date)
  {
    var wanted := Wanted(plan, date);
    assert ChangesOnce(zone, wanted - FURTHEST);
    var c, before, after :| ChangesAt(zone, wanted - FURTHEST, c, before, after);
    TheOccurrence(plan, zone, date, wanted - after);
  }

  /** Nor does it before a firing read a later one. */
  lemma {:induction false} NeverAheadBefore(plan: Plan, zone: Zone, date: int, t: int)
    requires Sane(plan, zone)
    ensures var fired := AtOn(plan, zone, date);
            fired - DAY - DAY / 2 < t <= fired ==> Reads(zone, t) <= Wanted(plan, date)
  {
    var wanted := Wanted(plan, date);
    assert ChangesOnce(zone, wanted + FURTHEST - 3 * DAY + 1);
    var c, before, after :| ChangesAt(zone, wanted + FURTHEST - 3 * DAY + 1, c, before, after);
    TheOccurrence(plan, zone, date, wanted - before);
  }

  /** Dates ahead of the clock fire after it, dates behind it before. */
  lemma {:induction false} DatesInOrder(plan: Plan, zone: Zone, at: int, date: int)
    requires Sane(plan, zone)
    ensures date > DateAt(zone, at) ==> AtOn(plan, zone, date) > at
    ensures date < DateAt(zone, at) ==> AtOn(plan, zone, date) < at
  {
    Bounded(zone, at);
    TheOccurrence(plan, zone, date, 0);
    Bounded(zone, AtOn(plan, zone, date));
    NeverBackAfter(plan, zone, date, at);
    NeverAheadBefore(plan, zone, date, at);
  }

  // ----- the walk over dates -----------------------------------------------------------------------

  /** The dates from `here` in one direction, from the `i`th to the ninth, until one fires that fits. */
  function Walk(plan: Plan, zone: Zone, here: int, step: int, i: nat, fits: int -> bool): Option<int>
    decreases 9 - i
  {
    if i > 8 then None
    else
      var date := here + i * step;
      if Weekday(date) in plan.days && fits(AtOn(plan, zone, date)) then Some(AtOn(plan, zone, date))
      else Walk(plan, zone, here, step, i + 1, fits)
  }

  /** `firstFiring`. */
  method FirstFiring(plan: Plan, zone: Zone, from: int, step: int, fits: int -> bool) returns (r: Option<int>)
    ensures r == Walk(plan, zone, DateAt(zone, from), step, 0, fits)
  {
    if plan.days == {} {
      NoDays(plan, zone, DateAt(zone, from), step, 0, fits);
      return None;
    }
    hide AtOn, Weekday, DateAt;
    var here := DateAt(zone, from);
    for i := 0 to 9
      invariant Walk(plan, zone, here, step, 0, fits) == Walk(plan, zone, here, step, i, fits)
    {
      var date := here + i * step;
      if Weekday(date) in plan.days {
        var at := AtOn(plan, zone, date);
        if fits(at) {
          return Some(at);
        }
      }
    }
    return None;
  }

  lemma {:induction false} NoDays(plan: Plan, zone: Zone, here: int, step: int, i: nat, fits: int -> bool)
    requires plan.days == {}
    ensures Walk(plan, zone, here, step, i, fits) == None
    decreases 9 - i
  {
    if i <= 8 {
      NoDays(plan, zone, here, step, i + 1, fits);
    }
  }

  function After(moment: int): int -> bool {
    t => t > moment
  }

  function Upto(moment: int): int -> bool {
    t => t <= moment
  }

  function NextRun(plan: Plan, zone: Zone, after: int): Option<int> {
    Walk(plan, zone, DateAt(zone, after), 1, 0, After(after))
  }

  function LastDue(plan: Plan, zone: Zone, at: int): Option<int> {
    Walk(plan, zone, DateAt(zone, at), -1, 0, Upto(at))
  }

  ghost predicate Fires(plan: Plan, zone: Zone, t: int) {
    exists date :: Weekday(date) in plan.days && AtOn(plan, zone, date) == t
  }

  /** The walk's answer, seen from the dates: the first that fits, if any of the nine does. */
  lemma {:induction false} WalkFinds(plan: Plan, zone: Zone, here: int, step: int, i: nat, fits: int -> bool, j: nat)
    requires i <= j <= 8 && Weekday(here + j * step) in plan.days && fits(AtOn(plan, zone, here + j * step))
    requires forall k: nat :: i <= k < j ==> !(Weekday(here + k * step) in plan.days && fits(AtOn(plan, zone, here + k * step)))
    ensures Walk(plan, zone, here, step, i, fits) == Some(AtOn(plan, zone, here + j * step))
    decreases j - i
  {
    if i < j {
      WalkFinds(plan, zone, here, step, i + 1, fits, j);
    }
  }

  /** Every weekday comes round within a week. */
  lemma {:induction false} WeekdayWithin(date: int, day: int) returns (k: nat)
    requires 0 <= day < 7
    ensures k < 7 && Weekday(date + k) == day
  {
    k := (day - Weekday(date)) % 7;
  }

  lemma {:induction false} WeekdayBefore(date: int, day: int) returns (k: nat)
    requires 0 <= day < 7
    ensures k < 7 && Weekday(date - k) == day
  {
    k := (Weekday(date) - day) % 7;
  }

  ghost predicate Hit(plan: Plan, zone: Zone, here: int, step: int, fits: int -> bool, k: int) {
    Weekday(here + k * step) in plan.days && fits(AtOn(plan, zone, here + k * step))
  }

  /** Of the places where the walk could stop it stops at the first. */
  lemma {:induction false} WalkStopsFirst(plan: Plan, zone: Zone, here: int, step: int, fits: int -> bool, some: nat) returns (j: nat)
    requires some <= 8 && Hit(plan, zone, here, step, fits, some)
    ensures j <= some && Hit(plan, zone, here, step, fits, j)
    ensures forall k :: 0 <= k < j ==> !Hit(plan, zone, here, step, fits, k)
    ensures Walk(plan, zone, here, step, 0, fits) == Some(AtOn(plan, zone, here + j * step))
  {
    j := 0;
    while !Hit(plan, zone, here, step, fits, j)
      invariant j <= some && forall k :: 0 <= k < j ==> !Hit(plan, zone, here, step, fits, k)
      decreases some - j
    {
      j := j + 1;
    }
    forall k: nat | 0 <= k < j ensures !(Weekday(here + k * step) in plan.days && fits(AtOn(plan, zone, here + k * step))) {
      assert !Hit(plan, zone, here, step, fits, k);
    }
    WalkFinds(plan, zone, here, step, 0, fits, j);
  }

  lemma {:induction false} NoneLaterDue(plan: Plan, zone: Zone, at: int, j: nat, date: int)
    requires Gentle(zone, DAY) && 0 <= plan.time < DAY && Weekday(date) in plan.days && AtOn(plan, zone, date) <= at && !EarlyAt(plan, zone, at)
    requires forall k :: 0 <= k < j ==> !Hit(plan, zone, DateAt(zone, at), -1, Upto(at), k)
    ensures AtOn(plan, zone, date) <= AtOn(plan, zone, DateAt(zone, at) - j)
  {
    var here := DateAt(zone, at);
    if date >= here + 2 {
      LongAfter(plan, zone, at, date);
    } else if date < here - j {
      LaterDateFiresLater(plan, zone, date, here - j, DAY);
    } else if date <= here {
      assert here + (here - date) * -1 == date;
      assert here - date < j ==> !Hit(plan, zone, here, -1, Upto(at), here - date);
    }
  }

  lemma {:induction false} NoneSoonerRuns(plan: Plan, zone: Zone, after: int, j: nat, date: int)
    requires Gentle(zone, DAY) && 0 <= plan.time < DAY && Weekday(date) in plan.days && AtOn(plan, zone, date) > after && !LateAt(plan, zone, after)
    requires forall k :: 0 <= k < j ==> !Hit(plan, zone, DateAt(zone, after), 1, After(after), k)
    ensures AtOn(plan, zone, date) >= AtOn(plan, zone, DateAt(zone, after) + j)
  {
    var here := DateAt(zone, after);
    if date <= here - 2 {
      LongBefore(plan, zone, after, date);
    } else if date > here + j {
      LaterDateFiresLater(plan, zone, here + j, date, DAY);
    } else if date >= here {
      assert here + (date - here) * 1 == date;
      assert date - here < j ==> !Hit(plan, zone, here, 1, After(after), date - here);
    }
  }

  ghost predicate GreatestUpto(plan: Plan, zone: Zone, at: int, r: int) {
    forall t :: Fires(plan, zone, t) && t <= at ==> t <= r
  }

  ghost predicate LeastAfter(plan: Plan, zone: Zone, after: int, r: int) {
    forall t :: Fires(plan, zone, t) && t > after ==> t >= r
  }

  /** `lastDue`, with a day named, always comes to a firing not after `at`; it is the greatest if what tomorrow
      fires has not come early. */
  lemma {:induction false} LastDueIsGreatest(plan: Plan, zone: Zone, at: int, day: int)
    requires Gentle(zone, DAY) && 0 <= plan.time < DAY && day in plan.days && 0 <= day < 7
    ensures LastDue(plan, zone, at).Some? && LastDue(plan, zone, at).value <= at && Fires(plan, zone, LastDue(plan, zone, at).value)
    ensures !EarlyAt(plan, zone, at) ==> GreatestUpto(plan, zone, at, LastDue(plan, zone, at).value)
  {
    var here := DateAt(zone, at);
    var k := WeekdayBefore(here - 2, day);
    LongBefore(plan, zone, at, here - 2 - k);
    var j := WalkStopsFirst(plan, zone, here, -1, Upto(at), k + 2);
    forall t | !EarlyAt(plan, zone, at) && Fires(plan, zone, t) && t <= at ensures t <= AtOn(plan, zone, here - j) {
      var date :| Weekday(date) in plan.days && AtOn(plan, zone, date) == t;
      NoneLaterDue(plan, zone, at, j, date);
    }
  }

  /** And only then, where the offset changes by less than a day. */
  lemma {:induction false} LastDueIsGreatestOnlyThen(plan: Plan, zone: Zone, at: int, day: int)
    requires Gentle(zone, DAY - 1) && 0 <= plan.time < DAY && day in plan.days && 0 <= day < 7
    ensures LastDue(plan, zone, at).Some?
    ensures GreatestUpto(plan, zone, at, LastDue(plan, zone, at).value) <==> !EarlyAt(plan, zone, at)
  {
    GentlerStill(zone, DAY - 1, DAY);
    LastDueIsGreatest(plan, zone, at, day);
    if EarlyAt(plan, zone, at) {
      var here := DateAt(zone, at);
      var date := WalkGoesBack(plan, zone, at);
      LaterDateFiresLater(plan, zone, date, here + 1, DAY - 1);
      assert Fires(plan, zone, AtOn(plan, zone, here + 1));
    }
  }

  lemma {:induction false} GentlerStill(zone: Zone, most: int, more: int)
    requires Gentle(zone, most) && most <= more
    ensures Gentle(zone, more)
  {
    forall t, u | t <= u < t + 3 * DAY ensures StepsBy(zone, t, u, more) {
      assert StepsBy(zone, t, u, most);
    }
  }

  /** What the walk answers is the firing of a date it went through. */
  lemma {:induction false} WalkAnswers(plan: Plan, zone: Zone, here: int, step: int, i: nat, fits: int -> bool) returns (k: nat)
    requires Walk(plan, zone, here, step, i, fits).Some?
    ensures i <= k <= 8 && Walk(plan, zone, here, step, i, fits).value == AtOn(plan, zone, here + k * step)
    decreases 9 - i
  {
    var date := here + i * step;
    if Weekday(date) in plan.days && fits(AtOn(plan, zone, date)) {
      k := i;
    } else {
      k := WalkAnswers(plan, zone, here, step, i + 1, fits);
    }
  }

  lemma {:induction false} WalkGoesBack(plan: Plan, zone: Zone, at: int) returns (date: int)
    requires LastDue(plan, zone, at).Some?
    ensures date <= DateAt(zone, at) && LastDue(plan, zone, at).value == AtOn(plan, zone, date)
  {
    hide AtOn;
    var k: int;
    k := WalkAnswers(plan, zone, DateAt(zone, at), -1, 0, Upto(at));
    date := DateAt(zone, at) + k * -1;
  }

  lemma {:induction false} WalkGoesOn(plan: Plan, zone: Zone, after: int) returns (date: int)
    requires NextRun(plan, zone, after).Some?
    ensures date >= DateAt(zone, after) && NextRun(plan, zone, after).value == AtOn(plan, zone, date)
  {
    hide AtOn;
    var k: int;
    k := WalkAnswers(plan, zone, DateAt(zone, after), 1, 0, After(after));
    date := DateAt(zone, after) + k * 1;
  }

  /** `nextRun`, with a day named, always comes to a firing after `after`; it is the least if what yesterday
      fires is not still to come. */
  lemma {:induction false} NextRunIsLeast(plan: Plan, zone: Zone, after: int, day: int)
    requires Gentle(zone, DAY) && 0 <= plan.time < DAY && day in plan.days && 0 <= day < 7
    ensures NextRun(plan, zone, after).Some? && NextRun(plan, zone, after).value > after && Fires(plan, zone, NextRun(plan, zone, after).value)
    ensures !LateAt(plan, zone, after) ==> LeastAfter(plan, zone, after, NextRun(plan, zone, after).value)
  {
    var here := DateAt(zone, after);
    var k := WeekdayWithin(here + 2, day);
    LongAfter(plan, zone, after, here + 2 + k);
    var j := WalkStopsFirst(plan, zone, here, 1, After(after), k + 2);
    forall t | !LateAt(plan, zone, after) && Fires(plan, zone, t) && t > after ensures t >= AtOn(plan, zone, here + j) {
      var date :| Weekday(date) in plan.days && AtOn(plan, zone, date) == t;
      NoneSoonerRuns(plan, zone, after, j, date);
    }
  }

  /** And only then, where the offset changes by less than a day. */
  lemma {:induction false} NextRunIsLeastOnlyThen(plan: Plan, zone: Zone, after: int, day: int)
    requires Gentle(zone, DAY - 1) && 0 <= plan.time < DAY && day in plan.days && 0 <= day < 7
    ensures NextRun(plan, zone, after).Some?
    ensures LeastAfter(plan, zone, after, NextRun(plan, zone, after).value) <==> !LateAt(plan, zone, after)
  {
    GentlerStill(zone, DAY - 1, DAY);
    NextRunIsLeast(plan, zone, after, day);
    if LateAt(plan, zone, after) {
      var here := DateAt(zone, after);
      var date := WalkGoesOn(plan, zone, after);
      LaterDateFiresLater(plan, zone, here - 1, date, DAY - 1);
      assert Fires(plan, zone, AtOn(plan, zone, here - 1));
    }
  }

  // ----- what an early firing does --------------------------------------------------------------------

  /** Once the clock reads a date, a second later it reads no date after the next. */
  lemma {:induction false} NoDateIsSkipped(zone: Zone, t: int)
    requires Gentle(zone, DAY - 1)
    ensures DateAt(zone, t + 1) <= DateAt(zone, t) + 1
  {
    assert StepsBy(zone, t, t + 1, DAY - 1);
  }

  /** The clock comes to tomorrow's date. */
  lemma {:induction false} TomorrowComes(zone: Zone, at: int) returns (t: int)
    requires Gentle(zone, DAY - 1)
    ensures t >= at && DateAt(zone, t) == DateAt(zone, at) + 1
  {
    var here := DateAt(zone, at);
    var end := at + 3 * DAY;
    Bounded(zone, at);
    Bounded(zone, end);
    t := at;
    while DateAt(zone, t) <= here
      invariant at <= t <= end && DateAt(zone, t) <= here + 1
      decreases end - t
    {
      NoDateIsSkipped(zone, t);
      t := t + 1;
    }
  }

  /** The moment last due does not go back: what is due later and had passed by now is what is due now. */
  ghost predicate Stable(plan: Plan, zone: Zone, now: int) {
    forall t :: t >= now && LastDue(plan, zone, t).Some? && LastDue(plan, zone, t).value <= now ==>
      LastDue(plan, zone, now).Some? && LastDue(plan, zone, t).value <= LastDue(plan, zone, now).value
  }

  lemma {:induction false} DueFires(plan: Plan, zone: Zone, at: int) returns (day: int)
    requires LastDue(plan, zone, at).Some?
    ensures Fires(plan, zone, LastDue(plan, zone, at).value) && LastDue(plan, zone, at).value <= at
    ensures day in plan.days && 0 <= day < 7
  {
    var date := WalkFires(plan, zone, DateAt(zone, at), -1, 0, Upto(at));
    day := Weekday(date);
  }

  lemma {:induction false} WalkFires(plan: Plan, zone: Zone, here: int, step: int, i: nat, fits: int -> bool) returns (date: int)
    requires Walk(plan, zone, here, step, i, fits).Some?
    ensures Weekday(date) in plan.days && fits(AtOn(plan, zone, date)) && Walk(plan, zone, here, step, i, fits).value == AtOn(plan, zone, date)
    decreases 9 - i
  {
    date := here + i * step;
    if !(Weekday(date) in plan.days && fits(AtOn(plan, zone, date))) {
      date := WalkFires(plan, zone, here, step, i + 1, fits);
    }
  }

  lemma {:induction false} StableUnlessEarly(plan: Plan, zone: Zone, now: int)
    requires Gentle(zone, DAY) && 0 <= plan.time < DAY && !EarlyAt(plan, zone, now)
    ensures Stable(plan, zone, now)
  {
    forall t | t >= now && LastDue(plan, zone, t).Some? && LastDue(plan, zone, t).value <= now
      ensures LastDue(plan, zone, now).Some? && LastDue(plan, zone, t).value <= LastDue(plan, zone, now).value
    {
      var day := DueFires(plan, zone, t);
      LastDueIsGreatest(plan, zone, now, day);
    }
  }

  /** Where tomorrow's firing has come early, a moment comes when it is what is last due, though it had passed
      already and was not. */
  lemma {:induction false} EarlyIsDueLater(plan: Plan, zone: Zone, now: int) returns (t: int)
    requires Gentle(zone, DAY - 1) && 0 <= plan.time < DAY && EarlyAt(plan, zone, now)
    ensures t >= now && LastDue(plan, zone, t) == Some(AtOn(plan, zone, DateAt(zone, now) + 1))
    ensures LastDue(plan, zone, now).Some? && LastDue(plan, zone, now).value < AtOn(plan, zone, DateAt(zone, now) + 1) <= now
  {
    hide Walk, AtOn, Gentle;
    var here := DateAt(zone, now);
    t := TomorrowComes(zone, now);
    assert here + 1 + 0 * -1 == here + 1;
    WalkFinds(plan, zone, here + 1, -1, 0, Upto(t), 0);
    GentlerStill(zone, DAY - 1, DAY);
    LastDueIsGreatest(plan, zone, now, Weekday(here + 1));
    var date := WalkGoesBack(plan, zone, now);
    LaterDateFiresLater(plan, zone, date, here + 1, DAY - 1);
  }

  // ----- a firing before its date -------------------------------------------------------------------------

  const MIDNIGHT := 10 * DAY + 14400

  /** A zone four hours behind UTC that goes to three at local midnight. */
  function FromMidnight(t: int): int {
    if t < MIDNIGHT then -14400 else -10800
  }

  /** Every day at half past midnight. */
  const HALF_PAST := Plan(1800, {0, 1, 2, 3, 4, 5, 6})

  lemma {:induction false} FromMidnightIsGentle()
    ensures Gentle(FromMidnight, 3600)
  {
    forall a ensures ChangesOnce(FromMidnight, a) {
      assert ChangesAt(FromMidnight, a, MIDNIGHT, -14400, -10800);
    }
  }

  /** The date whose first hour the zone leaves out fires half an hour before it begins. A quarter of an hour
      before midnight the last due moment is still that of the date before; a minute after midnight it is one
      before that quarter of an hour. */
  lemma {:induction false} LastDueGoesBack()
    ensures EarlyAt(HALF_PAST, FromMidnight, MIDNIGHT - 900)
    ensures LastDue(HALF_PAST, FromMidnight, MIDNIGHT - 900) == Some(MIDNIGHT + 1800 - DAY)
    ensures LastDue(HALF_PAST, FromMidnight, MIDNIGHT + 60) == Some(MIDNIGHT - 1800)
  {
    assert DateAt(FromMidnight, MIDNIGHT - 900) == 9 && DateAt(FromMidnight, MIDNIGHT + 60) == 10;
    assert AtOn(HALF_PAST, FromMidnight, 10) == MIDNIGHT - 1800;
    assert AtOn(HALF_PAST, FromMidnight, 9) == MIDNIGHT + 1800 - DAY;
    assert 10 + 0 * -1 == 10 && 9 + 0 * -1 == 9;
  }
}
