/** The cycle that keeps one connection listening, taken apart at its awaits: each method runs from one
    await, timer or event to the next, and they may come in any order their guards allow. */
module Listen {
  import opened Options

  type Conn = nat
  type Payload = string

  /** Where the attempt under way stands: waiting for a connection, or for `LISTEN` on the one it has. */
  datatype Attempt = NoAttempt | Connecting(mine: nat) | Subscribing(c: Conn, mine: nat)

  /** Where a stop stands: waiting for `UNLISTEN` on the connection it took, or for the attempt under way. */
  datatype Stop = NotAsked | Unlistening(c: Conn) | Settling | Resolved

  class Subscription {
    var generation: nat
    var current: Option<Conn>
    var retry: bool
    var attempt: Attempt
    var stopping: Stop
    /** Every connection the factory has handed over; it hands none over twice. */
    var acquired: set<Conn>
    ghost var released: multiset<Conn>
    ghost var delivered: seq<(Conn, Payload)>

    /** What is in this module's hands. */
    ghost function Held(): set<Conn>
      reads this
    {
      (if current.Some? then {current.value} else {})
      + (if attempt.Subscribing? then {attempt.c} else {})
      + (if stopping.Unlistening? then {stopping.c} else {})
    }

    function Stopped(): bool
      reads this
    {
      !stopping.NotAsked?
    }

    ghost predicate Valid()
      reads this
    {
      // Running, exactly one thing keeps the cycle going; stopped, at most an attempt that will give up.
      && (!Stopped() ==> (if attempt.NoAttempt? then 0 else 1) + (if current.Some? then 1 else 0) + (if retry then 1 else 0) == 1)
      && (Stopped() ==> current.None? && !retry)
      && (stopping.Resolved? ==> attempt.NoAttempt?)
      // An attempt is the latest until somebody stops.
      && (!attempt.NoAttempt? ==> if Stopped() then attempt.mine < generation else attempt.mine == generation)
      // What was acquired is in hand, once, or has been released, once.
      && Held() <= acquired
      && (attempt.Subscribing? && stopping.Unlistening? ==> attempt.c != stopping.c)
      && (forall c :: released[c] == if c in acquired && c !in Held() then 1 else 0)
    }

    /** `subscribe`: the first attempt begins at once. */
    constructor ()
      ensures Valid() && attempt.Connecting? && current.None? && !retry && stopping == NotAsked
      ensures acquired == {} && delivered == []
    {
      generation, current, retry, attempt, stopping := 1, None, false, Connecting(1), NotAsked;
      acquired, released, delivered := {}, multiset{}, [];
    }

    method Release(c: Conn)
      modifies this`released
      ensures released == old(released) + multiset{c}
    {
      released := released + multiset{c};
    }

    method ScheduleReconnect()
      modifies this`retry
      ensures retry == (old(retry) || !Stopped())
    {
      if !Stopped() && !retry {
        retry := true;
      }
    }

    /** The attempt ends; a stop that waits only for it resolves later, by `StopResolves`. */
    method ConnectFails()
      requires Valid() && attempt.Connecting?
      modifies this`attempt, this`retry
      ensures Valid() && attempt == NoAttempt && retry == !Stopped()
    {
      attempt := NoAttempt;
      ScheduleReconnect();
    }

    /** A connection arrives; an attempt that has been superseded gives it straight back. */
    method ConnectResolves(c: Conn)
      requires Valid() && attempt.Connecting? && c !in acquired
      modifies this`attempt, this`acquired, this`released
      ensures Valid() && acquired == old(acquired) + {c}
      ensures if Stopped() then attempt == NoAttempt && released == old(released) + multiset{c}
              else attempt == Subscribing(c, old(attempt).mine) && released == old(released)
    {
      acquired := acquired + {c};
      if Stopped() || attempt.mine != generation {
        attempt := NoAttempt;
        Release(c);
      } else {
        attempt := Subscribing(c, attempt.mine);
      }
    }

    method ListenFails()
      requires Valid() && attempt.Subscribing?
      modifies this`attempt, this`retry, this`released
      ensures Valid() && attempt == NoAttempt && retry == !Stopped() && released == old(released) + multiset{old(attempt).c}
    {
      var c := attempt.c;
      attempt := NoAttempt;
      Release(c);
      ScheduleReconnect();
    }

    method ListenResolves()
      requires Valid() && attempt.Subscribing?
      modifies this`attempt, this`current, this`released
      ensures Valid() && attempt == NoAttempt
      ensures if Stopped() then current.None? && released == old(released) + multiset{old(attempt).c}
              else current == Some(old(attempt).c) && released == old(released)
    {
      var c, mine := attempt.c, attempt.mine;
      attempt := NoAttempt;
      if Stopped() || mine != generation {
        Release(c);
      } else {
        current := Some(c);
      }
    }

    /** `error` or `end`, from any connection that was ever live, any number of times. Only the live one is
        torn down, so the second event of a fault, and every event of a connection already replaced, does
        nothing. */
    method Dropped(c: Conn)
      requires Valid()
      modifies this`current, this`retry, this`released
      ensures Valid()
      ensures if old(current) == Some(c) then current.None? && retry && released == old(released) + multiset{c}
              else current == old(current) && retry == old(retry) && released == old(released)
    {
      if current != Some(c) {
        return;
      }
      current := None;
      Release(c);
      ScheduleReconnect();
    }

    /** A notification, from any connection that was ever live; only the live one delivers. */
    method Notified(c: Conn, payload: Option<Payload>)
      requires Valid()
      modifies this`delivered
      ensures Valid()
      ensures delivered == if current == Some(c) && payload.Some? then old(delivered) + [(c, payload.value)] else old(delivered)
    {
      if current == Some(c) && payload.Some? {
        delivered := delivered + [(c, payload.value)];
      }
    }

    /** The backoff runs out. */
    method RetryFires()
      requires Valid() && retry
      modifies this`retry, this`generation, this`attempt
      ensures Valid() && !retry && attempt == Connecting(old(generation) + 1) && generation == old(generation) + 1
    {
      retry := false;
      generation := generation + 1;
      attempt := Connecting(generation);
    }

    /** `stop`, as far as its first await. */
    method Stop()
      requires Valid() && !Stopped()
      modifies this`stopping, this`generation, this`retry, this`current
      ensures Valid() && Stopped() && !stopping.Resolved? && current.None? && !retry && attempt == old(attempt)
      ensures stopping == if old(current).Some? then Unlistening(old(current).value) else Settling
    {
      generation := generation + 1;
      retry := false;
      stopping := if current.Some? then Unlistening(current.value) else Settling;
      current := None;
    }

    /** `UNLISTEN` answered, one way or the other. */
    method UnlistenSettles()
      requires Valid() && stopping.Unlistening?
      modifies this`stopping, this`released
      ensures Valid() && stopping == Settling && released == old(released) + multiset{old(stopping).c}
    {
      var c := stopping.c;
      stopping := Settling;
      Release(c);
    }

    /** The stop resolves once the attempt under way has ended. Nothing is held, and everything ever acquired
        has gone back exactly once. */
    method StopResolves()
      requires Valid() && stopping == Settling && attempt.NoAttempt?
      modifies this`stopping
      ensures Valid() && stopping == Resolved && Held() == {} && released == multiset(acquired)
    {
      stopping := Resolved;
      assert forall c :: released[c] == multiset(acquired)[c];
    }

    // ----- any order of events ------------------------------------------------------------------------

    /** What comes next, whatever it is. From the first step of a stop on nothing is live or scheduled and
        nothing is delivered, and no connection comes but the one being waited for; once the stop has resolved,
        nothing changes any more. */
    method Next()
      requires Valid()
      modifies this
      ensures Valid() && old(acquired) <= acquired && old(delivered) <= delivered
      ensures old(Stopped()) ==> Stopped() && delivered == old(delivered)
      ensures old(Stopped()) && !old(attempt).Connecting? ==> !attempt.Connecting? && acquired == old(acquired)
      ensures old(stopping).Resolved? ==> Unchanged(old(generation), old(acquired), old(released), old(delivered))
    {
      var event: nat, c: Conn, payload: Option<Payload> := *, *, *;
      if event == 0 && attempt.Connecting? {
        ConnectFails();
      } else if event == 1 && attempt.Connecting? && c !in acquired {
        ConnectResolves(c);
      } else if event == 2 && attempt.Subscribing? {
        ListenFails();
      } else if event == 3 && attempt.Subscribing? {
        ListenResolves();
      } else if event == 4 && retry {
        RetryFires();
      } else {
        NextEvent(event, c, payload);
      }
    }

    method NextEvent(event: nat, c: Conn, payload: Option<Payload>)
      requires Valid()
      modifies this
      ensures Valid() && acquired == old(acquired) && old(delivered) <= delivered && attempt == old(attempt)
      ensures old(Stopped()) ==> Stopped() && delivered == old(delivered)
      ensures old(stopping).Resolved? ==> Unchanged(old(generation), old(acquired), old(released), old(delivered))
    {
      if event == 5 {
        Dropped(c);
      } else if event == 6 {
        Notified(c, payload);
      } else if event == 7 && !Stopped() {
        Stop();
      } else if event == 8 && stopping.Unlistening? {
        UnlistenSettles();
      } else if event == 9 && stopping.Settling? && attempt.NoAttempt? {
        StopResolves();
      }
    }

    /** Nothing in hand, under way, live or scheduled, and the record as it was. */
    ghost predicate Unchanged(generation: nat, acquired: set<Conn>, released: multiset<Conn>, delivered: seq<(Conn, Payload)>)
      reads this
    {
      && stopping.Resolved? && attempt.NoAttempt? && current.None? && !retry && Held() == {}
      && this.generation == generation && this.acquired == acquired && this.released == released && this.delivered == delivered
    }

    /** Any number of events in any order. After a stop has resolved nothing is ever acquired, released,
        delivered, subscribed or scheduled again; from its first step on nothing is delivered. */
    method Run(events: nat)
      requires Valid()
      modifies this
      ensures Valid() && old(acquired) <= acquired && old(delivered) <= delivered
      ensures old(Stopped()) ==> Stopped() && delivered == old(delivered)
      ensures old(Stopped()) && !old(attempt).Connecting? ==> acquired == old(acquired)
      ensures old(stopping).Resolved? ==> Unchanged(old(generation), old(acquired), old(released), old(delivered))
    {
      for event := 0 to events
        invariant Valid() && old(acquired) <= acquired && old(delivered) <= delivered
        invariant old(Stopped()) ==> Stopped() && delivered == old(delivered)
        invariant old(Stopped()) && !old(attempt).Connecting? ==> !attempt.Connecting? && acquired == old(acquired)
        invariant old(stopping).Resolved? ==> Unchanged(old(generation), old(acquired), old(released), old(delivered))
      {
        Next();
      }
    }

    /** The two events of one fault, with anything of other connections' between them: one teardown, one
        retry, and the connection released once. */
    method FaultFiresTwice(c: Conn, other: Conn, payload: Option<Payload>)
      requires Valid() && current == Some(c) && other != c
      modifies this`current, this`retry, this`released, this`delivered
      ensures Valid() && current.None? && retry && attempt == old(attempt)
      ensures released == old(released) + multiset{c} && delivered == old(delivered)
    {
      Dropped(c);
      Dropped(other);
      Notified(c, payload);
      Dropped(c);
    }
  }
}
