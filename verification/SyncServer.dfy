/** The compare-and-set server: its heads through all their history, and what a device and it agree on. */
module SyncServer {
  import opened Options
  import opened Reconcile
  import opened SyncState
  import opened SyncProgress

  datatype PutAnswer = Accepted(rev: int) | Mismatch(address: Option<Address>, currentRev: Option<int>) | Refused | Threw

  datatype NodeAnswer = Created(nodeId: NodeId, rev: int) | Failed

  type Heads = map<NodeId, Option<Address>>

  /** An accepted write replaced the base it named, and nothing else, in the history of the heads. */
  ghost predicate Lands(ages: seq<Heads>, put: Put) {
    && put.at + 1 < |ages| && put.nodeId in ages[put.at] && ages[put.at][put.nodeId] == put.base
    && ages[put.at + 1] == ages[put.at][put.nodeId := Some(put.address)]
  }

  ghost predicate WasHead(ages: seq<Heads>, n: NodeId, a: Address) {
    exists i :: 0 <= i < |ages| && n in ages[i] && ages[i][n] == Some(a)
  }

  /** What an answer names is a head there has been: the one that was in the way, or the write's own. */
  ghost predicate AnswerIsHead(ages: seq<Heads>, n: NodeId, address: Address, r: PutAnswer) {
    && (r.Mismatch? && r.address.Some? ==> WasHead(ages, n, r.address.value))
    && (r.Accepted? ==> WasHead(ages, n, address))
  }

  lemma {:induction false} HeadIsHead(ages: seq<Heads>, n: NodeId, address: Address, r: PutAnswer)
    requires ages != [] && (r.Mismatch? ==> n in ages[|ages| - 1] && ages[|ages| - 1][n] == r.address)
    requires r.Accepted? ==> n in ages[|ages| - 1] && ages[|ages| - 1][n] == Some(address)
    ensures AnswerIsHead(ages, n, address, r)
  {
  }

  /** The server's heads. `ages` are all they have been, `log` the writes accepted from the devices modelled;
      other devices change the heads between any two requests. */
  class Server {
    var heads: Heads
    ghost var ages: seq<Heads>
    ghost var log: seq<Put>

    ghost predicate Valid()
      reads this
    {
      && ages != [] && ages[|ages| - 1] == heads
      && forall i :: 0 <= i < |log| ==> Lands(ages, log[i])
    }

    constructor ()
      ensures Valid() && log == [] && heads == map[]
    {
      heads, ages, log := map[], [map[]], [];
    }

    /** Whatever other devices do. */
    method Others()
      requires Valid()
      modifies this
      ensures Valid() && old(ages) <= ages && log == old(log)
    {
      var theirs: Heads := *;
      heads := theirs;
      ages := ages + [theirs];
      assert forall i :: 0 <= i < |log| ==> Lands(old(ages), log[i]);
    }

    /** A content write: accepted exactly when the base it names is the head, which it replaces. */
    method PutContent(nodeId: NodeId, address: Address, base: Option<Address>, ghost why: Grounds) returns (r: PutAnswer)
      requires Valid()
      modifies this
      ensures Valid() && old(ages) <= ages
      ensures r.Accepted? ==>
                && nodeId in old(heads) && old(heads)[nodeId] == base && heads == old(heads)[nodeId := Some(address)]
                && log == old(log) + [Put(nodeId, base, address, |old(ages)| - 1, why)]
      ensures !r.Accepted? ==> heads == old(heads) && ages == old(ages) && log == old(log)
      ensures r.Mismatch? ==> nodeId in heads && r.address == heads[nodeId] && r.address != base
    {
      var up: bool, boundary: bool, rev: int, known: Option<int> := *, *, *, *;
      if !up || nodeId !in heads {
        return Threw;
      }
      if boundary {
        return Refused;
      }
      if heads[nodeId] != base {
        return Mismatch(heads[nodeId], known);
      }
      heads := heads[nodeId := Some(address)];
      log := log + [Put(nodeId, base, address, |ages| - 1, why)];
      ages := ages + [heads];
      assert forall i :: 0 <= i < |old(log)| ==> Lands(old(ages), log[i]);
      return Accepted(rev);
    }

    /** A node made with its first content; its id is one no node has. */
    method Create(address: Address) returns (r: NodeAnswer)
      requires Valid()
      modifies this
      ensures Valid() && old(ages) <= ages && log == old(log)
      ensures r.Created? ==> WasHead(ages, r.nodeId, address)
    {
      Others();
      var up: bool, nodeId: NodeId, rev: int := *, *, *;
      if !up || nodeId in heads {
        return Failed;
      }
      ghost var before := ages;
      heads := heads[nodeId := Some(address)];
      ages := ages + [heads];
      assert forall i :: 0 <= i < |log| ==> Lands(before, log[i]);
      assert ages[|ages| - 1][nodeId] == Some(address);
      return Created(nodeId, rev);
    }

    /** A content write as a device sees it: it arrives some time after it is sent. */
    method Request(nodeId: NodeId, address: Address, base: Option<Address>, ghost why: Grounds) returns (r: PutAnswer, ghost put: Put)
      requires Valid()
      modifies this
      ensures Valid() && old(ages) <= ages && log == old(log) + if r.Accepted? then [put] else []
      ensures r.Accepted? ==> put == Put(nodeId, base, address, put.at, why)
      ensures AnswerIsHead(ages, nodeId, address, r)
    {
      Others();
      r := PutContent(nodeId, address, base, why);
      put := if r.Accepted? then log[|log| - 1] else Put(nodeId, base, address, 0, why);
      HeadIsHead(ages, nodeId, address, r);
    }
  }

  /** What this device had accepted is what the server logged, and what it was answered was a head. */
  ghost predicate InStep(ages: seq<Heads>, log: seq<Put>, s: State, ages': seq<Heads>, log': seq<Put>, s': State) {
    && ages <= ages' && s.puts <= s'.puts && log' == log + s'.puts[|s.puts|..]
    && forall n: NodeId, a: Address :: (n, a) in s'.shown ==> (n, a) in s.shown || WasHead(ages', n, a)
  }

  lemma {:induction false} HeadsStay(ages: seq<Heads>, ages': seq<Heads>, n: NodeId, a: Address)
    requires ages <= ages' && WasHead(ages, n, a)
    ensures WasHead(ages', n, a)
  {
    var i :| 0 <= i < |ages| && n in ages[i] && ages[i][n] == Some(a);
    assert ages'[i] == ages[i];
  }

  lemma {:induction false} InStepTwice(ages: seq<Heads>, log: seq<Put>, s: State, ages1: seq<Heads>, log1: seq<Put>, s1: State,
                                       ages2: seq<Heads>, log2: seq<Put>, s2: State)
    requires InStep(ages, log, s, ages1, log1, s1) && InStep(ages1, log1, s1, ages2, log2, s2)
    ensures InStep(ages, log, s, ages2, log2, s2)
  {
    assert s2.puts[|s.puts|..] == s1.puts[|s.puts|..] + s2.puts[|s1.puts|..];
    forall n: NodeId, a: Address | (n, a) in s2.shown ensures (n, a) in s.shown || WasHead(ages2, n, a) {
      if (n, a) in s1.shown && (n, a) !in s.shown {
        HeadsStay(ages1, ages2, n, a);
      }
    }
  }

  lemma {:induction false} QuietInStep(ages: seq<Heads>, log: seq<Put>, s: State, ages1: seq<Heads>, log1: seq<Put>, s1: State, s2: State)
    requires InStep(ages, log, s, ages1, log1, s1) && s2.puts == s1.puts && s2.shown == s1.shown
    ensures InStep(ages, log, s, ages1, log1, s2)
  {
  }

  lemma {:induction false} SilentInStep(ages: seq<Heads>, log: seq<Put>, s: State, s': State)
    requires Silent(s, s')
    ensures InStep(ages, log, s, ages, log, s')
  {
  }

  /** What an answer adds to the record. */
  ghost predicate Heard(s: State, s': State, n: NodeId, address: Address, out: PutAnswer, put: Put) {
    && s'.puts == s.puts + (if out.Accepted? then [put] else [])
    && s'.shown == s.shown + if out.Mismatch? && out.address.Some? then {(n, out.address.value)}
                             else if out.Accepted? then {(n, address)} else {}
  }

  lemma {:induction false} AnswerInStep(ages: seq<Heads>, log: seq<Put>, s: State, ages': seq<Heads>, s': State, n: NodeId,
                                        address: Address, out: PutAnswer, put: Put)
    requires ages <= ages' && Heard(s, s', n, address, out, put) && AnswerIsHead(ages', n, address, out)
    ensures InStep(ages, log, s, ages', log + if out.Accepted? then [put] else [], s')
  {
  }

  lemma {:induction false} CreatedInStep(ages: seq<Heads>, log: seq<Put>, s: State, ages': seq<Heads>, s': State, made: set<(NodeId, Address)>)
    requires ages <= ages' && s'.puts == s.puts && s'.shown == s.shown + made
    requires forall n: NodeId, a: Address :: (n, a) in made ==> WasHead(ages', n, a)
    ensures InStep(ages, log, s, ages', log, s')
  {
  }
}
