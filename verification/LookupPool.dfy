/** Lookups asked in batches, a few batches at a time, and their answers put back together. */
module LookupPool {
  import opened Options

  const LOOKUP_BATCH := 60
  const LOOKUP_CONCURRENCY := 6

  // ----- batches --------------------------------------------------------------------------------------

  function Flat<T>(batches: seq<seq<T>>): seq<T> {
    if batches == [] then [] else Flat(batches[..|batches| - 1]) + batches[|batches| - 1]
  }

  /** `inBatches`: the items in order, none empty, none over sixty, and no more of them than it takes. */
  method InBatches<T>(items: seq<T>) returns (out: seq<seq<T>>)
    ensures Flat(out) == items
    ensures forall i :: 0 <= i < |out| ==> 0 < |out[i]| <= 60
    ensures |out| == (|items| + 59) / 60
  {
    out := [];
    var i := 0;
    while i < |items|
      invariant 0 <= i && i == LOOKUP_BATCH * |out| && (|out| > 0 ==> i < |items| + LOOKUP_BATCH)
      invariant Flat(out) == items[..if i < |items| then i else |items|]
      invariant forall k :: 0 <= k < |out| ==> 0 < |out[k]| <= LOOKUP_BATCH
      decreases |items| - i
    {
      var end := if i + LOOKUP_BATCH < |items| then i + LOOKUP_BATCH else |items|;
      var batch := items[i..end];
      assert (out + [batch])[..|out|] == out;
      assert items[..end] == items[..i] + batch;
      out := out + [batch];
      i := i + LOOKUP_BATCH;
    }
    assert items[..|items|] == items;
  }

  // ----- the pool ---------------------------------------------------------------------------------------

  datatype Worker = Looping | Waiting(mine: nat) | Finished

  /** The workers share a counter and a result; each runs from one await to the next. */
  class Pool<T(!new), R(!new)> {
    const items: seq<T>
    const work: T -> R
    var next: nat
    var workers: seq<Worker>
    var out: seq<Option<R>>
    /** The items work was begun on, in order. */
    ghost var begun: seq<nat>

    constructor (items: seq<T>, work: T -> R)
      ensures Valid() && this.items == items && this.work == work && next == 0
      ensures |workers| == if |items| < 6 then |items| else 6
    {
      this.items, this.work := items, work;
      next, begun := 0, [];
      workers := seq(if |items| < LOOKUP_CONCURRENCY then |items| else LOOKUP_CONCURRENCY, i => Looping);
      out := seq(|items|, i => None);
    }

    ghost predicate InHand(i: nat)
      reads this
    {
      exists w :: 0 <= w < |workers| && workers[w] == Waiting(i)
    }

    /** Every item below the counter was begun once, and is answered or in exactly one worker's hands. */
    ghost predicate Valid()
      reads this
    {
      && next <= |items| && |out| == |items| && |workers| <= LOOKUP_CONCURRENCY && (items != [] ==> workers != [])
      && begun == seq(next, i => i)
      && (forall w :: 0 <= w < |workers| && workers[w].Waiting? ==> workers[w].mine < next)
      && (forall v, w :: 0 <= v < w < |workers| && workers[v].Waiting? && workers[w].Waiting? ==> workers[v].mine != workers[w].mine)
      && (forall i :: 0 <= i < |items| ==> out[i] == if i < next && !InHand(i) then Some(work(items[i])) else None)
      && (forall w :: 0 <= w < |workers| && workers[w].Finished? ==> next == |items|)
    }

    /** The loop's head: the next item claimed and its work begun, or the worker done. */
    method Step(w: nat)
      requires Valid() && w < |workers| && workers[w].Looping?
      modifies this`next, this`workers, this`begun
      ensures Valid() && Rank() < old(Rank())
    {
      if next < |items| {
        Claim(w);
      } else {
        Finish(w);
      }
    }

    method Claim(w: nat)
      requires Valid() && w < |workers| && workers[w].Looping? && next < |items|
      modifies this`next, this`workers, this`begun
      ensures Valid() && Rank() < old(Rank()) && workers == old(workers)[w := Waiting(old(next))] && next == old(next) + 1
    {
      ghost var was := workers;
      var mine := next;
      workers := workers[w := Waiting(mine)];
      begun := begun + [mine];
      next := next + 1;
      assert workers[w] == Waiting(mine);
      HandsElsewhere(was, w);
      Falls(was, w, workers[w]);
    }

    method Finish(w: nat)
      requires Valid() && w < |workers| && workers[w].Looping? && next == |items|
      modifies this`workers
      ensures Valid() && Rank() < old(Rank()) && workers == old(workers)[w := Finished]
    {
      ghost var was := workers;
      workers := workers[w := Finished];
      HandsElsewhere(was, w);
      Falls(was, w, Finished);
    }

    /** The work's answer, put where its item was. */
    method Answer(w: nat)
      requires Valid() && w < |workers| && workers[w].Waiting?
      modifies this`out, this`workers
      ensures Valid() && Rank() < old(Rank()) && workers == old(workers)[w := Looping]
      ensures var mine := old(workers)[w].mine; out == old(out)[mine := Some(work(items[mine]))]
    {
      ghost var was := workers;
      var mine := workers[w].mine;
      out := out[mine := Some(work(items[mine]))];
      workers := workers[w := Looping];
      HandsElsewhere(was, w);
      assert !InHand(mine);
      Falls(was, w, Looping);
    }

    lemma HandsElsewhere(was: seq<Worker>, w: nat)
      requires w < |was| && |workers| == |was| && workers == was[w := workers[w]]
      ensures forall i: nat :: was[w] != Waiting(i) && workers[w] != Waiting(i) ==>
                (InHand(i) <==> exists v :: 0 <= v < |was| && was[v] == Waiting(i))
    {
      forall i: nat | was[w] != Waiting(i) && workers[w] != Waiting(i)
        ensures InHand(i) <==> exists v :: 0 <= v < |was| && was[v] == Waiting(i)
      {
        if v :| 0 <= v < |was| && was[v] == Waiting(i) {
          assert workers[v] == Waiting(i);
        }
        if InHand(i) {
          var v :| 0 <= v < |workers| && workers[v] == Waiting(i);
          assert was[v] == Waiting(i);
        }
      }
    }

    // What is left to do: three for an item not begun, two for one in hand, one for a worker looping.

    static function RankOf(workers: seq<Worker>): nat {
      if workers == [] then 0
      else RankOf(workers[..|workers| - 1]) + match workers[|workers| - 1]
                                              case Finished => 0
                                              case Looping => 1
                                              case Waiting(_) => 2
    }

    function Rank(): int
      reads this
    {
      3 * (|items| - next) + RankOf(workers)
    }

    static lemma RankAt(was: seq<Worker>, w: nat, now: Worker)
      requires w < |was|
      ensures RankOf(was[w := now]) == RankOf(was) - RankOf([was[w]]) + RankOf([now])
      decreases |was|
    {
      var init := was[..|was| - 1];
      if w < |was| - 1 {
        RankAt(init, w, now);
        assert was[w := now][..|was| - 1] == init[w := now];
      } else {
        assert was[w := now][..|was| - 1] == init;
      }
    }

    lemma Falls(was: seq<Worker>, w: nat, now: Worker)
      requires w < |was| && workers == was[w := now]
      ensures RankOf(workers) == RankOf(was) - RankOf([was[w]]) + RankOf([now])
      ensures RankOf([Finished]) == 0 && RankOf([Looping]) == 1 && forall i: nat :: RankOf([Waiting(i)]) == 2
    {
      RankAt(was, w, now);
      assert RankOf([]) == 0;
    }
  }

  /** `inFlight`, under whatever order the answers come in. */
  method InFlight<T(!new), R(!new)>(items: seq<T>, work: T -> R) returns (r: seq<R>)
    ensures |r| == |items| && forall i :: 0 <= i < |r| ==> r[i] == work(items[i])
  {
    var pool := new Pool(items, work);
    var busy := Busy(pool.workers);
    while busy != {}
      invariant pool.Valid() && busy == Busy(pool.workers)
      decreases pool.Rank()
    {
      var w :| w in busy;
      if pool.workers[w].Looping? {
        pool.Step(w);
      } else {
        pool.Answer(w);
      }
      busy := Busy(pool.workers);
    }
    forall w | 0 <= w < |pool.workers| ensures pool.workers[w].Finished? {
      assert pool.workers[w].Finished? || w in busy;
    }
    var out := pool.out;
    assert forall i :: 0 <= i < |items| ==> out[i] == Some(work(items[i])) by {
      assert forall i :: 0 <= i < |items| ==> !pool.InHand(i);
      assert items != [] ==> pool.workers[0].Finished?;
    }
    r := seq(|items|, i requires 0 <= i < |out| && out[i].Some? => out[i].value);
  }

  function Busy(workers: seq<Worker>): set<nat> {
    set w: nat | w < |workers| && !workers[w].Finished?
  }

  // ----- lookups ----------------------------------------------------------------------------------------

  /** The rows of a server's answer to one batch: those of its table whose key was asked for, in its order. */
  function Answered<K(==), V>(rows: seq<(K, V)>, keys: seq<K>): seq<(K, V)> {
    if rows == [] then []
    else Answered(rows[..|rows| - 1], keys) + (var row := rows[|rows| - 1]; if row.0 in keys then [row] else [])
  }

  /** The last value a list of rows has for a key. */
  function Last<K(==), V>(rows: seq<(K, V)>, k: K): Option<V> {
    if rows == [] then None
    else if rows[|rows| - 1].0 == k then Some(rows[|rows| - 1].1)
    else Last(rows[..|rows| - 1], k)
  }

  /** Every value a list of rows has for a key. */
  function All<K(==), V>(rows: seq<(K, V)>, k: K): seq<V> {
    if rows == [] then []
    else All(rows[..|rows| - 1], k) + (var row := rows[|rows| - 1]; if row.0 == k then [row.1] else [])
  }

  lemma {:induction false} AnsweredFor<K, V>(rows: seq<(K, V)>, keys: seq<K>, k: K)
    ensures Last(Answered(rows, keys), k) == if k in keys then Last(rows, k) else None
    ensures All(Answered(rows, keys), k) == if k in keys then All(rows, k) else []
    decreases |rows|
  {
    if rows != [] {
      var init, row := rows[..|rows| - 1], rows[|rows| - 1];
      AnsweredFor(init, keys, k);
      if row.0 in keys {
        OneMore(Answered(init, keys), row, k);
        assert Answered(rows, keys) == Answered(init, keys) + [row];
      } else {
        assert Answered(rows, keys) == Answered(init, keys);
      }
      assert All(init, k) + [] == All(init, k);
    }
  }

  lemma {:induction false} OneMore<K, V>(rows: seq<(K, V)>, row: (K, V), k: K)
    ensures Last(rows + [row], k) == if row.0 == k then Some(row.1) else Last(rows, k)
    ensures All(rows + [row], k) == if row.0 == k then All(rows, k) + [row.1] else All(rows, k)
  {
    assert (rows + [row])[..|rows|] == rows;
    assert All(rows, k) + [] == All(rows, k);
  }

  lemma {:induction false} OfBoth<K, V>(a: seq<(K, V)>, b: seq<(K, V)>, k: K)
    ensures Last(a + b, k) == if Last(b, k).Some? then Last(b, k) else Last(a, k)
    ensures All(a + b, k) == All(a, k) + All(b, k)
    decreases |b|
  {
    if b == [] {
      assert a + b == a;
    } else {
      OfBoth(a, b[..|b| - 1], k);
      assert (a + b)[..|a + b| - 1] == a + b[..|b| - 1];
    }
  }

  /** How many batches ask for a key. */
  function Asking<K(==)>(batches: seq<seq<K>>, k: K): nat {
    if batches == [] then 0 else Asking(batches[..|batches| - 1], k) + if k in batches[|batches| - 1] then 1 else 0
  }

  function Repeated<V>(s: seq<V>, times: nat): seq<V> {
    if times == 0 then [] else Repeated(s, times - 1) + s
  }

  function Answers<K(==), V>(rows: seq<(K, V)>, batches: seq<seq<K>>): seq<seq<(K, V)>> {
    seq(|batches|, i requires 0 <= i < |batches| => Answered(rows, batches[i]))
  }

  /** The batches' answers, one after another, have for a key the last value the table has, if any of them
      asked for it. */
  lemma {:induction false} BatchedLast<K, V>(rows: seq<(K, V)>, batches: seq<seq<K>>, k: K)
    ensures Last(Flat(Answers(rows, batches)), k) == if Asking(batches, k) > 0 then Last(rows, k) else None
    decreases |batches|
  {
    if batches != [] {
      var init, last := batches[..|batches| - 1], batches[|batches| - 1];
      BatchedLast(rows, init, k);
      FlatAnswers(rows, init, last);
      assert batches == init + [last];
      OfBoth(Flat(Answers(rows, init)), Answered(rows, last), k);
      AnsweredFor(rows, last, k);
    }
  }

  /** And every value it has, as many times over as there are batches that asked. */
  lemma {:induction false} BatchedAll<K, V>(rows: seq<(K, V)>, batches: seq<seq<K>>, k: K)
    ensures All(Flat(Answers(rows, batches)), k) == Repeated(All(rows, k), Asking(batches, k))
    decreases |batches|
  {
    if batches != [] {
      var init, last := batches[..|batches| - 1], batches[|batches| - 1];
      BatchedAll(rows, init, k);
      FlatAnswers(rows, init, last);
      assert batches == init + [last];
      OfBoth(Flat(Answers(rows, init)), Answered(rows, last), k);
      AnsweredFor(rows, last, k);
      OnceMore(All(rows, k), Asking(init, k), k in last);
    }
  }

  lemma {:induction false} FlatAnswers<K, V>(rows: seq<(K, V)>, init: seq<seq<K>>, last: seq<K>)
    ensures Flat(Answers(rows, init + [last])) == Flat(Answers(rows, init)) + Answered(rows, last)
  {
    assert Answers(rows, init + [last])[..|init|] == Answers(rows, init);
  }

  lemma {:induction false} OnceMore<V>(s: seq<V>, times: nat, more: bool)
    ensures Repeated(s, times) + (if more then s else []) == Repeated(s, times + if more then 1 else 0)
  {
  }

  /** A list asked for once comes back as the table has it. */
  lemma {:induction false} DistinctAll<K, V>(rows: seq<(K, V)>, batches: seq<seq<K>>, k: K)
    requires Distinct(Flat(batches))
    ensures Repeated(All(rows, k), Asking(batches, k)) == All(Answered(rows, Flat(batches)), k)
  {
    DistinctAskOnce(batches, k);
    AskedInBatches(batches, k);
    AnsweredFor(rows, Flat(batches), k);
    assert Repeated(All(rows, k), 1) == Repeated(All(rows, k), 0) + All(rows, k) == All(rows, k);
  }

  lemma {:induction false} AskedInBatches<K>(batches: seq<seq<K>>, k: K)
    ensures k in Flat(batches) <==> Asking(batches, k) > 0
    decreases |batches|
  {
    if batches != [] {
      AskedInBatches(batches[..|batches| - 1], k);
    }
  }

  ghost predicate Distinct<K>(keys: seq<K>) {
    forall i, j :: 0 <= i < j < |keys| ==> keys[i] != keys[j]
  }

  lemma {:induction false} DistinctAskOnce<K>(batches: seq<seq<K>>, k: K)
    requires Distinct(Flat(batches))
    ensures Asking(batches, k) <= 1
    decreases |batches|
  {
    if batches != [] {
      var init, last := Flat(batches[..|batches| - 1]), batches[|batches| - 1];
      assert forall i :: 0 <= i < |init| ==> Flat(batches)[i] == init[i];
      assert forall j :: 0 <= j < |last| ==> Flat(batches)[|init| + j] == last[j];
      DistinctAskOnce(batches[..|batches| - 1], k);
      AskedInBatches(batches[..|batches| - 1], k);
      assert !(k in last && k in init);
    }
  }

  type Tag = nat
  type Address = nat
  type Envelope = (nat, nat)

  /** `dedupLookup`: asked in batches, every tag has the answer one lookup would have given it. */
  method DedupLookup(rows: seq<(Tag, Address)>, tags: seq<Tag>) returns (found: map<Tag, Address>)
    ensures forall t :: Get(found, t) == Last(Answered(rows, tags), t)
  {
    var batches := InBatches(tags);
    var answers := InFlight(batches, (batch: seq<Tag>) => Answered(rows, batch));
    assert answers == Answers(rows, batches);
    found := map[];
    for i := 0 to |answers|
      invariant forall t :: Get(found, t) == Last(Flat(answers[..i]), t)
    {
      found := SetEach(found, answers[i]);
      assert answers[..i + 1][..i] == answers[..i];
      forall t ensures Get(found, t) == Last(Flat(answers[..i + 1]), t) {
        OfBoth(Flat(answers[..i]), answers[i], t);
      }
    }
    assert answers[..|answers|] == answers;
    forall t ensures Get(found, t) == Last(Answered(rows, tags), t) {
      BatchedLast(rows, batches, t);
      AskedInBatches(batches, t);
      AnsweredFor(rows, tags, t);
    }
  }

  function Get<K, V>(m: map<K, V>, k: K): Option<V> {
    if k in m then Some(m[k]) else None
  }

  method SetEach(found: map<Tag, Address>, matches: seq<(Tag, Address)>) returns (r: map<Tag, Address>)
    ensures forall t :: Get(r, t) == if Last(matches, t).Some? then Last(matches, t) else Get(found, t)
  {
    r := found;
    for i := 0 to |matches|
      invariant forall t :: Get(r, t) == if Last(matches[..i], t).Some? then Last(matches[..i], t) else Get(found, t)
    {
      assert matches[..i + 1][..i] == matches[..i];
      r := r[matches[i].0 := matches[i].1];
    }
    assert matches[..|matches|] == matches;
  }

  function ListOf<K, V>(m: map<K, seq<V>>, k: K): seq<V> {
    if k in m then m[k] else []
  }

  /** `blobKeys`: every address has each envelope the table holds for it, in the table's order, as many times
      over as there are batches that asked for it; so when no address is asked for twice, what one lookup
      would have answered. */
  method BlobKeys(rows: seq<(Address, Envelope)>, addresses: seq<Address>)
    returns (byAddress: map<Address, seq<Envelope>>, ghost batches: seq<seq<Address>>)
    ensures Flat(batches) == addresses && forall i :: 0 <= i < |batches| ==> 0 < |batches[i]| <= LOOKUP_BATCH
    ensures forall a :: ListOf(byAddress, a) == Repeated(All(rows, a), Asking(batches, a))
    ensures Distinct(addresses) ==> forall a :: ListOf(byAddress, a) == All(Answered(rows, addresses), a)
  {
    var asked := InBatches(addresses);
    batches := asked;
    var answers := InFlight(asked, (batch: seq<Address>) => Answered(rows, batch));
    assert answers == Answers(rows, asked);
    byAddress := Collect(answers);
    forall a ensures ListOf(byAddress, a) == Repeated(All(rows, a), Asking(batches, a)) {
      BatchedAll(rows, batches, a);
    }
    if Distinct(addresses) {
      forall a ensures ListOf(byAddress, a) == All(Answered(rows, addresses), a) {
        DistinctAll(rows, batches, a);
      }
    }
  }

  /** The answers merged in the order they were asked for. */
  method Collect(answers: seq<seq<(Address, Envelope)>>) returns (byAddress: map<Address, seq<Envelope>>)
    ensures forall a :: ListOf(byAddress, a) == All(Flat(answers), a)
  {
    byAddress := map[];
    for i := 0 to |answers|
      invariant forall a :: ListOf(byAddress, a) == All(Flat(answers[..i]), a)
    {
      byAddress := PushEach(byAddress, answers[i]);
      assert answers[..i + 1][..i] == answers[..i];
      forall a ensures ListOf(byAddress, a) == All(Flat(answers[..i + 1]), a) {
        OfBoth(Flat(answers[..i]), answers[i], a);
      }
    }
    assert answers[..|answers|] == answers;
  }

  method PushEach(byAddress: map<Address, seq<Envelope>>, keys: seq<(Address, Envelope)>) returns (r: map<Address, seq<Envelope>>)
    ensures forall a :: ListOf(r, a) == ListOf(byAddress, a) + All(keys, a)
  {
    r := byAddress;
    for i := 0 to |keys|
      invariant forall a :: ListOf(r, a) == ListOf(byAddress, a) + All(keys[..i], a)
    {
      assert keys[..i + 1] == keys[..i] + [keys[i]];
      ghost var before := r;
      r := Pushed(r, keys[i]);
      forall a ensures ListOf(r, a) == ListOf(byAddress, a) + All(keys[..i + 1], a) {
        PushedFor(ListOf(byAddress, a), keys[..i], before, keys[i], a);
      }
    }
    assert keys[..|keys|] == keys;
  }

  function Pushed<K, V>(m: map<K, seq<V>>, row: (K, V)): map<K, seq<V>> {
    m[row.0 := ListOf(m, row.0) + [row.1]]
  }

  lemma {:induction false} PushedFor<K, V>(first: seq<V>, keys: seq<(K, V)>, m: map<K, seq<V>>, row: (K, V), k: K)
    requires ListOf(m, k) == first + All(keys, k)
    ensures ListOf(Pushed(m, row), k) == first + All(keys + [row], k)
  {
  }

}
