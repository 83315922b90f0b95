/** What a device has gone through, pass by pass and edit by edit, and where all it goes by comes from. */
module SyncHistory {
  import opened Reconcile
  import opened SyncState
  import opened SyncCarry
  import opened SyncEnds
  import opened SyncServer

  /** A vault never synchronised, an edit of it, or a pass; each with what it left the device with. */
  datatype Chapter = Born(after: State) | Edited(after: State) | Passed(after: State)

  ghost predicate NeverSynchronised(s: State) {
    s.ledger == map[] && s.puts == [] && s.held == {} && s.carried == {} && s.seen == s.disk.Values
  }

  /** What a pass is given is what the device was left with, its ledger emptied where the server was reset. */
  ghost predicate TakenUp(s: State, s': State) {
    var g := s'.given;
    && g.disk == s.disk && (g.ledger == s.ledger || g.ledger == map[])
    && (g.start == Unsynchronised(s.disk, s.ledger, g.listed) || g.start == Unsynchronised(s.disk, map[], g.listed))
    && NodesOk(g.walked) && g.carried == s.carried && g.seen == s.seen && g.held == s.held && g.puts == |s.puts|
    && s.puts <= s'.puts && s.carried <= s'.carried
  }

  /** A pass, however far it got and whatever the server answered. The books are in order. The record leads from
      the disk it was given to the disk there is, one warranted change at a time, and at every moment of it
      everything that must be kept is on its way, or a destination that was not free gave up that very content.
      Nodes were sent only where they may be, and each write on what had been seen and held by then. Every
      entry is traced, and one that comes to name another plaintext is of a node that was moved with other
      bytes, displaced or doubled. */
  ghost predicate PassOf(opens: Address -> Content, stamp: Stamp, s: State, s': State) {
    && TakenUp(s, s') && Books(opens, s', {}) && Chronicle(opens, stamp, s') && AllAccounted(stamp, s')
    && ToldIsBounded(s') && LedgerIsTraced(s') && CarriedBounded(opens, s')
  }

  /** What the pass was shown and not by the walk were heads of the server. */
  ghost predicate FromServer(ages: seq<Heads>, s: State) {
    forall n: NodeId, a: Address :: (n, a) in s.shown ==> (n, a) in HeadsOf(s.given.walked) || WasHead(ages, n, a)
  }

  lemma {:induction false} PreparedTakesUp(s: State, s': State, epoch: Epoch, listed: set<Path>)
    requires s'.given == Given(s.disk, listed, s'.given.ledger, s'.given.walked,
                               Unsynchronised(s.disk, if epoch == Reset then map[] else s.ledger, listed), s.carried, s.seen, s.held, |s.puts|)
    requires s'.given.ledger == s.ledger || s'.given.ledger == map[]
    requires NodesOk(s'.given.walked) && s'.puts == s.puts && s'.carried == s.carried
    ensures TakenUp(s, s')
  {
    hide NodesOk;
  }

  /** A pass that took up what it was given is one, however far it got. */
  lemma {:induction false} FinishedIsPass(opens: Address -> Content, stamp: Stamp, s0: State, s: State, s': State)
    requires TakenUp(s0, s) && StartStands(s) && Finished(opens, stamp, s, s')
    ensures PassOf(opens, stamp, s0, s')
  {
    hide Books, Chronicle, AllAccounted, ToldIsBounded, LedgerIsTraced, CarriedBounded, NodesOk;
    AccountOf(opens, stamp, s');
  }

  lemma {:induction false} InStepIsFromServer(ages: seq<Heads>, log: seq<Put>, s: State, ages': seq<Heads>, log': seq<Put>, s': State)
    requires s.shown == HeadsOf(s.given.walked) && s'.given == s.given && InStep(ages, log, s, ages', log', s')
    ensures FromServer(ages', s')
  {
    hide WasHead;
  }

  ghost predicate LeadsOn(opens: Address -> Content, stamp: Stamp, s: State, c: Chapter) {
    match c
    case Born(_) => false
    case Edited(s') => s' == s.(disk := s'.disk, seen := s.seen + s'.disk.Values)
    case Passed(s') => PassOf(opens, stamp, s, s')
  }

  function Latest(h: seq<Chapter>): State
    requires h != []
  {
    h[|h| - 1].after
  }

  /** A history: from a vault never synchronised, each chapter where the one before it left off. */
  ghost predicate Recalled(opens: Address -> Content, stamp: Stamp, h: seq<Chapter>) {
    && h != [] && h[0].Born? && NeverSynchronised(h[0].after)
    && forall k :: 0 < k < |h| ==> LeadsOn(opens, stamp, h[k - 1].after, h[k])
  }

  ghost predicate HeardRightly(ages: seq<Heads>, h: seq<Chapter>) {
    forall k :: 0 <= k < |h| && h[k].Passed? ==> FromServer(ages, h[k].after)
  }

  lemma {:induction false} FromServerStill(ages: seq<Heads>, ages': seq<Heads>, s: State)
    requires FromServer(ages, s) && ages <= ages'
    ensures FromServer(ages', s)
  {
    hide WasHead;
    forall n: NodeId, a: Address | (n, a) in s.shown && (n, a) !in HeadsOf(s.given.walked) ensures WasHead(ages', n, a) {
      HeadsStay(ages, ages', n, a);
    }
  }

  lemma {:induction false} HeardRightlyStill(ages: seq<Heads>, ages': seq<Heads>, h: seq<Chapter>)
    requires HeardRightly(ages, h) && ages <= ages'
    ensures HeardRightly(ages', h)
  {
    hide FromServer;
    forall k | 0 <= k < |h| && h[k].Passed? ensures FromServer(ages', h[k].after) {
      FromServerStill(ages, ages', h[k].after);
    }
  }

  lemma {:induction false} RecalledOneMore(opens: Address -> Content, stamp: Stamp, ages': seq<Heads>, ages: seq<Heads>,
                                           h: seq<Chapter>, c: Chapter)
    requires Recalled(opens, stamp, h) && HeardRightly(ages, h) && ages <= ages'
    requires LeadsOn(opens, stamp, Latest(h), c) && (c.Passed? ==> FromServer(ages', c.after))
    ensures Recalled(opens, stamp, h + [c]) && HeardRightly(ages', h + [c])
  {
    hide LeadsOn, FromServer;
    HeardRightlyStill(ages, ages', h);
    var h' := h + [c];
    forall k | 0 < k < |h'| ensures LeadsOn(opens, stamp, h'[k - 1].after, h'[k]) {
      if k < |h| {
        assert h'[k - 1] == h[k - 1] && h'[k] == h[k];
      } else {
        assert h'[k - 1].after == Latest(h);
      }
    }
  }

  // ----- where it all comes from ----------------------------------------------------------------------

  /** An entry put on record in a pass, and what had happened to its node in it. */
  ghost predicate CarriedIn(opens: Address -> Content, c: Chapter, n: NodeId, a: Address) {
    c.Passed? && (n, a) in c.after.carried && Brought(opens, c.after, n, a)
  }

  ghost predicate ShownIn(c: Chapter, n: NodeId, a: Address) {
    c.Passed? && (n, a) in c.after.shown
  }

  /** A content on the device's disk at some moment. */
  ghost predicate SeenThen(c: Chapter, x: Content) {
    if c.Passed? then SeenIn(c.after.past, x) else x in c.after.disk.Values
  }

  /** A write accepted in a pass, sent on what the device had seen, held and carried by then. */
  ghost predicate SentIn(opens: Address -> Content, c: Chapter, i: nat, put: Put) {
    && c.Passed? && c.after.given.puts <= i < |c.after.puts| && c.after.puts[i] == put
    && SentOn(opens, c.after, put) && BaseOk(opens, put.why, put.nodeId, put.base) && IsNews(opens, c, put)
  }

  /** Every pass so far was smooth. */
  ghost predicate Calm(opens: Address -> Content, h: seq<Chapter>) {
    forall k :: 0 <= k < |h| && h[k].Passed? ==> Smooth(opens, h[k].after)
  }

  ghost predicate SeenSometime(h: seq<Chapter>, x: Content) {
    exists k :: 0 <= k < |h| && SeenThen(h[k], x)
  }

  ghost predicate ShownSometime(h: seq<Chapter>, n: NodeId, a: Address) {
    exists k :: 0 <= k < |h| && ShownIn(h[k], n, a)
  }

  ghost predicate CarriedSometime(opens: Address -> Content, h: seq<Chapter>, n: NodeId, a: Address) {
    exists k :: 0 <= k < |h| && CarriedIn(opens, h[k], n, a)
  }

  ghost predicate SentSometime(opens: Address -> Content, h: seq<Chapter>, i: nat, put: Put) {
    exists k :: 0 <= k < |h| && SentIn(opens, h[k], i, put)
  }

  /** A write whose base had been on this disk when it was sent, and which changes it. */
  ghost predicate BaseSeen(opens: Address -> Content, put: Put) {
    !put.why.preferLocal ==>
      && put.base.Some? && (put.nodeId, put.base.value) in put.why.held && opens(put.base.value) in put.why.seen
      && opens(put.address) != opens(put.base.value)
  }

  /** A write that changes what the entry it went by named; unless something had landed, by then, that was not
      free, where its node was. */
  ghost predicate IsNews(opens: Address -> Content, c: Chapter, put: Put) {
    !put.why.preferLocal ==>
      && put.base.Some? && (opens(put.base.value) == put.why.named || (put.nodeId, put.base.value) in put.why.carried)
      && NewsAt(opens, c.after, put.nodeId, opens(put.address), put.why)
  }

  /** What a device counts as seen was on its disk in some chapter; what its ledger ever held, some pass was shown;
      what is on record as mistaken, some pass brought along; each write accepted was sent in some pass, on
      what there was to go by then, and none of bytes the entry it went by already named. And if all passes were
      smooth, nothing is mistaken and no write replaced what had not been seen, or left it as it was. */
  ghost predicate Accounts(opens: Address -> Content, h: seq<Chapter>) {
    && h != []
    && var s := Latest(h);
    && (forall x :: x in s.seen ==> SeenSometime(h, x))
    && (forall n: NodeId, a: Address :: (n, a) in s.held ==> ShownSometime(h, n, a))
    && (forall n: NodeId, a: Address :: (n, a) in s.carried ==> CarriedSometime(opens, h, n, a))
    && (forall i :: 0 <= i < |s.puts| ==> SentSometime(opens, h, i, s.puts[i]))
    && (Calm(opens, h) ==> s.carried == {} && forall i :: 0 <= i < |s.puts| ==> BaseSeen(opens, s.puts[i]))
  }

  lemma {:induction false} SeenBefore(opens: Address -> Content, stamp: Stamp, h: seq<Chapter>, k: nat, x: Content)
    requires Recalled(opens, stamp, h) && k < |h| && x in h[k].after.seen
    ensures SeenSometime(h, x)
    decreases k
  {
    hide Recounted, AllWarranted, AllRightlySent, AllInTurn, Books, AllAccounted, ToldIsBounded, LedgerIsTraced, CarriedBounded;
    if k == 0 {
      assert SeenThen(h[0], x);
    } else {
      assert LeadsOn(opens, stamp, h[k - 1].after, h[k]);
      if x in h[k - 1].after.seen {
        SeenBefore(opens, stamp, h, k - 1, x);
      } else {
        assert SeenThen(h[k], x);
      }
    }
  }

  lemma {:induction false} HeldBefore(opens: Address -> Content, stamp: Stamp, h: seq<Chapter>, k: nat, n: NodeId, a: Address)
    requires Recalled(opens, stamp, h) && k < |h| && (n, a) in h[k].after.held
    ensures ShownSometime(h, n, a)
    decreases k
  {
    hide Chronicle, Books, AllAccounted, ToldIsBounded, CarriedBounded;
    if k > 0 {
      assert LeadsOn(opens, stamp, h[k - 1].after, h[k]);
      if (n, a) in h[k - 1].after.held {
        HeldBefore(opens, stamp, h, k - 1, n, a);
      } else {
        assert ShownIn(h[k], n, a);
      }
    }
  }

  lemma {:induction false} CarriedBefore(opens: Address -> Content, stamp: Stamp, h: seq<Chapter>, k: nat, n: NodeId, a: Address)
    requires Recalled(opens, stamp, h) && k < |h| && (n, a) in h[k].after.carried
    ensures CarriedSometime(opens, h, n, a)
    decreases k
  {
    hide Chronicle, Books, AllAccounted, ToldIsBounded, LedgerIsTraced, Brought;
    if k > 0 {
      assert LeadsOn(opens, stamp, h[k - 1].after, h[k]);
      if (n, a) in h[k - 1].after.carried {
        CarriedBefore(opens, stamp, h, k - 1, n, a);
      } else {
        assert CarriedIn(opens, h[k], n, a);
      }
    }
  }

  lemma {:induction false} SentBefore(opens: Address -> Content, stamp: Stamp, h: seq<Chapter>, k: nat, i: nat)
    requires Recalled(opens, stamp, h) && k < |h| && i < |h[k].after.puts|
    ensures SentSometime(opens, h, i, h[k].after.puts[i])
    decreases k
  {
    if k > 0 {
      assert LeadsOn(opens, stamp, h[k - 1].after, h[k]);
      if i < |h[k - 1].after.puts| {
        SentBefore(opens, stamp, h, k - 1, i);
        PutsStay(opens, stamp, h[k - 1].after, h[k]);
      } else {
        PutIsSent(opens, stamp, h[k - 1].after, h[k].after, i);
        assert SentIn(opens, h[k], i, h[k].after.puts[i]);
      }
    }
  }

  lemma {:induction false} PutsStay(opens: Address -> Content, stamp: Stamp, s: State, c: Chapter)
    requires LeadsOn(opens, stamp, s, c)
    ensures s.puts <= c.after.puts
  {
    hide Chronicle, Books, AllAccounted, ToldIsBounded, LedgerIsTraced, CarriedBounded;
  }

  lemma {:induction false} PutIsSent(opens: Address -> Content, stamp: Stamp, s: State, s': State, i: nat)
    requires PassOf(opens, stamp, s, s') && |s.puts| <= i < |s'.puts|
    ensures SentIn(opens, Passed(s'), i, s'.puts[i])
  {
    hide Recounted, AllWarranted, Witnessed, AllRightlySent, LedgerOk, VanishedOk, AllAccounted, ToldIsBounded, LedgerIsTraced, CarriedBounded,
         NewsAt;
    assert SentOn(opens, s', s'.puts[i]);
  }

  /** While every pass has been smooth, no entry is on record as mistaken. */
  lemma {:induction false} CalmCarriesNothing(opens: Address -> Content, stamp: Stamp, h: seq<Chapter>, k: nat)
    requires Recalled(opens, stamp, h) && Calm(opens, h) && k < |h|
    ensures h[k].after.carried == {}
    decreases k
  {
    hide Chronicle, Books, AllAccounted, ToldIsBounded, LedgerIsTraced, CarriedBounded, Smooth;
    if k > 0 {
      CalmCarriesNothing(opens, stamp, h, k - 1);
      assert LeadsOn(opens, stamp, h[k - 1].after, h[k]);
      if h[k].Passed? {
        SmoothCarriesNothing(opens, h[k].after);
      }
    }
  }

  lemma {:induction false} CalmTakesNothing(opens: Address -> Content, h: seq<Chapter>, k: nat)
    requires Calm(opens, h) && k < |h| && h[k].Passed?
    ensures h[k].after.taken == {}
  {
  }

  lemma {:induction false} SmoothReplacesSeen(opens: Address -> Content, c: Chapter, i: nat, put: Put)
    requires SentIn(opens, c, i, put) && c.after.carried == {} && c.after.taken == {}
    ensures BaseSeen(opens, put)
  {
    hide Stated, Knows, StoodAt, SeenIn, SentFrom;
    assert put.why.carried == {} && put.why.taken == {};
    assert !put.why.preferLocal ==> opens(put.address) != put.why.named;
  }

  lemma {:induction false} CalmReplacesSeen(opens: Address -> Content, stamp: Stamp, h: seq<Chapter>, i: nat)
    requires Recalled(opens, stamp, h) && Calm(opens, h) && i < |Latest(h).puts|
    ensures BaseSeen(opens, Latest(h).puts[i])
  {
    assert h != [];
    hide Recalled, Calm, SentIn, BaseSeen;
    SentBefore(opens, stamp, h, |h| - 1, i);
    var k :| 0 <= k < |h| && SentIn(opens, h[k], i, Latest(h).puts[i]);
    CalmCarriesNothing(opens, stamp, h, k);
    assert h[k].Passed? by {
      SentWasPassed(opens, h[k], i, Latest(h).puts[i]);
    }
    CalmTakesNothing(opens, h, k);
    SmoothReplacesSeen(opens, h[k], i, Latest(h).puts[i]);
  }

  lemma {:induction false} SentWasPassed(opens: Address -> Content, c: Chapter, i: nat, put: Put)
    requires SentIn(opens, c, i, put)
    ensures c.Passed?
  {
  }

  /** Everything a device goes by comes from what it has gone through. */
  lemma {:induction false} HistoryAccounts(opens: Address -> Content, stamp: Stamp, h: seq<Chapter>)
    requires Recalled(opens, stamp, h)
    ensures Accounts(opens, h)
  {
    hide LeadsOn, SeenSometime, ShownSometime, CarriedSometime, SentSometime, BaseSeen, Calm;
    var k, s := |h| - 1, Latest(h);
    forall x | x in s.seen ensures SeenSometime(h, x) {
      SeenBefore(opens, stamp, h, k, x);
    }
    forall n: NodeId, a: Address | (n, a) in s.held ensures ShownSometime(h, n, a) {
      HeldBefore(opens, stamp, h, k, n, a);
    }
    forall n: NodeId, a: Address | (n, a) in s.carried ensures CarriedSometime(opens, h, n, a) {
      CarriedBefore(opens, stamp, h, k, n, a);
    }
    forall i | 0 <= i < |s.puts| ensures SentSometime(opens, h, i, s.puts[i]) {
      SentBefore(opens, stamp, h, k, i);
    }
    if Calm(opens, h) {
      CalmCarriesNothing(opens, stamp, h, k);
      forall i | 0 <= i < |s.puts| ensures BaseSeen(opens, s.puts[i]) {
        CalmReplacesSeen(opens, stamp, h, i);
      }
    }
  }
}
