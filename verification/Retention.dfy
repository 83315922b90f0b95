/** What history the nightly pass keeps: the ladder, and the trash it empties.

    A pass sees only what earlier passes left. `Pass` is proved to leave exactly what one pass at this
    instant would have left of everything ever written, whatever happened in between. */
module Retention {
  import opened Options

  /** A node of some vault. */
  type NodeId = nat
  type Address = nat

  datatype Version = Version(node: NodeId, rev: int, at: int, sha: Address)

  datatype Node = Node(live: bool, parent: Option<NodeId>)

  /** How the database cuts time into days and weeks, and how long each node's account keeps history. */
  datatype Calendar = Calendar(day: int -> int, week: int -> int, historyDays: NodeId -> int)

  const DAY := 86400

  /** The newest of its node in its bucket of time. */
  ghost predicate NewestIn(v: Version, all: set<Version>, bucket: int -> int) {
    forall u :: u in all && u.node == v.node && bucket(u.at) == bucket(v.at) ==> u.rev <= v.rev
  }

  ghost predicate IsHead(v: Version, all: set<Version>) {
    forall u :: u in all && u.node == v.node ==> u.rev <= v.rev
  }

  /** What the ladder keeps for its age: every version for a week, one a day for a month, and one a week as
      far as the account's own bound. */
  ghost predicate Earned(v: Version, all: set<Version>, cal: Calendar, now: int) {
    var age := now - v.at;
    || age < 7 * DAY
    || (age < 30 * DAY && NewestIn(v, all, cal.day))
    || (age < cal.historyDays(v.node) * DAY && NewestIn(v, all, cal.week))
  }

  /** The head of a live node is not history: it is the file. */
  ghost predicate Keeps(v: Version, all: set<Version>, live: set<NodeId>, cal: Calendar, now: int) {
    (v.node in live && IsHead(v, all)) || Earned(v, all, cal, now)
  }

  ghost function Ladder(all: set<Version>, live: set<NodeId>, cal: Calendar, now: int): set<Version> {
    set v | v in all && Keeps(v, all, live, cal, now)
  }

  /** Revisions of a node name one version each, and time does not run backwards along them. */
  ghost predicate Ordered(written: set<Version>) {
    forall u, v :: u in written && v in written && u.node == v.node ==>
      (u.rev == v.rev ==> u == v) && (u.rev < v.rev ==> u.at <= v.at)
  }

  /** What passes up to `last` have left is every version that has its age's reason to stay, judged against
      all ever written, and the newest version of every node there is. */
  ghost predicate Faithful(versions: set<Version>, written: set<Version>, nodes: set<NodeId>, cal: Calendar, last: int) {
    && versions <= written
    && (forall w :: w in written && Earned(w, written, cal, last) ==> w in versions)
    && (forall w :: w in written && w.node in nodes && IsHead(w, written) ==> w in versions)
  }

  // ----- confluence ---------------------------------------------------------------------------------

  /** Among some versions there is one no other is newer than. */
  lemma {:induction false} Newest(some: set<Version>) returns (v: Version)
    requires some != {}
    ensures v in some && forall u :: u in some ==> u.rev <= v.rev
    decreases |some|
  {
    v :| v in some;
    var rest := some - {v};
    if rest != {} {
      var w := Newest(rest);
      if v.rev <= w.rev {
        v := w;
      }
    }
    assert forall u :: u in some ==> u == v || u in rest || u.rev <= v.rev;
  }

  lemma {:induction false} EarnedEarlier(v: Version, all: set<Version>, more: set<Version>, cal: Calendar, before: int, now: int)
    requires all <= more && before <= now && Earned(v, more, cal, now)
    ensures Earned(v, all, cal, before)
  {
  }

  /** A version newest among what is left of its bucket is newest among all there ever was in it, as long as
      the newest of all would still be there. */
  lemma {:induction false} NewestOfAll(v: Version, versions: set<Version>, written: set<Version>, bucket: int -> int)
    requires v in versions && versions <= written && NewestIn(v, versions, bucket)
    requires forall w :: w in written && w.node == v.node && bucket(w.at) == bucket(v.at) && w.rev >= v.rev && NewestIn(w, written, bucket) ==>
               w in versions
    ensures NewestIn(v, written, bucket)
  {
    var peers := set u | u in written && u.node == v.node && bucket(u.at) == bucket(v.at);
    assert v in peers;
    var w := Newest(peers);
  }

  lemma {:induction false} EarnedOfAll(v: Version, versions: set<Version>, written: set<Version>, nodes: set<NodeId>, cal: Calendar,
                                       last: int, now: int)
    requires Faithful(versions, written, nodes, cal, last) && Ordered(written) && last <= now
    requires v in versions && Earned(v, versions, cal, now)
    ensures Earned(v, written, cal, now)
  {
    if now - v.at < 7 * DAY {
    } else if now - v.at < 30 * DAY && NewestIn(v, versions, cal.day) {
      NewestOfAll(v, versions, written, cal.day);
    } else {
      NewestOfAll(v, versions, written, cal.week);
    }
  }

  lemma {:induction false} HeadOfAll(v: Version, versions: set<Version>, written: set<Version>, nodes: set<NodeId>, cal: Calendar, last: int)
    requires Faithful(versions, written, nodes, cal, last) && v in versions && v.node in nodes && IsHead(v, versions)
    ensures IsHead(v, written)
  {
    var own := set u | u in written && u.node == v.node;
    assert v in own;
    var w := Newest(own);
    assert IsHead(w, written);
  }

  /** A pass over what is left keeps what a pass over everything would have kept. */
  lemma {:induction false} Confluent(versions: set<Version>, written: set<Version>, nodes: set<NodeId>, live: set<NodeId>, cal: Calendar,
                                     last: int, now: int)
    requires Faithful(versions, written, nodes, cal, last) && Ordered(written) && last <= now && live <= nodes
    ensures Ladder(versions, live, cal, now) == Ladder(written, live, cal, now)
  {
    forall v | v in Ladder(versions, live, cal, now) ensures v in Ladder(written, live, cal, now) {
      if v.node in live && IsHead(v, versions) {
        HeadOfAll(v, versions, written, nodes, cal, last);
      } else {
        EarnedOfAll(v, versions, written, nodes, cal, last, now);
      }
    }
    forall v | v in Ladder(written, live, cal, now) ensures v in Ladder(versions, live, cal, now) {
      if v.node in live && IsHead(v, written) {
      } else {
        EarnedEarlier(v, written, written, cal, last, now);
        EarnedEarlier(v, versions, written, cal, now, now);
      }
    }
  }

  // ----- what a pass leaves ---------------------------------------------------------------------------

  /** Two versions of one node written on the same day, or in the same week. */
  predicate SameBucket(u: Version, v: Version, bucket: int -> int) {
    u.node == v.node && bucket(u.at) == bucket(v.at)
  }

  /** A version of the same bucket and no older revision is left. */
  ghost predicate StoodFor(v: Version, left: set<Version>, bucket: int -> int) {
    exists u :: u in left && SameBucket(u, v, bucket) && u.rev >= v.rev
  }

  /** What must be left of everything written: all of a week; for each version of a month, one of its day; for
      each within its account's bound, one of its week; and every live node's newest. */
  ghost predicate Spares(left: set<Version>, written: set<Version>, live: set<NodeId>, cal: Calendar, now: int) {
    && left <= written
    && (forall v :: v in written && now - v.at < 7 * 86400 ==> v in left)
    && (forall v :: v in written && now - v.at < 30 * 86400 ==> StoodFor(v, left, cal.day))
    && (forall v :: v in written && now - v.at < cal.historyDays(v.node) * 86400 ==> StoodFor(v, left, cal.week))
    && (forall v :: v in written && v.node in live && (forall u :: u in written && u.node == v.node ==> u.rev <= v.rev) ==> v in left)
  }

  /** And what must not: after a week no two of a day, after a month no two of a week, and beyond the account's
      bound nothing but a live node's newest. */
  ghost predicate Spends(left: set<Version>, written: set<Version>, live: set<NodeId>, cal: Calendar, now: int) {
    && (forall u, v :: u in left && v in left && now - u.at >= 7 * 86400 && now - v.at >= 7 * 86400 && SameBucket(u, v, cal.day) ==> u == v)
    && (forall u, v :: u in left && v in left && now - u.at >= 30 * 86400 && now - v.at >= 30 * 86400 && SameBucket(u, v, cal.week) ==> u == v)
    && (forall v :: v in left && now - v.at >= 30 * 86400 && now - v.at >= cal.historyDays(v.node) * 86400 ==>
          v.node in live && forall u :: u in written && u.node == v.node ==> u.rev <= v.rev)
  }

  /** A day lies in one week. */
  ghost predicate Nested(cal: Calendar) {
    forall a, b :: cal.day(a) == cal.day(b) ==> cal.week(a) == cal.week(b)
  }

  lemma {:induction false} NewestStands(v: Version, written: set<Version>, bucket: int -> int) returns (u: Version)
    requires v in written && Ordered(written)
    ensures u in written && SameBucket(u, v, bucket) && u.rev >= v.rev && u.at >= v.at && NewestIn(u, written, bucket)
  {
    var peers := set w | w in written && SameBucket(w, v, bucket);
    assert v in peers;
    u := Newest(peers);
    assert u.rev == v.rev ==> u == v;
  }

  /** The ladder leaves what it must. */
  lemma {:induction false} LadderSpares(written: set<Version>, live: set<NodeId>, cal: Calendar, now: int)
    requires Ordered(written)
    ensures Spares(Ladder(written, live, cal, now), written, live, cal, now)
  {
    var left := Ladder(written, live, cal, now);
    forall v | v in written && now - v.at < 30 * DAY ensures StoodFor(v, left, cal.day) {
      var u := NewestStands(v, written, cal.day);
      assert u in left;
    }
    forall v | v in written && now - v.at < cal.historyDays(v.node) * DAY ensures StoodFor(v, left, cal.week) {
      var u := NewestStands(v, written, cal.week);
      assert u in left by {
        LaterStays(v, u, cal, now);
      }
    }
  }

  lemma {:induction false} LaterStays(v: Version, u: Version, cal: Calendar, now: int)
    requires now - v.at < cal.historyDays(v.node) * DAY && u.node == v.node && u.at >= v.at
    ensures now - u.at < cal.historyDays(u.node) * DAY
  {
  }

  /** Past a week, what is left is the newest of its day. */
  lemma {:induction false} LeftIsNewest(v: Version, written: set<Version>, live: set<NodeId>, cal: Calendar, now: int)
    requires Nested(cal) && v in Ladder(written, live, cal, now)
    ensures now - v.at >= 7 * DAY ==> NewestIn(v, written, cal.day)
    ensures now - v.at >= 30 * DAY ==> NewestIn(v, written, cal.week)
  {
  }

  /** And nothing it must not. */
  lemma {:induction false} LadderSpends(written: set<Version>, live: set<NodeId>, cal: Calendar, now: int)
    requires Ordered(written) && Nested(cal)
    ensures Spends(Ladder(written, live, cal, now), written, live, cal, now)
  {
    hide NewestIn;
    var left := Ladder(written, live, cal, now);
    forall u, v | u in left && v in left && now - u.at >= 7 * DAY && now - v.at >= 7 * DAY && SameBucket(u, v, cal.day) ensures u == v {
      LeftIsNewest(u, written, live, cal, now);
      LeftIsNewest(v, written, live, cal, now);
      OneNewest(u, v, written, cal.day);
    }
    forall u, v | u in left && v in left && now - u.at >= 30 * DAY && now - v.at >= 30 * DAY && SameBucket(u, v, cal.week) ensures u == v {
      LeftIsNewest(u, written, live, cal, now);
      LeftIsNewest(v, written, live, cal, now);
      OneNewest(u, v, written, cal.week);
    }
  }

  lemma {:induction false} OneNewest(u: Version, v: Version, written: set<Version>, bucket: int -> int)
    requires Ordered(written) && u in written && v in written && SameBucket(u, v, bucket)
    requires NewestIn(u, written, bucket) && NewestIn(v, written, bucket)
    ensures u == v
  {
  }

  // ----- the trash ------------------------------------------------------------------------------------

  /** What the trash may lose: deleted nodes with no version left and nothing under them. */
  function Spent(nodes: map<NodeId, Node>, versions: set<Version>): set<NodeId> {
    set n | n in nodes && !nodes[n].live && n !in (set v | v in versions :: v.node)
            && Some(n) !in (set c | c in nodes :: nodes[c].parent)
  }

  /** Exactly the deleted nodes with no version left and nothing under them leave, so whatever has a parent keeps
      it; and no live node leaves. */
  lemma {:induction false} WhatTheTrashLoses(nodes: map<NodeId, Node>, versions: set<Version>)
    ensures var left := nodes - Spent(nodes, versions);
            && (forall n :: n in nodes ==>
                  (n !in left <==> && !nodes[n].live && (forall v :: v in versions ==> v.node != n)
                                   && forall c :: c in nodes ==> nodes[c].parent != Some(n)))
            && (forall n, p :: n in left && left[n].parent == Some(p) && p in nodes ==> p in left)
            && LiveOf(left) == LiveOf(nodes) && (forall n :: n in left ==> n in nodes && left[n] == nodes[n])
  {
  }

  function LiveOf(nodes: map<NodeId, Node>): set<NodeId> {
    set n | n in nodes && nodes[n].live
  }

  /** Nothing lies under a file, and only files have versions. */
  ghost predicate FilesAreLeaves(written: set<Version>, nodes: map<NodeId, Node>) {
    forall w, c :: w in written && c in nodes ==> nodes[c].parent != Some(w.node)
  }

  /** After a pass has thinned everything ever written and emptied the trash, every node still there has
      its newest version. */
  lemma {:induction false} HeadsSurvive(versions: set<Version>, written: set<Version>, nodes: map<NodeId, Node>, cal: Calendar, now: int)
    requires Ordered(written) && versions == Ladder(written, LiveOf(nodes), cal, now) && FilesAreLeaves(written, nodes)
    ensures Faithful(versions, written, nodes.Keys - Spent(nodes, versions), cal, now)
  {
  }

  /** Why the trash goes in the same transaction: a deleted node left behind by its last version and then
      restored would be a live node whose head an earlier pass had taken. */
  lemma {:induction false} SpentNodesMustGo(cal: Calendar, now: int)
    requires now >= 30 * DAY && now >= cal.historyDays(0) * DAY
    ensures var written := {Version(0, 1, 0, 0)};
            && Ladder(written, {}, cal, now) == {}
            && Ladder({}, {0}, cal, now) == {} && Ladder(written, {0}, cal, now) == written
  {
  }

  // ----- the tables ------------------------------------------------------------------------------------

  /** The version rows and the nodes they belong to. `written` is every version there has ever been, and
      `last` the moment of the last pass. */
  class History {
    const cal: Calendar
    var nodes: map<NodeId, Node>
    var versions: set<Version>
    ghost var written: set<Version>
    ghost var last: int

    constructor (cal: Calendar, now: int)
      requires Nested(cal)
      ensures Valid() && nodes == map[] && versions == {} && written == {} && last == now
    {
      this.cal, nodes, versions, written, last := cal, map[], {}, {}, now;
    }

    ghost predicate Valid()
      reads this
    {
      && Nested(cal) && Ordered(written) && FilesAreLeaves(written, nodes)
      && Faithful(versions, written, nodes.Keys, cal, last)
      && (forall v :: v in versions ==> v.node in nodes)
    }

    /** A folder or a file made under a folder. */
    method Add(n: NodeId, parent: Option<NodeId>)
      requires Valid() && n !in nodes && (forall w :: w in written ==> w.node != n && parent != Some(w.node))
      modifies this`nodes
      ensures Valid() && nodes == old(nodes)[n := Node(true, parent)]
    {
      nodes := nodes[n := Node(true, parent)];
    }

    /** `recordVersion`: the next revision of a node, no earlier than the ones before it. */
    method Record(v: Version)
      requires Valid() && v.node in nodes && (forall c :: c in nodes ==> nodes[c].parent != Some(v.node))
      requires forall w :: w in written && w.node == v.node ==> w.rev < v.rev && w.at <= v.at
      modifies this`versions, this`written
      ensures Valid() && versions == old(versions) + {v} && written == old(written) + {v}
    {
      versions := versions + {v};
      written := written + {v};
      assert forall w :: w in old(written) && IsHead(w, written) ==> IsHead(w, old(written));
      assert forall w :: w in old(written) && Earned(w, written, cal, last) ==> Earned(w, old(written), cal, last) by {
        forall w | w in old(written) && Earned(w, written, cal, last) ensures Earned(w, old(written), cal, last) {
          EarnedEarlier(w, old(written), written, cal, last, last);
        }
      }
    }

    /** A soft delete, or a node taken back out of the trash. */
    method SetLive(n: NodeId, live: bool)
      requires Valid() && n in nodes
      modifies this`nodes
      ensures Valid() && nodes == old(nodes)[n := old(nodes)[n].(live := live)]
    {
      nodes := nodes[n := nodes[n].(live := live)];
    }

    /** `thinVersions`: one statement, ranking and deleting over the rows that are there. */
    method ThinVersions(now: int) returns (thinned: nat)
      requires Valid() && last <= now
      modifies this`versions
      ensures versions == Ladder(written, LiveOf(nodes), cal, now) && versions <= old(versions)
      ensures thinned == |old(versions)| - |versions|
    {
      Confluent(versions, written, nodes.Keys, LiveOf(nodes), cal, last, now);
      var doomed := set v | v in versions && !KeepsRow(v, now);
      Disjoint(versions, doomed);
      assert versions - doomed == Ladder(versions, LiveOf(nodes), cal, now);
      thinned := |doomed|;
      versions := versions - doomed;
    }

    predicate KeepsRow(v: Version, now: int)
      reads this
      ensures KeepsRow(v, now) <==> Keeps(v, versions, LiveOf(nodes), cal, now)
    {
      var isHead := v.node in nodes && nodes[v.node].live && forall u :: u in versions && u.node == v.node ==> u.rev <= v.rev;
      var inDay := forall u :: u in versions && u.node == v.node && cal.day(u.at) == cal.day(v.at) ==> u.rev <= v.rev;
      var inWeek := forall u :: u in versions && u.node == v.node && cal.week(u.at) == cal.week(v.at) ==> u.rev <= v.rev;
      var age := now - v.at;
      !(&& !isHead && age >= 7 * DAY && !(age < 30 * DAY && inDay) && !(age < cal.historyDays(v.node) * DAY && inWeek))
    }

    static lemma Disjoint(all: set<Version>, some: set<Version>)
      requires some <= all
      ensures |all - some| == |all| - |some|
    {
    }

    /** `removeSpentTrash`. */
    method RemoveSpentTrash() returns (removed: nat)
      modifies this`nodes
      ensures nodes == old(nodes) - Spent(old(nodes), versions) && removed == |Spent(old(nodes), versions)|
    {
      var doomed := Spent(nodes, versions);
      removed := |doomed|;
      nodes := nodes - doomed;
    }

    /** The two statements of one transaction. The rows left are exactly those one pass at this moment would
        leave of everything ever written, and those are what must be left and nothing that must not; every node
        still there, live or in the trash, has its newest. Of the trash go exactly the nodes without a version and
        without anything below. */
    method Pass(now: int) returns (thinned: nat, removed: nat)
      requires Valid() && last <= now
      modifies this
      ensures Valid() && last == now && written == old(written)
      ensures versions == Ladder(written, LiveOf(old(nodes)), cal, now)
      ensures Spares(versions, written, LiveOf(nodes), cal, now) && Spends(versions, written, LiveOf(nodes), cal, now)
      ensures nodes == old(nodes) - Spent(old(nodes), versions)
      ensures forall n :: n in old(nodes) ==>
                (n !in nodes <==> && !old(nodes)[n].live && (forall v :: v in versions ==> v.node != n)
                                  && forall c :: c in old(nodes) ==> old(nodes)[c].parent != Some(n))
      ensures forall n, p :: n in nodes && nodes[n].parent == Some(p) && p in old(nodes) ==> p in nodes
      ensures LiveOf(nodes) == LiveOf(old(nodes))
      ensures thinned == |old(versions)| - |versions| && removed == |Spent(old(nodes), versions)|
    {
      hide Spares, Spends, Spent, Ladder, Faithful, LiveOf, Ordered, FilesAreLeaves, Nested;
      ghost var nodes0, versions0 := nodes, versions;
      thinned := ThinVersions(now);
      removed := RemoveSpentTrash();
      last := now;
      assert forall v :: v in versions ==> v in versions0 && v.node in nodes0;
      PassIs(versions, written, nodes0, nodes, cal, now);
    }
  }

  lemma {:induction false} PassIs(versions: set<Version>, written: set<Version>, nodes: map<NodeId, Node>, nodes': map<NodeId, Node>,
                                  cal: Calendar, now: int)
    requires Nested(cal) && Ordered(written) && FilesAreLeaves(written, nodes) && versions == Ladder(written, LiveOf(nodes), cal, now)
    requires nodes' == nodes - Spent(nodes, versions) && forall v :: v in versions ==> v.node in nodes
    ensures Faithful(versions, written, nodes'.Keys, cal, now) && FilesAreLeaves(written, nodes')
    ensures forall v :: v in versions ==> v.node in nodes'
    ensures Spares(versions, written, LiveOf(nodes'), cal, now) && Spends(versions, written, LiveOf(nodes'), cal, now)
    ensures forall n :: n in nodes ==>
              (n !in nodes' <==> && !nodes[n].live && (forall v :: v in versions ==> v.node != n)
                                 && forall c :: c in nodes ==> nodes[c].parent != Some(n))
    ensures forall n, p :: n in nodes' && nodes'[n].parent == Some(p) && p in nodes ==> p in nodes'
    ensures LiveOf(nodes') == LiveOf(nodes)
  {
    hide Spares, Spends, Spent, Ladder, Faithful, LiveOf, Ordered, Nested;
    HeadsSurvive(versions, written, nodes, cal, now);
    LadderSpares(written, LiveOf(nodes), cal, now);
    LadderSpends(written, LiveOf(nodes), cal, now);
    WhatTheTrashLoses(nodes, versions);
    assert nodes'.Keys == nodes.Keys - Spent(nodes, versions);
  }
}
