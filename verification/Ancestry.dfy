/** The chain of ancestors each node carries, kept equal to the one its parent pointers spell. */
module Ancestry {
  import opened Options

  type NodeId = nat

  datatype Row = Row(parent: Option<NodeId>, ancestry: seq<NodeId>)

  type Rows = map<NodeId, Row>

  /** `chain` is the strict ancestors of `n`, root first, as the parent pointers have it. That there is one
      at all means that nothing on the way up leads back. */
  predicate IsChain(rows: Rows, n: NodeId, chain: seq<NodeId>)
    decreases |chain|
  {
    && n in rows
    && (match rows[n].parent
        case None => chain == []
        case Some(p) => chain != [] && chain[|chain| - 1] == p && IsChain(rows, p, chain[..|chain| - 1]))
  }

  ghost predicate Indexed(rows: Rows) {
    forall n :: n in rows ==> IsChain(rows, n, rows[n].ancestry)
  }

  /** The `k`th parent up. */
  function Climb(rows: Rows, n: NodeId, k: nat): Option<NodeId>
    decreases k
  {
    if k == 0 then Some(n)
    else if n in rows && rows[n].parent.Some? then Climb(rows, rows[n].parent.value, k - 1)
    else None
  }

  /** `n` is strictly under `x`. */
  ghost predicate Under(rows: Rows, x: NodeId, n: NodeId) {
    exists k: nat :: k > 0 && Climb(rows, n, k) == Some(x)
  }

  /** There is one chain. */
  lemma {:induction false} OneChain(rows: Rows, n: NodeId, a: seq<NodeId>, b: seq<NodeId>)
    requires IsChain(rows, n, a) && IsChain(rows, n, b)
    ensures a == b
    decreases |a|
  {
    if rows[n].parent.Some? {
      OneChain(rows, rows[n].parent.value, a[..|a| - 1], b[..|b| - 1]);
      assert a == a[..|a| - 1] + [a[|a| - 1]] && b == b[..|b| - 1] + [b[|b| - 1]];
    }
  }

  /** What precedes an ancestor in a chain is its own chain. */
  lemma {:induction false} ChainOfAncestor(rows: Rows, n: NodeId, chain: seq<NodeId>, i: nat)
    requires IsChain(rows, n, chain) && i < |chain|
    ensures IsChain(rows, chain[i], chain[..i])
    decreases |chain|
  {
    if i < |chain| - 1 {
      ChainOfAncestor(rows, rows[n].parent.value, chain[..|chain| - 1], i);
      assert chain[..|chain| - 1][..i] == chain[..i];
    }
  }

  /** Nothing is among its own ancestors. */
  lemma {:induction false} Acyclic(rows: Rows, n: NodeId, chain: seq<NodeId>)
    requires IsChain(rows, n, chain)
    ensures n !in chain
  {
    if n in chain {
      var i :| 0 <= i < |chain| && chain[i] == n;
      ChainOfAncestor(rows, n, chain, i);
      OneChain(rows, n, chain, chain[..i]);
      assert false;
    }
  }

  lemma {:induction false} ClimbsToEach(rows: Rows, n: NodeId, chain: seq<NodeId>, k: nat)
    requires IsChain(rows, n, chain) && 0 < k
    ensures Climb(rows, n, k) == if k <= |chain| then Some(chain[|chain| - k]) else None
    decreases |chain|
  {
    if chain != [] {
      var p := rows[n].parent.value;
      if k > 1 {
        ClimbsToEach(rows, p, chain[..|chain| - 1], k - 1);
      }
    }
  }

  /** The containment test selects exactly the strict descendants. */
  lemma {:induction false} CarriesIffUnder(rows: Rows, x: NodeId, n: NodeId)
    requires Indexed(rows) && n in rows
    ensures x in rows[n].ancestry <==> Under(rows, x, n)
  {
    var chain := rows[n].ancestry;
    if x in chain {
      var i :| 0 <= i < |chain| && chain[i] == x;
      ClimbsToEach(rows, n, chain, |chain| - i);
    }
    if Under(rows, x, n) {
      var k: nat :| k > 0 && Climb(rows, n, k) == Some(x);
      ClimbsToEach(rows, n, chain, k);
    }
  }

  // ----- a move -----------------------------------------------------------------------------------------

  /** Where `x` first stands in `chain`. */
  function Position(chain: seq<NodeId>, x: NodeId): (i: nat)
    requires x in chain
    ensures i < |chain| && chain[i] == x && x !in chain[..i]
  {
    if chain[0] == x then 0
    else
      assert chain == [chain[0]] + chain[1..];
      1 + Position(chain[1..], x)
  }

  /** `rewriteSubtreeAncestry`: every chain through `x` keeps its part below `x` and takes the new one above. */
  function Rewritten(rows: Rows, x: NodeId, above: seq<NodeId>): Rows {
    map n | n in rows ::
      if x in rows[n].ancestry then
        rows[n].(ancestry := above + [x] + rows[n].ancestry[Position(rows[n].ancestry, x) + 1..])
      else rows[n]
  }

  /** The parent pointers after a move: one has changed. */
  ghost predicate Reparented(rows: Rows, rows': Rows, x: NodeId, p: NodeId) {
    && rows'.Keys == rows.Keys && x in rows
    && forall n :: n in rows ==> rows'[n].parent == if n == x then Some(p) else rows[n].parent
  }

  lemma {:induction false} ElsewhereStays(rows: Rows, rows': Rows, x: NodeId, p: NodeId, n: NodeId, chain: seq<NodeId>)
    requires Reparented(rows, rows', x, p) && IsChain(rows, n, chain) && n != x && x !in chain
    ensures IsChain(rows', n, chain)
    decreases |chain|
  {
    if chain != [] {
      ElsewhereStays(rows, rows', x, p, rows[n].parent.value, chain[..|chain| - 1]);
    }
  }

  lemma {:induction false} BelowFollows(rows: Rows, rows': Rows, x: NodeId, p: NodeId, above: seq<NodeId>, n: NodeId, head: seq<NodeId>, tail: seq<NodeId>)
    requires Reparented(rows, rows', x, p) && IsChain(rows', x, above)
    requires IsChain(rows, n, head + [x] + tail) && n != x && x !in tail
    ensures IsChain(rows', n, above + [x] + tail)
    decreases |tail|
  {
    var chain, new_ := head + [x] + tail, above + [x] + tail;
    assert chain[|chain| - 1] == rows[n].parent.value;
    if tail == [] {
      assert new_[..|new_| - 1] == above;
    } else {
      var rest := tail[..|tail| - 1];
      assert chain[..|chain| - 1] == head + [x] + rest;
      assert new_[..|new_| - 1] == above + [x] + rest;
      BelowFollows(rows, rows', x, p, above, tail[|tail| - 1], head, rest);
    }
  }

  /** The moved node and all below it carry their new chains, everything else the one it had. */
  lemma {:induction false} MoveKeepsIndex(rows: Rows, moved: Rows, x: NodeId, p: NodeId)
    requires Indexed(rows) && x in rows && p in rows && p != x && x !in rows[p].ancestry
    requires moved == rows[x := Row(Some(p), rows[p].ancestry + [p])]
    ensures Indexed(Rewritten(moved, x, rows[p].ancestry + [p]))
  {
    var above := rows[p].ancestry + [p];
    var rows' := Rewritten(moved, x, above);
    assert Reparented(rows, rows', x, p);
    ElsewhereStays(rows, rows', x, p, p, rows[p].ancestry);
    assert above[..|above| - 1] == rows[p].ancestry;
    assert IsChain(rows', x, above);
    forall n | n in rows' ensures IsChain(rows', n, rows'[n].ancestry) {
      var chain := rows[n].ancestry;
      if n != x {
        if x in chain {
          var i := Position(chain, x);
          ChainOfAncestor(rows, n, chain, i);
          OnceInChain(rows, n, chain, x, i);
          assert chain == chain[..i] + [x] + chain[i + 1..];
          BelowFollows(rows, rows', x, p, above, n, chain[..i], chain[i + 1..]);
        } else {
          ElsewhereStays(rows, rows', x, p, n, chain);
        }
      }
    }
  }

  lemma {:induction false} OnceInChain(rows: Rows, n: NodeId, chain: seq<NodeId>, x: NodeId, i: nat)
    requires IsChain(rows, n, chain) && i < |chain| && chain[i] == x
    ensures x !in chain[i + 1..]
  {
    forall j | i < j < |chain| ensures chain[j] != x {
      ChainOfAncestor(rows, n, chain, j);
      ChainOfAncestor(rows, n, chain, i);
      if chain[j] == x {
        OneChain(rows, x, chain[..i], chain[..j]);
        assert false;
      }
    }
  }

  datatype Refusal = NotFound | Cycle

  /** The nodes of one vault. */
  class Vault {
    var rows: Rows

    constructor (root: NodeId)
      ensures Indexed(rows) && rows == map[root := Row(None, [])]
    {
      rows := map[root := Row(None, [])];
    }

    /** A node made under another. */
    method Create(n: NodeId, p: NodeId) returns (r: Option<Refusal>)
      requires Indexed(rows) && n !in rows
      modifies this
      ensures Indexed(rows)
      ensures r == if p in old(rows) then None else Some(NotFound)
      ensures rows == if r.None? then old(rows)[n := Row(Some(p), old(rows)[p].ancestry + [p])] else old(rows)
    {
      if p !in rows {
        return Some(NotFound);
      }
      ghost var before := rows;
      var chain := rows[p].ancestry + [p];
      rows := rows[n := Row(Some(p), chain)];
      forall m | m in before ensures IsChain(rows, m, before[m].ancestry) {
        NewcomerIsNobodys(before, rows, m, before[m].ancestry);
      }
      assert chain[..|chain| - 1] == before[p].ancestry;
      return None;
    }

    static lemma NewcomerIsNobodys(before: Rows, rows: Rows, m: NodeId, chain: seq<NodeId>)
      requires IsChain(before, m, chain) && before.Keys <= rows.Keys && forall n :: n in before ==> rows[n] == before[n]
      ensures IsChain(rows, m, chain)
      decreases |chain|
    {
      if chain != [] {
        NewcomerIsNobodys(before, rows, before[m].parent.value, chain[..|chain| - 1]);
      }
    }

    /** `moveNode`: refused for a place that is not there, or that is the node or inside it; otherwise one
        parent changes, and every chain is again what the parents spell. */
    method Move(x: NodeId, p: NodeId) returns (r: Option<Refusal>)
      requires Indexed(rows)
      modifies this
      ensures Indexed(rows)
      ensures r == if x !in old(rows) || p !in old(rows) then Some(NotFound)
                   else if p == x || Under(old(rows), x, p) then Some(Cycle) else None
      ensures if r.None? then Reparented(old(rows), rows, x, p) else rows == old(rows)
    {
      if x !in rows || p !in rows {
        return Some(NotFound);
      }
      CarriesIffUnder(rows, x, p);
      if p == x || x in rows[p].ancestry {
        return Some(Cycle);
      }
      ghost var before := rows;
      var above := rows[p].ancestry + [p];
      rows := rows[x := Row(Some(p), above)];
      MoveKeepsIndex(before, rows, x, p);
      rows := Rewritten(rows, x, above);
      return None;
    }
  }
}
