/** Myers' greedy comparison as `lineDiff` runs it: one frontier array, rolling trace slices, and a
    walk back. */
module LineDiff {
  import opened EditScript

  const MAX_EDITS := 2000

  /** Sizing the frontier array fails for a budget below -1; everything else is an answer. */
  datatype Outcome = RangeError | GaveUp | Script(rows: seq<DiffLine>)

  // ----- splitting a text into lines ------------------------------------------------------------

  /** `text.split('\n')`. */
  function Lines(text: string): (ls: seq<string>)
    ensures |ls| >= 1
  {
    if text == "" then [""]
    else
      var rest := Lines(text[1..]);
      if text[0] == '\n' then [""] + rest else [[text[0]] + rest[0]] + rest[1..]
  }

  function Joined(ls: seq<string>): string
    requires |ls| >= 1
  {
    if |ls| == 1 then ls[0] else ls[0] + "\n" + Joined(ls[1..])
  }

  lemma {:induction false} LinesSpellTheText(text: string)
    ensures Joined(Lines(text)) == text
    ensures forall l :: l in Lines(text) ==> '\n' !in l
  {
    if text != "" {
      LinesSpellTheText(text[1..]);
      var rest := Lines(text[1..]);
      if text[0] == '\n' {
        assert Lines(text)[1..] == rest;
      } else {
        assert Lines(text)[0] == [text[0]] + rest[0];
        assert Lines(text)[1..] == rest[1..];
        assert '\n' !in rest[0];
        calc {
          Joined(Lines(text));
          [text[0]] + Joined(rest);
          text;
        }
      }
    }
  }

  // ----- the frontier ---------------------------------------------------------------------------

  /** On diagonal `k`, `x` is the furthest point within `d` changes. */
  ghost predicate Furthest(a: seq<string>, b: seq<string>, d: int, k: int, x: int) {
    && x >= 0 && x - k >= 0
    && Dist(a, b, x, x - k) <= d
    && Dist(a, b, x + 1, x + 1 - k) > d
  }

  /** Every diagonal step `d` touches holds its furthest point, in a row whose diagonal 0 is at `c`. */
  ghost predicate FrontierRow(a: seq<string>, b: seq<string>, d: int, row: seq<int>, c: int) {
    forall i :: 0 <= i < |row| && c - d <= i <= c + d && (i - c + d) % 2 == 0 ==> Furthest(a, b, d, i - c, row[i])
  }

  /** What step `d` starts from: the row step `d - 1` left, or the single zero the first step reads. */
  ghost predicate StartRow(a: seq<string>, b: seq<string>, d: nat, row: seq<int>, c: int) {
    && 0 <= c - d - 1 && c + d + 1 < |row|
    && (if d == 0 then row[c + 1] == 0 else FrontierRow(a, b, d - 1, row, c))
  }

  /** Where step `d` enters diagonal `k`: from above when that is further, else from the left. */
  predicate FromAbove(row: seq<int>, c: int, d: int, k: int)
    requires -d <= k <= d && 0 <= c - d - 1 && c + d + 1 < |row|
  {
    k == -d || (k != d && row[c + k - 1] < row[c + k + 1])
  }

  function Entry(row: seq<int>, c: int, d: int, k: int): int
    requires -d <= k <= d && 0 <= c - d - 1 && c + d + 1 < |row|
  {
    if FromAbove(row, c, d, k) then row[c + k + 1] else row[c + k - 1] + 1
  }

  ghost predicate OnStep(d: int, k: int) {
    -d <= k <= d && (k + d) % 2 == 0
  }

  lemma {:induction false} FurthestDominates(a: seq<string>, b: seq<string>, d: int, k: int, x: int, z: int)
    requires Furthest(a, b, d, k, x)
    requires z >= 0 && z - k >= 0
    ensures Dist(a, b, z, z - k) <= d <==> z <= x
  {
    if z <= x {
      DiagonalGrows(a, b, z, z - k, x - z);
    } else {
      DiagonalGrows(a, b, x + 1, x + 1 - k, z - x - 1);
    }
  }

  /** The neighbouring diagonal of step `d`, as step `d - 1` left it. */
  lemma {:induction false} Neighbour(a: seq<string>, b: seq<string>, d: int, row: seq<int>, c: int, k: int)
    requires d > 0 && StartRow(a, b, d, row, c) && OnStep(d - 1, k)
    ensures Furthest(a, b, d - 1, k, row[c + k])
  {
  }

  lemma {:induction false} EntryIsReached(a: seq<string>, b: seq<string>, d: int, row: seq<int>, c: int, k: int)
    requires d >= 0 && StartRow(a, b, d, row, c) && OnStep(d, k)
    ensures var x := Entry(row, c, d, k); x >= 0 && x - k >= 0 && Dist(a, b, x, x - k) <= d
  {
    if d > 0 {
      if FromAbove(row, c, d, k) {
        Neighbour(a, b, d, row, c, k + 1);
        Neighbours(a, b, row[c + k + 1], row[c + k + 1] - (k + 1));
      } else {
        Neighbour(a, b, d, row, c, k - 1);
        Neighbours(a, b, row[c + k - 1], row[c + k - 1] - (k - 1));
      }
    }
  }

  /** Past the entry, both ways onto the next diagonal point other than a match need `d` changes. */
  lemma {:induction false} SidesAreBeyond(a: seq<string>, b: seq<string>, d: int, row: seq<int>, c: int, k: int, z: int)
    requires d >= 0 && StartRow(a, b, d, row, c) && OnStep(d, k)
    requires z >= Entry(row, c, d, k) && z >= 0 && z - k >= 0
    ensures Dist(a, b, z, z - k + 1) >= d && Dist(a, b, z + 1, z - k) >= d
  {
    if d > 0 {
      LeftIsBeyond(a, b, d, row, c, k, z);
      RightIsBeyond(a, b, d, row, c, k, z);
    }
  }

  lemma {:induction false} LeftIsBeyond(a: seq<string>, b: seq<string>, d: int, row: seq<int>, c: int, k: int, z: int)
    requires d > 0 && StartRow(a, b, d, row, c) && OnStep(d, k)
    requires z >= Entry(row, c, d, k) && z >= 0 && z - k >= 0
    ensures Dist(a, b, z, z - k + 1) >= d
  {
    if k == -d {
      Bounds(a, b, z, z - k + 1);
    } else {
      Neighbour(a, b, d, row, c, k - 1);
      FurthestDominates(a, b, d - 1, k - 1, row[c + k - 1], z);
    }
  }

  lemma {:induction false} RightIsBeyond(a: seq<string>, b: seq<string>, d: int, row: seq<int>, c: int, k: int, z: int)
    requires d > 0 && StartRow(a, b, d, row, c) && OnStep(d, k)
    requires z >= Entry(row, c, d, k) && z >= 0 && z - k >= 0
    ensures Dist(a, b, z + 1, z - k) >= d
  {
    if k == d {
      Bounds(a, b, z + 1, z - k);
    } else {
      Neighbour(a, b, d, row, c, k + 1);
      FurthestDominates(a, b, d - 1, k + 1, row[c + k + 1], z + 1);
    }
  }

  /** Where the snake stops is the furthest point. */
  lemma {:induction false} SnakeEndIsFurthest(a: seq<string>, b: seq<string>, d: int, row: seq<int>, c: int, k: int, x: int)
    requires d >= 0 && StartRow(a, b, d, row, c) && OnStep(d, k)
    requires x >= Entry(row, c, d, k) && x >= 0 && x - k >= 0
    requires Dist(a, b, x, x - k) <= d
    requires !Match(a, b, x, x - k)
    ensures Furthest(a, b, d, k, x)
  {
    SidesAreBeyond(a, b, d, row, c, k, x);
  }

  /** Between the entry and the furthest point of a diagonal, every step is a match. */
  lemma {:induction false} SnakeIsMatches(a: seq<string>, b: seq<string>, d: int, row: seq<int>, c: int, k: int, x: int, z: int)
    requires d >= 0 && StartRow(a, b, d, row, c) && OnStep(d, k)
    requires Furthest(a, b, d, k, x)
    requires Entry(row, c, d, k) <= z < x
    ensures z >= 0 && z - k >= 0 && Match(a, b, z, z - k)
  {
    EntryIsReached(a, b, d, row, c, k);
    FurthestDominates(a, b, d, k, x, z + 1);
    SidesAreBeyond(a, b, d, row, c, k, z);
  }

  /** While the corner lies beyond `d - 1`, the only point past both edges step `d` can reach is the
      corner itself, so the first stop is exact although the frontier may overrun either edge. */
  lemma {:induction false} FirstStopIsTheCorner(a: seq<string>, b: seq<string>, d: int, k: int, x: int)
    requires Furthest(a, b, d, k, x)
    requires x >= |a| && x - k >= |b|
    requires Dist(a, b, |a|, |b|) >= d
    ensures x == |a| && x - k == |b| && Dist(a, b, |a|, |b|) == d
  {
    Overshoot(a, b, x, x - k);
  }

  /** A step that stopped nowhere has not reached the corner. */
  lemma {:induction false} NoStopMeansFurther(a: seq<string>, b: seq<string>, d: int, row: seq<int>, v: seq<int>, off: int, k: int)
    requires d >= 0 && 0 <= off - d && off + d < |v| && k > d
    requires SteppedTo(a, b, d, row, v, off, k)
    requires Dist(a, b, |a|, |b|) >= d
    ensures FrontierRow(a, b, d, v, off)
    ensures Dist(a, b, |a|, |b|) > d
  {
    if Dist(a, b, |a|, |b|) == d {
      var i := off + |a| - |b|;
      Bounds(a, b, |a|, |b|);
      Parity(a, b, |a|, |b|);
      assert (i - off + d) % 2 == 0;
      FurthestDominates(a, b, d, i - off, v[i], |a|);
    }
  }

  // ----- the comparison -------------------------------------------------------------------------

  function Backwards(out: seq<DiffLine>): seq<DiffLine> {
    if out == [] then [] else [out[|out| - 1]] + Backwards(out[..|out| - 1])
  }

  /** One diagonal of one step: enter it, then follow the matches. */
  method Snake(a: seq<string>, b: seq<string>, v: array<int>, ghost row: seq<int>, off: int, d: int, k: int) returns (x: int)
    requires d >= 0 && StartRow(a, b, d, row, off) && OnStep(d, k) && v.Length == |row|
    requires v[off + k + 1] == row[off + k + 1] && v[off + k - 1] == row[off + k - 1]
    ensures Furthest(a, b, d, k, x)
  {
    var n, m := |a|, |b|;
    x := if k == -d || (k != d && v[off + k - 1] < v[off + k + 1]) then v[off + k + 1] else v[off + k - 1] + 1;
    EntryIsReached(a, b, d, row, off, k);
    var y := x - k;
    while x < n && y < m && a[x] == b[y]
      invariant x >= Entry(row, off, d, k) && x >= 0 && y == x - k >= 0
      invariant Dist(a, b, x, y) <= d
      decreases n - x
    {
      x := x + 1;
      y := y + 1;
    }
    SnakeEndIsFurthest(a, b, d, row, off, k, x);
  }

  /** Step `d` up to diagonal `k`: those done hold their furthest point and are not the corner, the
      rest is as the step found it. */
  ghost predicate SteppedTo(a: seq<string>, b: seq<string>, d: int, row: seq<int>, v: seq<int>, off: int, k: int) {
    && |v| == |row|
    && (forall i :: 0 <= i < |v| && (i >= off + k || (i - off + d) % 2 != 0) ==> v[i] == row[i])
    && (forall i :: 0 <= i < |v| && off - d <= i < off + k && (i - off + d) % 2 == 0 ==>
          Furthest(a, b, d, i - off, v[i]) && !(v[i] >= |a| && v[i] - (i - off) >= |b|))
  }

  lemma {:induction false} SteppedFurther(a: seq<string>, b: seq<string>, d: int, row: seq<int>, v: seq<int>, off: int, k: int, x: int)
    requires SteppedTo(a, b, d, row, v, off, k)
    requires 0 <= off + k < |v| && (k + d) % 2 == 0
    requires Furthest(a, b, d, k, x) && !(x >= |a| && x - k >= |b|)
    ensures SteppedTo(a, b, d, row, v[off + k := x], off, k + 2)
  {
  }

  /** One step of the forward pass, over every diagonal it touches, stopping at the corner. */
  method Step(a: seq<string>, b: seq<string>, v: array<int>, off: int, d: int) returns (done: bool)
    requires d >= 0 && StartRow(a, b, d, v[..], off)
    requires Dist(a, b, |a|, |b|) >= d
    modifies v
    ensures done <==> Dist(a, b, |a|, |b|) == d
    ensures !done ==> FrontierRow(a, b, d, v[..], off)
  {
    ghost var row := v[..];
    var k := -d;
    while k <= d
      invariant -d <= k <= d + 2 && (k + d) % 2 == 0
      invariant SteppedTo(a, b, d, row, v[..], off, k)
    {
      ghost var sofar := v[..];
      SideSlots(a, b, d, row, sofar, off, k);
      var x := Snake(a, b, v, row, off, d, k);
      v[off + k] := x;
      if x >= |a| && x - k >= |b| {
        FirstStopIsTheCorner(a, b, d, k, x);
        return true;
      }
      SteppedFurther(a, b, d, row, sofar, off, k, x);
      assert v[..] == sofar[off + k := x];
      k := k + 2;
    }
    NoStopMeansFurther(a, b, d, row, v[..], off, k);
    return false;
  }

  lemma {:induction false} SideSlots(a: seq<string>, b: seq<string>, d: int, row: seq<int>, v: seq<int>, off: int, k: int)
    requires d >= 0 && StartRow(a, b, d, row, off) && OnStep(d, k) && SteppedTo(a, b, d, row, v, off, k)
    ensures v[off + k + 1] == row[off + k + 1] && v[off + k - 1] == row[off + k - 1]
  {
  }

  /** The forward pass: the trace of frontiers up to the distance between the texts. */
  method Forward(a: seq<string>, b: seq<string>, limit: int) returns (done: bool, trace: seq<seq<int>>)
    requires -1 <= limit
    ensures done <==> Dist(a, b, |a|, |b|) <= limit
    ensures done ==> |trace| == Dist(a, b, |a|, |b|) + 1
    ensures Traced(a, b, trace)
  {
    var off := limit + 1;
    var v := new int[2 * limit + 3](_ => 0);
    trace := [];
    done := false;
    var d := 0;
    while d <= limit && !done
      invariant 0 <= d <= limit + 1
      invariant !done ==> Dist(a, b, |a|, |b|) >= d
      invariant !done && d <= limit ==> StartRow(a, b, d, v[..], off)
      invariant done ==> Dist(a, b, |a|, |b|) == d - 1
      invariant |trace| == d && Traced(a, b, trace)
    {
      ghost var earlier := trace;
      trace := trace + [v[off - d - 1..off + d + 2]];
      SliceStarts(a, b, d, v[..], off, trace[d]);
      assert trace[..d] == earlier;
      done := Step(a, b, v, off, d);
      d := d + 1;
    }
  }

  /** Slice `e` of the trace is what step `e` started from. */
  ghost predicate Traced(a: seq<string>, b: seq<string>, trace: seq<seq<int>>) {
    trace == [] ||
    var d := |trace| - 1;
    Traced(a, b, trace[..d]) && |trace[d]| == 2 * d + 3 && StartRow(a, b, d, trace[d], d + 1)
  }

  lemma {:induction false} TracedAt(a: seq<string>, b: seq<string>, trace: seq<seq<int>>, d: nat)
    requires d < |trace| && Traced(a, b, trace)
    ensures |trace[d]| == 2 * d + 3 && StartRow(a, b, d, trace[d], d + 1)
  {
    if d < |trace| - 1 {
      TracedAt(a, b, trace[..|trace| - 1], d);
    }
  }

  /** The slice kept for step `d` is what step `d` starts from. */
  lemma {:induction false} SliceStarts(a: seq<string>, b: seq<string>, d: nat, v: seq<int>, off: int, slice: seq<int>)
    requires StartRow(a, b, d, v, off)
    requires slice == v[off - d - 1..off + d + 2]
    ensures StartRow(a, b, d, slice, d + 1)
  {
  }

  /** The rows emitted so far, last first, turn the rest of one text into the rest of the other. */
  ghost predicate Emitted(out: seq<DiffLine>, a: seq<string>, b: seq<string>, x: nat, y: nat, cost: int) {
    && x <= |a| && y <= |b|
    && Before(Backwards(out)) == a[x..] && After(Backwards(out)) == b[y..]
    && Cost(Backwards(out)) == cost
  }

  ghost predicate Matched(a: seq<string>, b: seq<string>, k: int, lo: int, hi: int) {
    forall z :: lo <= z < hi ==> z >= 0 && z - k >= 0 && z < |a| && z - k < |b| && a[z] == b[z - k]
  }

  lemma {:induction false} SnakeMatched(a: seq<string>, b: seq<string>, d: int, row: seq<int>, c: int, k: int, x: int)
    requires d >= 0 && StartRow(a, b, d, row, c) && OnStep(d, k) && Furthest(a, b, d, k, x)
    ensures var entry := Entry(row, c, d, k); 0 <= entry <= x && entry - k >= 0 && Matched(a, b, k, entry, x)
  {
    EntryIsReached(a, b, d, row, c, k);
    var entry := Entry(row, c, d, k);
    FurthestDominates(a, b, d, k, x, entry);
    forall z | entry <= z < x
      ensures z >= 0 && z - k >= 0 && z < |a| && z - k < |b| && a[z] == b[z - k]
    {
      SnakeIsMatches(a, b, d, row, c, k, x, z);
    }
  }

  lemma {:induction false} SnakeFromBefore(a: seq<string>, b: seq<string>, d: int, row: seq<int>, k: int, x: int, down: bool, entry: int)
    requires d >= 0 && |row| == 2 * d + 3 && StartRow(a, b, d, row, d + 1) && OnStep(d, k) && Furthest(a, b, d, k, x)
    requires down == FromAbove(row, d + 1, d, k) && entry == Entry(row, d + 1, d, k)
    ensures 0 <= entry <= x && entry - k >= 0 && Matched(a, b, k, entry, x)
  {
    SnakeMatched(a, b, d, row, d + 1, k, x);
  }

  lemma {:induction false} FurthestBefore(a: seq<string>, b: seq<string>, d: int, row: seq<int>, k: int, down: bool)
    requires d >= 0 && |row| == 2 * d + 3 && StartRow(a, b, d, row, d + 1) && OnStep(d, k)
    requires down == FromAbove(row, d + 1, d, k)
    ensures var prevK := if down then k + 1 else k - 1;
            if d == 0 then k == 0 && down && row[prevK + d + 1] == 0
            else OnStep(d - 1, prevK) && Furthest(a, b, d - 1, prevK, row[prevK + d + 1])
  {
  }

  /** What the walk back reads off the slice of step `d`: the neighbouring point this diagonal was
      entered from, and whether from above. */
  method CameFrom(ghost a: seq<string>, ghost b: seq<string>, vd: seq<int>, d: int, k: int, ghost x: int)
    returns (down: bool, prevX: int, prevY: int)
    requires d >= 0 && |vd| == 2 * d + 3 && StartRow(a, b, d, vd, d + 1) && OnStep(d, k) && Furthest(a, b, d, k, x)
    ensures prevX - prevY == if down then k + 1 else k - 1
    ensures var entry := if down then prevX else prevX + 1;
            0 <= entry <= x && entry - k >= 0 && Matched(a, b, k, entry, x)
    ensures d == 0 ==> k == 0 && down && prevX == 0
    ensures d > 0 ==> OnStep(d - 1, prevX - prevY) && Furthest(a, b, d - 1, prevX - prevY, prevX)
  {
    down := k == -d || (k != d && vd[k + d] < vd[k + d + 2]);
    var prevK := if down then k + 1 else k - 1;
    prevX := vd[prevK + d + 1];
    prevY := prevX - prevK;
    FurthestBefore(a, b, d, vd, k, down);
    SnakeFromBefore(a, b, d, vd, k, x, down, if down then prevX else prevX + 1);
  }

  /** Up one diagonal to its entry, emitting each line as unchanged. */
  method WalkSnake(a: seq<string>, b: seq<string>, out0: seq<DiffLine>, x0: int, y0: int, prevX: int, prevY: int,
                   ghost entry: int, ghost cost: int)
    returns (out: seq<DiffLine>, x: int, y: int)
    requires Matched(a, b, x0 - y0, entry, x0)
    requires 0 <= entry <= x0 && entry - (x0 - y0) >= 0
    requires prevX <= entry && prevY <= entry - (x0 - y0) && (prevX == entry || prevY == entry - (x0 - y0))
    requires y0 >= 0 && cost >= 0 && Emitted(out0, a, b, x0, y0, cost)
    ensures x == entry && x - y == x0 - y0 && y >= 0 && Emitted(out, a, b, x, y, cost)
  {
    ghost var k := x0 - y0;
    out, x, y := out0, x0, y0;
    while x > prevX && y > prevY
      invariant entry <= x <= x0 && x - y == k && y >= 0
      invariant Emitted(out, a, b, x, y, cost)
      decreases x - prevX
    {
      x := x - 1;
      y := y - 1;
      assert a[x] == b[x - k];
      Emit(out, DiffLine(Same, a[x]), a, b, x, y, cost);
      out := out + [DiffLine(Same, a[x])];
    }
  }

  /** The walk back along the trace, emitting the script's rows last first. */
  method Backward(a: seq<string>, b: seq<string>, trace: seq<seq<int>>) returns (rows: seq<DiffLine>)
    requires |trace| > 0 && Traced(a, b, trace)
    requires OnStep(|trace| - 1, |a| - |b|) && Furthest(a, b, |trace| - 1, |a| - |b|, |a|)
    ensures IsScript(rows, a, b)
    ensures Cost(rows) == |trace| - 1
  {
    hide Furthest, Traced;
    var out: seq<DiffLine> := [];
    var x, y := |a|, |b|;
    var d := |trace| - 1;
    while d >= 0
      invariant -1 <= d < |trace|
      invariant x >= 0 && y >= 0 && Emitted(out, a, b, x, y, |trace| - 1 - (if d < 0 then 0 else d))
      invariant if d < 0 then x == 0 && y == 0 else OnStep(d, x - y) && Furthest(a, b, d, x - y, x)
    {
      TracedAt(a, b, trace, d);
      var down, prevX, prevY := CameFrom(a, b, trace[d], d, x - y, x);
      out, x, y := WalkStep(a, b, d, out, x, y, down, prevX, prevY, |trace| - 1 - d);
      d := d - 1;
    }
    rows := Backwards(out);
  }

  /** One step of the walk back: the snake, then the change that led to it. */
  method WalkStep(a: seq<string>, b: seq<string>, d: int, out0: seq<DiffLine>, x0: int, y0: int,
                  down: bool, prevX: int, prevY: int, ghost cost: int)
    returns (out: seq<DiffLine>, x: int, y: int)
    requires prevX - prevY == x0 - y0 + if down then 1 else -1
    requires var entry := if down then prevX else prevX + 1;
             0 <= entry <= x0 && entry - (x0 - y0) >= 0 && Matched(a, b, x0 - y0, entry, x0)
    requires if d == 0 then x0 == y0 && down && prevX == 0 else prevX >= 0 && prevY >= 0
    requires x0 >= 0 && y0 >= 0 && cost >= 0 && Emitted(out0, a, b, x0, y0, cost)
    ensures if d == 0 then x == 0 && y == 0 else x == prevX && y == prevY
    ensures Emitted(out, a, b, x, y, if d == 0 then cost else cost + 1)
  {
    out, x, y := WalkSnake(a, b, out0, x0, y0, prevX, prevY, if down then prevX else prevX + 1, cost);
    if d != 0 {
      out, x, y := WalkEdit(a, b, out, x, y, down, cost);
    }
  }

  /** The change before a snake: a line added when the walk came from above, else one removed. */
  method WalkEdit(a: seq<string>, b: seq<string>, out0: seq<DiffLine>, x0: int, y0: int, down: bool, ghost cost: int)
    returns (out: seq<DiffLine>, x: int, y: int)
    requires x0 >= 0 && y0 >= 0 && cost >= 0 && Emitted(out0, a, b, x0, y0, cost)
    requires if down then y0 > 0 else x0 > 0
    ensures if down then x == x0 && y == y0 - 1 else x == x0 - 1 && y == y0
    ensures Emitted(out, a, b, x, y, cost + 1)
  {
    out, x, y := out0, x0, y0;
    if down {
      y := y - 1;
      Emit(out, DiffLine(Added, b[y]), a, b, x, y, cost + 1);
      out := out + [DiffLine(Added, b[y])];
    } else {
      x := x - 1;
      Emit(out, DiffLine(Removed, a[x]), a, b, x, y, cost + 1);
      out := out + [DiffLine(Removed, a[x])];
    }
  }

  lemma {:induction false} CornerIsFurthest(a: seq<string>, b: seq<string>)
    ensures Furthest(a, b, Dist(a, b, |a|, |b|), |a| - |b|, |a|)
    ensures OnStep(Dist(a, b, |a|, |b|), |a| - |b|)
  {
    Bounds(a, b, |a|, |b|);
    Parity(a, b, |a|, |b|);
    Overshoot(a, b, |a| + 1, |b| + 1);
  }

  lemma {:induction false} Emit(out: seq<DiffLine>, l: DiffLine, a: seq<string>, b: seq<string>, x: nat, y: nat, cost: nat)
    requires l.kind != Added ==> x < |a| && l.text == a[x]
    requires l.kind != Removed ==> y < |b| && l.text == b[y]
    requires Emitted(out, a, b, if l.kind == Added then x else x + 1, if l.kind == Removed then y else y + 1,
                     if l.kind == Same then cost else cost - 1)
    ensures Emitted(out + [l], a, b, x, y, cost)
  {
    hide Texts, Cost, Backwards;
    var script := Backwards(out);
    LastFirst(out, l);
    OneRow(l);
    TextsConcat([l], script, Added);
    TextsConcat([l], script, Removed);
    CostConcat([l], script);
    if l.kind != Added {
      assert a[x..] == [l.text] + a[x + 1..];
    }
    if l.kind != Removed {
      assert b[y..] == [l.text] + b[y + 1..];
    }
  }

  lemma {:induction false} LastFirst(out: seq<DiffLine>, l: DiffLine)
    ensures Backwards(out + [l]) == [l] + Backwards(out)
  {
  }

  lemma {:induction false} OneRow(l: DiffLine)
    ensures Texts([l], Added) == (if l.kind == Added then [] else [l.text])
    ensures Texts([l], Removed) == (if l.kind == Removed then [] else [l.text])
    ensures Cost([l]) == if l.kind == Same then 0 else 1
  {
    assert [l][..0] == [];
  }

  /** `lineDiff`: a shortest script between the lines of two texts, or nothing exactly when every
      script changes more than `maxEdits` lines. */
  method LineDiff(before: string, after: string, maxEdits: int := MAX_EDITS) returns (r: Outcome)
    ensures r.RangeError? <==> maxEdits < -1
    ensures r.Script? ==>
              && IsScript(r.rows, Lines(before), Lines(after))
              && Cost(r.rows) <= maxEdits
              && forall rows :: IsScript(rows, Lines(before), Lines(after)) ==> Cost(r.rows) <= Cost(rows)
    ensures maxEdits >= -1 ==>
              (r.GaveUp? <==> forall rows :: IsScript(rows, Lines(before), Lines(after)) ==> Cost(rows) > maxEdits)
  {
    var a, b := Lines(before), Lines(after);
    var n, m := |a|, |b|;
    var limit := if n + m <= maxEdits then n + m else maxEdits;
    Bounds(a, b, n, m);
    forall rows | IsScript(rows, a, b) ensures Cost(rows) >= Dist(a, b, n, m) {
      ScriptsCostAtLeastDist(rows, a, b);
    }
    if limit < -1 {
      return RangeError;
    }
    var done, trace := Forward(a, b, limit);
    if !done {
      return GaveUp;
    }
    CornerIsFurthest(a, b);
    var rows := Backward(a, b, trace);
    return Script(rows);
  }

  /** The rows that were not added spell the first text, the rows that were not removed the second. */
  lemma {:induction false} ScriptsSpellBothTexts(rows: seq<DiffLine>, before: string, after: string)
    requires IsScript(rows, Lines(before), Lines(after))
    ensures Joined(Before(rows)) == before && Joined(After(rows)) == after
  {
    LinesSpellTheText(before);
    LinesSpellTheText(after);
  }
}
