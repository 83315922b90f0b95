/** What a line-by-line comparison may answer, and how far apart two texts are.

    `Dist` is the independent reference: the least number of removed and added lines between a
    prefix of `a` and a prefix of `b`, defined on the whole quarter plane. Beyond the edges of the
    two texts nothing ever matches, so a point out there only costs more. */
module EditScript {

  datatype Kind = Same | Removed | Added

  datatype DiffLine = DiffLine(kind: Kind, text: string)

  /** The texts of the rows that are not of kind `but`. */
  function Texts(rows: seq<DiffLine>, but: Kind): seq<string> {
    if rows == [] then []
    else Texts(rows[..|rows| - 1], but) + (var l := rows[|rows| - 1]; if l.kind == but then [] else [l.text])
  }

  /** What the rows say the first text was. */
  function Before(rows: seq<DiffLine>): seq<string> {
    Texts(rows, Added)
  }

  /** What the rows say the second text was. */
  function After(rows: seq<DiffLine>): seq<string> {
    Texts(rows, Removed)
  }

  /** How many lines the rows change. */
  function Cost(rows: seq<DiffLine>): nat {
    if rows == [] then 0
    else Cost(rows[..|rows| - 1]) + (if rows[|rows| - 1].kind == Same then 0 else 1)
  }

  ghost predicate IsScript(rows: seq<DiffLine>, a: seq<string>, b: seq<string>) {
    Before(rows) == a && After(rows) == b
  }

  predicate Match(a: seq<string>, b: seq<string>, i: nat, j: nat) {
    i < |a| && j < |b| && a[i] == b[j]
  }

  ghost function Dist(a: seq<string>, b: seq<string>, i: nat, j: nat): nat
    decreases i + j
  {
    if i == 0 then j
    else if j == 0 then i
    else if Match(a, b, i - 1, j - 1) then Dist(a, b, i - 1, j - 1)
    else
      var up, left := Dist(a, b, i - 1, j), Dist(a, b, i, j - 1);
      1 + if up <= left then up else left
  }

  /** One step to a neighbour moves the distance by exactly one. */
  lemma {:induction false} Neighbours(a: seq<string>, b: seq<string>, i: nat, j: nat)
    ensures Dist(a, b, i + 1, j) == Dist(a, b, i, j) + 1 || Dist(a, b, i + 1, j) == Dist(a, b, i, j) - 1
    ensures Dist(a, b, i, j + 1) == Dist(a, b, i, j) + 1 || Dist(a, b, i, j + 1) == Dist(a, b, i, j) - 1
    decreases i + j
  {
    if j > 0 {
      Neighbours(a, b, i, j - 1);
    }
    if i > 0 {
      Neighbours(a, b, i - 1, j);
    }
  }

  lemma {:induction false} Parity(a: seq<string>, b: seq<string>, i: nat, j: nat)
    ensures (Dist(a, b, i, j) + i + j) % 2 == 0
    decreases i + j
  {
    if i > 0 {
      Parity(a, b, i - 1, j);
      Neighbours(a, b, i - 1, j);
    }
  }

  /** Along a diagonal the distance never falls. */
  lemma {:induction false} DiagonalGrows(a: seq<string>, b: seq<string>, i: nat, j: nat, steps: nat)
    ensures Dist(a, b, i, j) <= Dist(a, b, i + steps, j + steps)
    decreases steps
  {
    if steps > 0 {
      DiagonalGrows(a, b, i, j, steps - 1);
      var x, y := i + steps - 1, j + steps - 1;
      Neighbours(a, b, x, y);
      Neighbours(a, b, x + 1, y);
      Neighbours(a, b, x, y + 1);
      assert Dist(a, b, x + 1, y + 1) >= Dist(a, b, x, y);
    }
  }

  lemma {:induction false} Bounds(a: seq<string>, b: seq<string>, i: nat, j: nat)
    ensures i - j <= Dist(a, b, i, j) <= i + j
    ensures j - i <= Dist(a, b, i, j)
    decreases i + j
  {
    if i > 0 {
      Bounds(a, b, i - 1, j);
    }
    if j > 0 {
      Bounds(a, b, i, j - 1);
    }
    if i > 0 && j > 0 {
      Bounds(a, b, i - 1, j - 1);
    }
  }

  /** Past the right edge every step right costs one more; likewise below the bottom edge. */
  lemma {:induction false} PastTheEdge(a: seq<string>, b: seq<string>, i: nat, j: nat)
    ensures i >= |a| ==> Dist(a, b, i + 1, j) == Dist(a, b, i, j) + 1
    ensures j >= |b| ==> Dist(a, b, i, j + 1) == Dist(a, b, i, j) + 1
    decreases i + j
  {
    if j > 0 {
      PastTheEdge(a, b, i, j - 1);
      Neighbours(a, b, i, j - 1);
    }
    if i > 0 {
      PastTheEdge(a, b, i - 1, j);
      Neighbours(a, b, i - 1, j);
    }
  }

  lemma {:induction false} Overshoot(a: seq<string>, b: seq<string>, i: nat, j: nat)
    requires i >= |a| && j >= |b|
    ensures Dist(a, b, i, j) == Dist(a, b, |a|, |b|) + (i - |a|) + (j - |b|)
    decreases i + j
  {
    if i > |a| {
      Overshoot(a, b, i - 1, j);
      PastTheEdge(a, b, i - 1, j);
    } else if j > |b| {
      Overshoot(a, b, i, j - 1);
      PastTheEdge(a, b, i, j - 1);
    }
  }

  /** No script is cheaper than the distance between the texts it relates. */
  lemma {:induction false} ScriptsCostAtLeastDist(rows: seq<DiffLine>, a: seq<string>, b: seq<string>)
    requires Before(rows) <= a && After(rows) <= b
    ensures Cost(rows) >= Dist(a, b, |Before(rows)|, |After(rows)|)
    decreases |rows|
  {
    if rows != [] {
      var init, l := rows[..|rows| - 1], rows[|rows| - 1];
      ScriptsCostAtLeastDist(init, a, b);
      var i, j := |Before(init)|, |After(init)|;
      Neighbours(a, b, i, j);
      if l.kind == Same {
        assert a[i] == Before(rows)[i] && b[j] == After(rows)[j];
      }
    }
  }

  lemma {:induction false} TextsConcat(x: seq<DiffLine>, y: seq<DiffLine>, but: Kind)
    ensures Texts(x + y, but) == Texts(x, but) + Texts(y, but)
    decreases |y|
  {
    if y == [] {
      assert x + y == x;
    } else {
      TextsConcat(x, y[..|y| - 1], but);
      assert (x + y)[..|x + y| - 1] == x + y[..|y| - 1];
    }
  }

  lemma {:induction false} CostConcat(x: seq<DiffLine>, y: seq<DiffLine>)
    ensures Cost(x + y) == Cost(x) + Cost(y)
    decreases |y|
  {
    if y == [] {
      assert x + y == x;
    } else {
      CostConcat(x, y[..|y| - 1]);
      assert (x + y)[..|x + y| - 1] == x + y[..|y| - 1];
    }
  }
}
