/** Folding the unchanged runs of a comparison away from its changes. */
module FoldedDiff {
  import opened EditScript

  datatype DiffRow = Line(line: DiffLine) | Skipped(count: nat)

  /** Within `context` rows of a change. */
  ghost predicate Near(diff: seq<DiffLine>, context: int, i: int) {
    exists c :: 0 <= c < |diff| && diff[c].kind != Same && c - context <= i <= c + context
  }

  /** `rows` reads `diff` from row `i` on: each line in place, each count standing for exactly that many
      rows far from any change, no count empty and no two counts side by side. */
  ghost predicate Reads(rows: seq<DiffRow>, diff: seq<DiffLine>, context: int, i: nat)
    decreases |rows|
  {
    if rows == [] then i == |diff|
    else match rows[0]
      case Line(l) => i < |diff| && l == diff[i] && Near(diff, context, i) && Reads(rows[1..], diff, context, i + 1)
      case Skipped(n) =>
        && n > 0 && i + n <= |diff|
        && (forall j :: i <= j < i + n ==> !Near(diff, context, j))
        && (|rows| > 1 ==> rows[1].Line?)
        && Reads(rows[1..], diff, context, i + n)
  }

  /** How many rows of the comparison the folded rows account for. */
  function Covered(rows: seq<DiffRow>): nat {
    if rows == [] then 0
    else Covered(rows[1..]) + match rows[0] { case Line(_) => 1 case Skipped(n) => n }
  }

  /** The rows counted but not shown are put back as rows of `diff`. */
  function Unfolded(rows: seq<DiffRow>, diff: seq<DiffLine>, i: nat): seq<DiffLine>
    requires i + Covered(rows) <= |diff|
    decreases |rows|
  {
    if rows == [] then []
    else match rows[0]
      case Line(l) => [l] + Unfolded(rows[1..], diff, i + 1)
      case Skipped(n) => diff[i..i + n] + Unfolded(rows[1..], diff, i + n)
  }

  /** The rows of `diff` from `i` on folded, with `skipped` hidden rows just before `i`. */
  function Fold(diff: seq<DiffLine>, near: seq<bool>, i: nat, skipped: nat): seq<DiffRow>
    requires |near| == |diff| && i <= |diff|
    decreases |diff| - i
  {
    if i == |diff| then (if skipped == 0 then [] else [Skipped(skipped)])
    else if near[i] then
      (if skipped == 0 then [] else [Skipped(skipped)]) + [Line(diff[i])] + Fold(diff, near, i + 1, 0)
    else Fold(diff, near, i + 1, skipped + 1)
  }

  lemma {:induction false} FoldReads(diff: seq<DiffLine>, near: seq<bool>, context: int, i: nat, skipped: nat)
    requires |near| == |diff| && skipped <= i <= |diff|
    requires forall j :: 0 <= j < |diff| ==> (near[j] <==> Near(diff, context, j))
    requires forall j :: i - skipped <= j < i ==> !near[j]
    ensures Reads(Fold(diff, near, i, skipped), diff, context, i - skipped)
    decreases |diff| - i
  {
    var rows := Fold(diff, near, i, skipped);
    if i < |diff| {
      if near[i] {
        FoldReads(diff, near, context, i + 1, 0);
        var rest := [Line(diff[i])] + Fold(diff, near, i + 1, 0);
        assert rest[1..] == Fold(diff, near, i + 1, 0);
        assert Reads(rest, diff, context, i);
        if skipped > 0 {
          assert rows == [Skipped(skipped)] + rest && rows[1..] == rest;
        } else {
          assert rows == rest;
        }
      } else {
        FoldReads(diff, near, context, i + 1, skipped + 1);
      }
    } else if skipped > 0 {
      assert rows[1..] == [];
    }
  }

  /** A reading loses nothing: it covers every row, and with the hidden rows put back it is the
      comparison itself. */
  lemma {:induction false} ReadingLosesNothing(rows: seq<DiffRow>, diff: seq<DiffLine>, context: int, i: nat)
    requires i <= |diff| && Reads(rows, diff, context, i)
    ensures i + Covered(rows) == |diff|
    ensures Unfolded(rows, diff, i) == diff[i..]
    decreases |rows|
  {
    if rows != [] {
      match rows[0]
      case Line(l) =>
        ReadingLosesNothing(rows[1..], diff, context, i + 1);
      case Skipped(n) =>
        ReadingLosesNothing(rows[1..], diff, context, i + n);
        assert diff[i..] == diff[i..i + n] + diff[i + n..];
    }
  }

  /** There is only one way to read a comparison. */
  lemma {:induction false} ReadingIsUnique(rows: seq<DiffRow>, other: seq<DiffRow>, diff: seq<DiffLine>, context: int, i: nat)
    requires i <= |diff| && Reads(rows, diff, context, i) && Reads(other, diff, context, i)
    ensures rows == other
    decreases |rows|
  {
    if rows != [] && other != [] {
      var step := match rows[0] { case Line(_) => 1 case Skipped(n) => n };
      ReadingIsUnique(rows[1..], other[1..], diff, context, i + step);
    }
  }

  function Flushed(out: seq<DiffRow>, skipped: nat): seq<DiffRow> {
    if skipped == 0 then out else out + [Skipped(skipped)]
  }

  lemma {:induction false} FoldOneRow(out: seq<DiffRow>, diff: seq<DiffLine>, near: seq<bool>, i: nat, skipped: nat)
    requires |near| == |diff| && i < |diff|
    ensures out + Fold(diff, near, i, skipped) ==
            if near[i] then Flushed(out, skipped) + [Line(diff[i])] + Fold(diff, near, i + 1, 0)
            else out + Fold(diff, near, i + 1, skipped + 1)
  {
  }

  /** `folded`: mark what is near a change, then fold the rest into counts. */
  method Folded(diff: seq<DiffLine>, context: int := 3) returns (out: seq<DiffRow>)
    ensures Reads(out, diff, context, 0)
  {
    var near := MarkNear(diff, context);
    out := [];
    var skipped := 0;
    var i := 0;
    ghost var all := Fold(diff, near, 0, 0);
    while i < |diff|
      invariant i <= |diff|
      invariant all == out + Fold(diff, near, i, skipped)
    {
      FoldOneRow(out, diff, near, i, skipped);
      if near[i] {
        if skipped != 0 {
          out := out + [Skipped(skipped)];
        }
        skipped := 0;
        out := out + [Line(diff[i])];
      } else {
        skipped := skipped + 1;
      }
      i := i + 1;
    }
    if skipped != 0 {
      out := out + [Skipped(skipped)];
    }
    assert out == all;
    FoldReads(diff, near, context, 0, 0);
  }

  method MarkNear(diff: seq<DiffLine>, context: int) returns (marks: seq<bool>)
    ensures |marks| == |diff|
    ensures forall j :: 0 <= j < |diff| ==> (marks[j] <==> Near(diff, context, j))
  {
    var near := new bool[|diff|](_ => false);
    for i := 0 to |diff|
      invariant forall j :: 0 <= j < |diff| ==>
                  (near[j] <==> exists c :: 0 <= c < i && diff[c].kind != Same && c - context <= j <= c + context)
    {
      if diff[i].kind != Same {
        ghost var before := near[..];
        var j := if i - context < 0 then 0 else i - context;
        var last := if |diff| - 1 < i + context then |diff| - 1 else i + context;
        ghost var first := j;
        while j <= last
          invariant first <= j && (j <= last + 1 || j == first)
          invariant forall p :: 0 <= p < |diff| ==> (near[p] <==> before[p] || (first <= p < j && p <= last))
        {
          near[j] := true;
          j := j + 1;
        }
        forall p | 0 <= p < |diff|
          ensures near[p] <==> exists c :: 0 <= c < i + 1 && diff[c].kind != Same && c - context <= p <= c + context
        {
          assert before[p] <==> exists c :: 0 <= c < i && diff[c].kind != Same && c - context <= p <= c + context;
        }
      }
    }
    marks := near[..];
  }
}
