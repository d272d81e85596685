/** A model of the Elements library's one-dimensional grid (Grid1d), as far as
    the daylight charts use it: a level of a grid is the list of its cells, left
    to right, and splitting cuts the one cell that strictly contains the position.
    A chart axis is two levels deep: major cells, each holding its minor cells. */
module Grids {
  import opened Geometry

  /** A major cell and the minor cells it is divided into. */
  datatype Cell = Cell(domain: Domain1d, cells: seq<Domain1d>)

  predicate StrictlyIncreasing(b: seq<real>)
  {
    forall i, j :: 0 <= i < j < |b| ==> b[i] < b[j]
  }

  /** The cells between consecutive boundaries. */
  function Consecutive(b: seq<real>): seq<Domain1d>
  {
    if |b| < 2 then [] else seq(|b| - 1, i requires 0 <= i < |b| - 1 => Domain1d(b[i], b[i + 1]))
  }

  predicate StrictlyInside(p: real, d: Domain1d)
  {
    d.min < p < d.max
  }

  /** Grid1d.SplitAtPosition on one level: the cell that strictly contains p is
      cut in two at p; a position on a cell edge or outside changes nothing. */
  function SplitAtPosition(cells: seq<Domain1d>, p: real): seq<Domain1d>
  {
    if cells == [] then []
    else if StrictlyInside(p, cells[0]) then [Domain1d(cells[0].min, p), Domain1d(p, cells[0].max)] + cells[1..]
    else [cells[0]] + SplitAtPosition(cells[1..], p)
  }

  /** Grid1d.SplitAtPositions: split at each position in turn. */
  function SplitAtPositions(cells: seq<Domain1d>, ps: seq<real>): seq<Domain1d>
    decreases |ps|
  {
    if ps == [] then cells else SplitAtPositions(SplitAtPosition(cells, ps[0]), ps[1..])
  }

  /** Grid1d.SplitAtParameter on a cell that is not yet split: t = 0.5 halves it. */
  function SplitAtParameter(d: Domain1d, t: real): seq<Domain1d>
  {
    SplitAtPosition([d], d.min + t * (d.max - d.min))
  }

  lemma {:induction false} ConsecutiveCons(b: seq<real>)
    requires |b| >= 2
    ensures Consecutive(b) == [Domain1d(b[0], b[1])] + Consecutive(b[1..])
  {
    var c, r := Consecutive(b), [Domain1d(b[0], b[1])] + Consecutive(b[1..]);
    assert |c| == |r|;
    forall i | 0 <= i < |c| ensures c[i] == r[i] {
      if i > 0 {
        assert r[i] == Consecutive(b[1..])[i - 1];
      }
    }
  }

  /** A position that no cell strictly contains leaves the grid unchanged. */
  lemma {:induction false} SplitOutsideIsNoOp(cells: seq<Domain1d>, p: real)
    requires forall i :: 0 <= i < |cells| ==> !StrictlyInside(p, cells[i])
    ensures SplitAtPosition(cells, p) == cells
  {
    if cells != [] {
      SplitOutsideIsNoOp(cells[1..], p);
    }
  }

  /** Splitting at an existing boundary changes nothing. */
  lemma {:induction false} SplitAtBoundaryIsNoOp(b: seq<real>, k: nat)
    requires StrictlyIncreasing(b) && k < |b|
    ensures SplitAtPosition(Consecutive(b), b[k]) == Consecutive(b)
  {
    var c := Consecutive(b);
    forall i | 0 <= i < |c| ensures !StrictlyInside(b[k], c[i]) {
      assert c[i] == Domain1d(b[i], b[i + 1]);
      if i < k {
        assert b[i + 1] <= b[k];
      } else {
        assert b[k] <= b[i];
      }
    }
    SplitOutsideIsNoOp(c, b[k]);
  }

  /** A position strictly inside the last cell cuts that cell and no other. */
  lemma {:induction false} SplitInLastCell(b: seq<real>, p: real)
    requires |b| >= 2 && StrictlyIncreasing(b)
    requires b[|b| - 2] < p < b[|b| - 1]
    ensures SplitAtPosition(Consecutive(b), p) == Consecutive(b[..|b| - 1] + [p, b[|b| - 1]])
  {
    var n := |b|;
    if n == 2 {
      SplitInOnlyCell(b, p);
    } else {
      var tail := b[1..];
      var c := Consecutive(b);
      LastCellOfTail(b, p);
      SplitInLastCell(tail, p);
      assert SplitAtPosition(c, p) == [c[0]] + SplitAtPosition(c[1..], p);
    }
  }

  lemma {:induction false} SplitInOnlyCell(b: seq<real>, p: real)
    requires |b| == 2 && b[0] < p < b[1]
    ensures SplitAtPosition(Consecutive(b), p) == Consecutive(b[..1] + [p, b[1]])
  {
    assert Consecutive(b) == [Domain1d(b[0], b[1])];
    assert b[..1] + [p, b[1]] == [b[0], p, b[1]];
    assert Consecutive([b[0], p, b[1]]) == [Domain1d(b[0], p), Domain1d(p, b[1])];
  }

  /** For three or more boundaries, the first cell does not contain a position
      in the last cell, and the rest of the grid, before and after inserting
      the position, is the grid of the boundaries after the first. */
  lemma {:induction false} LastCellOfTail(b: seq<real>, p: real)
    requires |b| >= 3 && StrictlyIncreasing(b)
    requires b[|b| - 2] < p < b[|b| - 1]
    ensures var tail := b[1..];
      && |tail| >= 2 && StrictlyIncreasing(tail) && tail[|tail| - 2] < p < tail[|tail| - 1]
      && Consecutive(b) != [] && !StrictlyInside(p, Consecutive(b)[0])
      && Consecutive(b)[1..] == Consecutive(tail)
      && Consecutive(b[..|b| - 1] + [p, b[|b| - 1]])
         == [Consecutive(b)[0]] + Consecutive(tail[..|tail| - 1] + [p, tail[|tail| - 1]])
  {
    var n := |b|;
    var last := b[n - 1];
    var tail := b[1..];
    IncreasingTail(b);
    assert tail[|tail| - 2] == b[n - 2] && tail[|tail| - 1] == last;
    var c := Consecutive(b);
    ConsecutiveCons(b);
    assert c[0] == Domain1d(b[0], b[1]) && c[1..] == Consecutive(tail);
    assert b[1] <= b[n - 2];
    var rest := tail[..n - 2] + [p, last];
    var whole := b[..n - 1] + [p, last];
    assert whole[0] == b[0] && whole[1] == b[1] && whole[1..] == rest;
    ConsecutiveCons(whole);
  }

  lemma {:induction false} IncreasingTail(b: seq<real>)
    requires |b| >= 1 && StrictlyIncreasing(b)
    ensures StrictlyIncreasing(b[1..])
  {
    forall i, j | 0 <= i < j < |b| - 1 ensures b[1..][i] < b[1..][j] {
      assert b[1..][i] == b[i + 1] && b[1..][j] == b[j + 1];
    }
  }

  /** Increasing positions that all fall inside the last cell cut it into the
      cells between those positions. */
  lemma {:induction false} SplitAllInLastCell(b: seq<real>, ps: seq<real>)
    requires |b| >= 2 && StrictlyIncreasing(b) && StrictlyIncreasing(ps)
    requires forall q :: q in ps ==> b[|b| - 2] < q < b[|b| - 1]
    ensures SplitAtPositions(Consecutive(b), ps) == Consecutive(b[..|b| - 1] + ps + [b[|b| - 1]])
    decreases |ps|
  {
    var n := |b|;
    var last := b[n - 1];
    if ps == [] {
      LastSplit(b);
    } else {
      var b' := b[..n - 1] + [ps[0], last];
      NextLastCell(b, ps);
      SplitAllInLastCell(b', ps[1..]);
      ShiftFirstBeforeLast(b[..n - 1], ps, last);
    }
  }

  /** One step of SplitAllInLastCell: the first position cuts the last cell,
      and the rest of the positions fall inside the new last cell. */
  lemma {:induction false} NextLastCell(b: seq<real>, ps: seq<real>)
    requires |b| >= 2 && StrictlyIncreasing(b) && StrictlyIncreasing(ps) && ps != []
    requires forall q :: q in ps ==> b[|b| - 2] < q < b[|b| - 1]
    ensures var b' := b[..|b| - 1] + [ps[0], b[|b| - 1]];
      && |b'| >= 2 && StrictlyIncreasing(b') && StrictlyIncreasing(ps[1..])
      && (forall q :: q in ps[1..] ==> b'[|b'| - 2] < q < b'[|b'| - 1])
      && SplitAtPosition(Consecutive(b), ps[0]) == Consecutive(b')
  {
    var n := |b|;
    var b' := b[..n - 1] + [ps[0], b[n - 1]];
    assert ps[0] in ps;
    SplitInLastCell(b, ps[0]);
    InsertBeforeLast(b, ps[0]);
    IncreasingTail(ps);
    assert b'[|b'| - 2] == ps[0] && b'[|b'| - 1] == b[n - 1];
    forall q | q in ps[1..] ensures ps[0] < q < b[n - 1] {
      var k :| 0 <= k < |ps[1..]| && ps[1..][k] == q;
      assert ps[1..][k] == ps[k + 1];
      assert ps[0] < ps[k + 1];
      assert q in ps;
    }
  }

  lemma {:induction false} LastSplit<T>(b: seq<T>)
    requires |b| >= 1
    ensures b[..|b| - 1] + [] + [b[|b| - 1]] == b
  {
  }

  /** Moving the first of the inserted elements in front of the rest. */
  lemma {:induction false} ShiftFirstBeforeLast<T>(a: seq<T>, ps: seq<T>, x: T)
    requires ps != []
    ensures (a + [ps[0], x])[..|a| + 1] + ps[1..] + [(a + [ps[0], x])[|a| + 1]] == a + ps + [x]
  {
    var w := a + [ps[0], x];
    assert w[..|a| + 1] == a + [ps[0]];
    assert [ps[0]] + ps[1..] == ps;
  }

  /** A position strictly inside the last cell keeps the boundaries
      increasing when inserted before the last boundary. */
  lemma {:induction false} InsertBeforeLast(b: seq<real>, p: real)
    requires |b| >= 2 && StrictlyIncreasing(b)
    requires b[|b| - 2] < p < b[|b| - 1]
    ensures StrictlyIncreasing(b[..|b| - 1] + [p, b[|b| - 1]])
  {
    var n := |b|;
    var b' := b[..n - 1] + [p, b[n - 1]];
    assert |b'| == n + 1;
    assert forall k :: 0 <= k < n - 1 ==> b'[k] == b[k];
    assert b'[n - 1] == p && b'[n] == b[n - 1];
    forall i, j | 0 <= i < j < |b'| ensures b'[i] < b'[j] {
      if j < n - 1 {
        assert b'[i] == b[i] && b'[j] == b[j];
      } else if i < n - 1 {
        assert b'[i] == b[i];
        assert b[i] <= b[n - 2];
      }
    }
  }

  lemma {:induction false} SplitAtPositionsAppend(cells: seq<Domain1d>, xs: seq<real>, ys: seq<real>)
    ensures SplitAtPositions(cells, xs + ys) == SplitAtPositions(SplitAtPositions(cells, xs), ys)
    decreases |xs|
  {
    if xs != [] {
      assert (xs + ys)[0] == xs[0] && (xs + ys)[1..] == xs[1..] + ys;
      SplitAtPositionsAppend(SplitAtPosition(cells, xs[0]), xs[1..], ys);
    } else {
      assert xs + ys == ys;
    }
  }

  /** A single cell split at increasing interior positions becomes the cells
      between its ends and those positions. */
  lemma {:induction false} SplitCellAtInteriorPositions(lo: real, hi: real, ps: seq<real>)
    requires lo < hi && StrictlyIncreasing(ps)
    requires forall q :: q in ps ==> lo < q < hi
    ensures SplitAtPositions([Domain1d(lo, hi)], ps) == Consecutive([lo] + ps + [hi])
  {
    assert Consecutive([lo, hi]) == [Domain1d(lo, hi)];
    SplitAllInLastCell([lo, hi], ps);
    assert [lo, hi][..1] == [lo];
  }

  /** A grid spanning the first to the last of increasing boundaries, split at
      all of them (ends included), has exactly the cells between consecutive
      boundaries. */
  lemma {:induction false} GridFromBoundaries(b: seq<real>)
    requires |b| >= 2 && StrictlyIncreasing(b)
    ensures SplitAtPositions([Domain1d(b[0], b[|b| - 1])], b) == Consecutive(b)
  {
    var n, first, last := |b|, b[0], b[|b| - 1];
    var mids := b[1..n - 1];
    var c := [Domain1d(first, last)];
    InteriorBoundaries(b, mids);
    assert c == Consecutive([first, last]);
    SplitAtPositionsAppend(c, [first] + mids, [last]);
    SplitAtPositionsAppend(c, [first], mids);
    SplitAtBoundaryIsNoOp([first, last], 0);
    assert SplitAtPositions(c, [first]) == c;
    SplitCellAtInteriorPositions(first, last, mids);
    SplitAtBoundaryIsNoOp(b, n - 1);
  }

  /** The boundaries between the first and the last increase and lie
      strictly between them. */
  lemma {:induction false} InteriorBoundaries(b: seq<real>, mids: seq<real>)
    requires |b| >= 2 && StrictlyIncreasing(b) && mids == b[1..|b| - 1]
    ensures b == [b[0]] + mids + [b[|b| - 1]]
    ensures StrictlyIncreasing(mids)
    ensures forall q :: q in mids ==> b[0] < q < b[|b| - 1]
  {
    forall i, j | 0 <= i < j < |mids| ensures mids[i] < mids[j] {
      assert mids[i] == b[i + 1] && mids[j] == b[j + 1];
    }
    forall q | q in mids ensures b[0] < q < b[|b| - 1] {
      var k :| 0 <= k < |mids| && mids[k] == q;
      assert mids[k] == b[k + 1];
    }
  }
}
