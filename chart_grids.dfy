/** The chart partitions of a daylight diagram (ZR8127Diagram.cs): the fixed
    section-angle grid, the plan-angle grid of one vantage point, the interval
    overlap test, the profile curves and the daylight-boundary multipliers. */
module ChartGrids {
  import opened Wrappers
  import opened Sequences
  import opened Geometry
  import opened Grids
  import opened VantagePoints

  // ---------------------------------------------------------------------------
  // Section grid

  /** base, base + step, ..., base + step * (count - 1), then top. */
  function Ladder(base: int, step: int, count: nat, top: int): (b: seq<real>)
    ensures |b| == count + 1 && b[count] == top as real
    ensures forall k :: 0 <= k < count ==> b[k] == (base + step * k) as real
  {
    seq(count, k => (base + step * k) as real) + [top as real]
  }

  lemma {:induction false} MulStrictlyIncreasing(step: int, i: int, j: int)
    requires step > 0 && i < j
    ensures step * i < step * j
    decreases j - i
  {
    if i + 1 < j {
      MulStrictlyIncreasing(step, i, j - 1);
    }
    assert step * j == step * (j - 1) + step;
  }

  lemma {:induction false} LadderIncreasing(base: int, step: int, count: nat, top: int)
    requires step > 0 && count >= 1 && base + step * (count - 1) < top
    ensures StrictlyIncreasing(Ladder(base, step, count, top))
  {
    var b := Ladder(base, step, count, top);
    forall i, j | 0 <= i < j < |b| ensures b[i] < b[j] {
      if j < count {
        MulStrictlyIncreasing(step, i, j);
      } else if i < count - 1 {
        MulStrictlyIncreasing(step, i, count - 1);
      }
    }
  }

  /** Splitting a ladder grid at its next rung adds that rung. */
  lemma {:induction false} LadderStep(base: int, step: int, count: nat, top: int)
    requires step > 0 && count >= 1 && base + step * count < top
    ensures SplitAtPosition(Consecutive(Ladder(base, step, count, top)), (base + step * count) as real)
         == Consecutive(Ladder(base, step, count + 1, top))
  {
    var b := Ladder(base, step, count, top);
    var p := (base + step * count) as real;
    LadderIncreasing(base, step, count, top);
    assert b[count - 1] < p by {
      assert step * count == step * (count - 1) + step;
    }
    SplitInLastCell(b, p);
    assert b[..count] + [p, top as real] == Ladder(base, step, count + 1, top);
  }

  /** A cell halved by SplitAtParameter(0.5). */
  function Halve(d: Domain1d): Cell
  {
    Cell(d, SplitAtParameter(d, 0.5))
  }

  lemma {:induction false} HalveValue(lo: real, hi: real)
    requires lo < hi
    ensures Halve(Domain1d(lo, hi)).cells == [Domain1d(lo, (lo + hi) / 2.0), Domain1d((lo + hi) / 2.0, hi)]
  {
  }

  /** The section grid as drawn on the chart: seven 10 degree bands from 0 to
      70 and ten 2 degree bands from 70 to 90, each cut in half. */
  predicate IsSectionGrid(below: seq<Cell>, above: seq<Cell>)
  {
    && |below| == 7
    && |above| == 10
    && (forall i :: 0 <= i < 7 ==> below[i] == Cell(
          Domain1d((10 * i) as real, (10 * i + 10) as real),
          [Domain1d((10 * i) as real, (10 * i + 5) as real), Domain1d((10 * i + 5) as real, (10 * i + 10) as real)]))
    && (forall i :: 0 <= i < 10 ==> above[i] == Cell(
          Domain1d((70 + 2 * i) as real, (72 + 2 * i) as real),
          [Domain1d((70 + 2 * i) as real, (71 + 2 * i) as real), Domain1d((71 + 2 * i) as real, (72 + 2 * i) as real)]))
  }

  /** The lower bands, each halved, are the seven 10 degree bands of the
      section grid. */
  lemma {:induction false} HalvedLowerBands(lower: seq<Domain1d>, below: seq<Cell>)
    requires lower == Consecutive(Ladder(0, 10, 7, 70))
    requires |below| == |lower| && forall k :: 0 <= k < |lower| ==> below[k] == Halve(lower[k])
    ensures |below| == 7
    ensures forall i :: 0 <= i < 7 ==> below[i] == Cell(
          Domain1d((10 * i) as real, (10 * i + 10) as real),
          [Domain1d((10 * i) as real, (10 * i + 5) as real), Domain1d((10 * i + 5) as real, (10 * i + 10) as real)])
  {
    var b := Ladder(0, 10, 7, 70);
    forall i | 0 <= i < 7
      ensures below[i] == Cell(
          Domain1d((10 * i) as real, (10 * i + 10) as real),
          [Domain1d((10 * i) as real, (10 * i + 5) as real), Domain1d((10 * i + 5) as real, (10 * i + 10) as real)])
    {
      assert lower[i] == Domain1d(b[i], b[i + 1]);
      assert b[i + 1] == (10 * i + 10) as real;
      HalveValue((10 * i) as real, (10 * i + 10) as real);
    }
  }

  /** The upper bands, each halved, are the ten 2 degree bands of the section
      grid. */
  lemma {:induction false} HalvedUpperBands(upper: seq<Domain1d>, above: seq<Cell>)
    requires upper == Consecutive(Ladder(70, 2, 10, 90))
    requires |above| == |upper| && forall k :: 0 <= k < |upper| ==> above[k] == Halve(upper[k])
    ensures |above| == 10
    ensures forall i :: 0 <= i < 10 ==> above[i] == Cell(
          Domain1d((70 + 2 * i) as real, (72 + 2 * i) as real),
          [Domain1d((70 + 2 * i) as real, (71 + 2 * i) as real), Domain1d((71 + 2 * i) as real, (72 + 2 * i) as real)])
  {
    var b := Ladder(70, 2, 10, 90);
    forall i | 0 <= i < 10
      ensures above[i] == Cell(
          Domain1d((70 + 2 * i) as real, (72 + 2 * i) as real),
          [Domain1d((70 + 2 * i) as real, (71 + 2 * i) as real), Domain1d((71 + 2 * i) as real, (72 + 2 * i) as real)])
    {
      assert upper[i] == Domain1d(b[i], b[i + 1]);
      assert b[i + 1] == (72 + 2 * i) as real;
      HalveValue((70 + 2 * i) as real, (72 + 2 * i) as real);
    }
  }

  /** The first split of the upper part falls on its lower end and changes
      nothing; every later one adds the next 2 degree rung. */
  lemma {:induction false} UpperStep(m: nat, rungs: nat)
    requires m < 10 && rungs == if m == 0 then 1 else m
    ensures SplitAtPosition(Consecutive(Ladder(70, 2, rungs, 90)), (70 + 2 * m) as real)
         == Consecutive(Ladder(70, 2, m + 1, 90))
  {
    if m == 0 {
      SplitAtBoundaryIsNoOp(Ladder(70, 2, 1, 90), 0);
    } else {
      LadderStep(70, 2, m, 90);
    }
  }

  /** SplitAtParameter(0.5) on every cell of a level. */
  method HalveAll(cells: seq<Domain1d>) returns (halved: seq<Cell>)
    ensures |halved| == |cells|
    ensures forall k :: 0 <= k < |cells| ==> halved[k] == Halve(cells[k])
  {
    halved := [];
    for i := 0 to |cells|
      invariant |halved| == i
      invariant forall k :: 0 <= k < i ==> halved[k] == Halve(cells[k])
    {
      halved := halved + [Halve(cells[i])];
    }
  }

  /** makeSectionGrid: split [0, 90] at 70, split the lower part every 10
      degrees and the upper part every 2 degrees, then halve every band. */
  method MakeSectionGrid() returns (below: seq<Cell>, above: seq<Cell>)
    ensures IsSectionGrid(below, above)
  {
    var halves := SplitAtPosition([Domain1d(0.0, 90.0)], 70.0);
    assert halves == [Domain1d(0.0, 70.0), Domain1d(70.0, 90.0)];
    var lower := [halves[0]];
    var upper := [halves[1]];
    assert lower == Consecutive(Ladder(0, 10, 1, 70));
    assert upper == Consecutive(Ladder(70, 2, 1, 90));

    var cur := 10;
    ghost var n := 1;
    while (cur as real) < halves[0].max
      invariant 1 <= n <= 7 && cur == 10 * n
      invariant lower == Consecutive(Ladder(0, 10, n, 70))
    {
      LadderStep(0, 10, n, 70);
      lower := SplitAtPosition(lower, cur as real);
      cur := cur + 10;
      n := n + 1;
    }

    ghost var m, rungs := 0, 1;
    while cur < 90
      invariant 0 <= m <= 10 && cur == 70 + 2 * m
      invariant rungs == if m == 0 then 1 else m
      invariant upper == Consecutive(Ladder(70, 2, rungs, 90))
    {
      UpperStep(m, rungs);
      upper := SplitAtPosition(upper, cur as real);
      cur := cur + 2;
      m, rungs := m + 1, m + 1;
    }

    below := HalveAll(lower);
    above := HalveAll(upper);
    HalvedLowerBands(lower, below);
    HalvedUpperBands(upper, above);
  }

  /** All minor cells of a level, left to right. */
  function Flatten(cells: seq<Cell>): seq<Domain1d>
  {
    if cells == [] then [] else cells[0].cells + Flatten(cells[1..])
  }

  lemma {:induction false} FlattenAppend(xs: seq<Cell>, ys: seq<Cell>)
    ensures Flatten(xs + ys) == Flatten(xs) + Flatten(ys)
    decreases |xs|
  {
    if xs == [] {
      assert xs + ys == ys;
    } else {
      assert (xs + ys)[1..] == xs[1..] + ys;
      FlattenAppend(xs[1..], ys);
    }
  }

  /** Cells halved at the boundaries b[2j + 1] flatten to the cells between
      consecutive boundaries. */
  lemma {:induction false} FlattenHalves(cells: seq<Cell>, b: seq<real>)
    requires |b| == 2 * |cells| + 1
    requires forall j :: 0 <= j < |cells| ==>
      cells[j].cells == [Domain1d(b[2 * j], b[2 * j + 1]), Domain1d(b[2 * j + 1], b[2 * j + 2])]
    ensures Flatten(cells) == Consecutive(b)
    decreases |cells|
  {
    if cells != [] {
      var rest := b[2..];
      forall j | 0 <= j < |cells| - 1
        ensures cells[1..][j].cells == [Domain1d(rest[2 * j], rest[2 * j + 1]), Domain1d(rest[2 * j + 1], rest[2 * j + 2])]
      {
        assert cells[1..][j] == cells[j + 1];
        assert rest[2 * j] == b[2 * (j + 1)];
      }
      FlattenHalves(cells[1..], rest);
      ConsecutiveCons(b);
      ConsecutiveCons(b[1..]);
      assert b[1..][1..] == rest;
    }
  }

  /** The section boundaries: 0, 5, ..., 70, then 71, 72, ..., 90. */
  function SectionBoundaries(): (b: seq<real>)
    ensures |b| == 35
  {
    seq(35, k => if k <= 14 then (5 * k) as real else (k + 56) as real)
  }

  /** The minor section cells run between the boundaries 0, 5, ..., 70, 71,
      ..., 90, which strictly increase from 0 to 90 and include the 70 degree
      cutoff. */
  lemma {:induction false} SectionGridBoundaries(below: seq<Cell>, above: seq<Cell>)
    requires IsSectionGrid(below, above)
    ensures Flatten(below + above) == Consecutive(SectionBoundaries())
    ensures StrictlyIncreasing(SectionBoundaries())
    ensures SectionBoundaries()[0] == 0.0 && SectionBoundaries()[14] == 70.0 && SectionBoundaries()[34] == 90.0
    ensures forall k :: 0 <= k < 35 ==> 0.0 <= SectionBoundaries()[k] <= 90.0
  {
    var b := SectionBoundaries();
    var cells := below + above;
    forall j | 0 <= j < |cells|
      ensures cells[j].cells == [Domain1d(b[2 * j], b[2 * j + 1]), Domain1d(b[2 * j + 1], b[2 * j + 2])]
    {
      if j < 7 {
        assert cells[j] == below[j];
      } else {
        assert cells[j] == above[j - 7];
      }
    }
    FlattenHalves(cells, b);
  }

  // ---------------------------------------------------------------------------
  // Plan grid

  /** The plan angles of the 101 offsets -250 ft, -245 ft, ..., 250 ft along
      the street, for a vantage point whose centerline offset is `offset`;
      `planAngle` is VantagePoint.GetPlanAngle. */
  function PlanSamples(offset: real, planAngle: (real, real) -> real): (s: seq<real>)
    ensures |s| == 101
  {
    seq(101, i => planAngle(offset, FeetToMeters(-VantageDistanceInFt + 5.0 * i as real)))
  }

  /** The plan grid of a vantage point: 20 major cells between every fifth
      sample, each cut at the four samples inside it. */
  predicate IsPlanGrid(grid: seq<Cell>, s: seq<real>)
    requires |s| == 101
  {
    && |grid| == 20
    && forall j :: 0 <= j < 20 ==> IsPlanCell(grid[j], s, j)
  }

  /** Major plan cell j: between samples 5j and 5j + 5, cut at the samples
      between them. */
  predicate IsPlanCell(c: Cell, s: seq<real>, j: int)
    requires |s| == 101 && 0 <= j < 20
  {
    c.domain == Domain1d(s[5 * j], s[5 * j + 5]) && c.cells == Consecutive(s[5 * j .. 5 * j + 6])
  }

  lemma {:induction false} IncreasingPart(s: seq<real>, lo: int, hi: int)
    requires StrictlyIncreasing(s) && 0 <= lo <= hi <= |s|
    ensures StrictlyIncreasing(s[lo..hi])
  {
    forall i, j | 0 <= i < j < hi - lo ensures s[lo..hi][i] < s[lo..hi][j] {
      assert s[lo..hi][i] == s[lo + i] && s[lo..hi][j] == s[lo + j];
    }
  }

  /** The sampling loop of makePlanGrid: every fifth plan-angle sample is a
      major angle, the four after it are its minor angles. */
  method SamplePlanAngles(offset: real, planAngle: (real, real) -> real) returns (majors: seq<real>, minors: seq<seq<real>>)
    ensures |majors| == 21 && |minors| == 21
    ensures forall m :: 0 <= m < 21 ==> majors[m] == PlanSamples(offset, planAngle)[5 * m]
    ensures forall m :: 0 <= m < 20 ==> minors[m] == PlanSamples(offset, planAngle)[5 * m + 1 .. 5 * m + 5]
    ensures minors[20] == []
  {
    ghost var s := PlanSamples(offset, planAngle);
    majors := [];
    minors := [];
    var i := 0;
    var dFt := -VantageDistanceInFt;
    while dFt <= VantageDistanceInFt
      invariant 0 <= i <= 101 && dFt == -VantageDistanceInFt + 5.0 * i as real
      invariant SampledUpTo(s, i, majors, minors)
      decreases 101 - i
    {
      var isMajor := i % 5 == 0;
      var d := FeetToMeters(dFt);
      var angle := planAngle(offset, d);
      assert angle == s[i];
      if isMajor {
        MajorSample(s, i, majors, minors);
        majors := majors + [angle];
        minors := minors + [[]];
      } else {
        var last := |minors| - 1;
        MinorSample(s, i, majors, minors);
        minors := minors[..last] + [minors[last] + [angle]];
      }
      i := i + 1;
      dFt := dFt + 5.0;
    }
    SampledAll(s, majors, minors);
  }

  /** The lists built from the first i samples: a major angle for every fifth
      sample, and after each the minor samples that follow it so far. */
  ghost predicate SampledUpTo(s: seq<real>, i: nat, majors: seq<real>, minors: seq<seq<real>>)
  {
    && i <= |s|
    && |majors| == |minors| == (i + 4) / 5
    && (forall m :: 0 <= m < |majors| ==> 5 * m < |s| && majors[m] == s[5 * m])
    && (forall m :: 0 <= m < |minors| - 1 ==> 5 * m + 5 <= i && minors[m] == s[5 * m + 1 .. 5 * m + 5])
    && (i > 0 ==> 5 * (|minors| - 1) + 1 <= i && minors[|minors| - 1] == s[5 * (|minors| - 1) + 1 .. i])
  }

  lemma {:induction false} MajorSample(s: seq<real>, i: nat, majors: seq<real>, minors: seq<seq<real>>)
    requires i < |s| && i % 5 == 0 && SampledUpTo(s, i, majors, minors)
    ensures SampledUpTo(s, i + 1, majors + [s[i]], minors + [[]])
  {
    var n := |minors|;
    assert n == i / 5 && (i + 5) / 5 == n + 1;
    var majors', minors' := majors + [s[i]], minors + [[]];
    forall m | 0 <= m < n + 1 ensures 5 * m < |s| && majors'[m] == s[5 * m] {
      if m == n {
        assert 5 * m == i;
      }
    }
    forall m | 0 <= m < n ensures 5 * m + 5 <= i + 1 && minors'[m] == s[5 * m + 1 .. 5 * m + 5] {
      if m == n - 1 {
        assert 5 * m + 5 == i;
      }
    }
    assert 5 * n == i;
    assert s[i + 1 .. i + 1] == [];
  }

  lemma {:induction false} MinorSample(s: seq<real>, i: nat, majors: seq<real>, minors: seq<seq<real>>)
    requires i < |s| && i % 5 != 0 && SampledUpTo(s, i, majors, minors)
    ensures |minors| >= 1
    ensures var last := |minors| - 1;
      SampledUpTo(s, i + 1, majors, minors[..last] + [minors[last] + [s[i]]])
  {
    var last := |minors| - 1;
    assert (i + 5) / 5 == (i + 4) / 5;
    var minors' := minors[..last] + [minors[last] + [s[i]]];
    assert s[5 * last + 1 .. i + 1] == s[5 * last + 1 .. i] + [s[i]];
    forall m | 0 <= m < last ensures minors'[m] == minors[m] {
    }
  }

  lemma {:induction false} SampledAll(s: seq<real>, majors: seq<real>, minors: seq<seq<real>>)
    requires |s| == 101 && SampledUpTo(s, 101, majors, minors)
    ensures |majors| == 21 && |minors| == 21
    ensures forall m :: 0 <= m < 21 ==> majors[m] == s[5 * m]
    ensures forall m :: 0 <= m < 20 ==> minors[m] == s[5 * m + 1 .. 5 * m + 5]
    ensures minors[20] == []
  {
    assert s[101 .. 101] == [];
  }

  method MakePlanGrid(offset: real, planAngle: (real, real) -> real) returns (grid: seq<Cell>)
    requires StrictlyIncreasing(PlanSamples(offset, planAngle))
    ensures IsPlanGrid(grid, PlanSamples(offset, planAngle))
  {
    ghost var s := PlanSamples(offset, planAngle);
    var majors, minors := SamplePlanAngles(offset, planAngle);
    MajorsIncreasing(s, majors);
    var planDomain := Domain1d(majors[0], majors[|majors| - 1]);
    var top := SplitAtPositions([planDomain], majors);
    GridFromBoundaries(majors);

    grid := SplitMajorCells(top, minors);
    forall j | 0 <= j < 20 ensures IsPlanCell(grid[j], s, j) {
      PlanCellFromSamples(s, majors, minors, j);
    }
  }

  /** The second loop of makePlanGrid: each major cell split at its minor
      angles. */
  method SplitMajorCells(top: seq<Domain1d>, minors: seq<seq<real>>) returns (grid: seq<Cell>)
    requires |top| <= |minors|
    ensures |grid| == |top|
    ensures forall k :: 0 <= k < |top| ==> grid[k] == Cell(top[k], SplitAtPositions([top[k]], minors[k]))
  {
    grid := [];
    for j := 0 to |top|
      invariant |grid| == j
      invariant forall k :: 0 <= k < j ==> grid[k] == Cell(top[k], SplitAtPositions([top[k]], minors[k]))
    {
      var cell := top[j];
      var minorAngles := minors[j];
      grid := grid + [Cell(cell, SplitAtPositions([cell], minorAngles))];
    }
  }

  /** Major cell j of the grid between the major samples, split at its minor
      samples, is plan cell j. */
  lemma {:induction false} PlanCellFromSamples(s: seq<real>, majors: seq<real>, minors: seq<seq<real>>, j: int)
    requires |s| == 101 && StrictlyIncreasing(s) && |majors| == 21 && |minors| == 21 && 0 <= j < 20
    requires forall m :: 0 <= m < 21 ==> majors[m] == s[5 * m]
    requires forall m :: 0 <= m < 20 ==> minors[m] == s[5 * m + 1 .. 5 * m + 5]
    ensures |Consecutive(majors)| == 20
    ensures IsPlanCell(Cell(Consecutive(majors)[j], SplitAtPositions([Consecutive(majors)[j]], minors[j])), s, j)
  {
    MajorsIncreasing(s, majors);
    MinorCellSplit(s, j, Consecutive(majors)[j], minors[j]);
  }

  /** Every fifth sample of an increasing sequence increases. */
  lemma {:induction false} MajorsIncreasing(s: seq<real>, majors: seq<real>)
    requires |s| == 101 && StrictlyIncreasing(s) && |majors| == 21
    requires forall m :: 0 <= m < |majors| ==> majors[m] == s[5 * m]
    ensures StrictlyIncreasing(majors) && |Consecutive(majors)| == 20
    ensures forall j :: 0 <= j < 20 ==> Consecutive(majors)[j] == Domain1d(s[5 * j], s[5 * j + 5])
  {
    forall a, b | 0 <= a < b < |majors| ensures majors[a] < majors[b] {
      assert 5 * a < 5 * b;
    }
  }

  /** A major plan cell split at the four samples inside it. */
  lemma {:induction false} MinorCellSplit(s: seq<real>, j: int, cell: Domain1d, minorAngles: seq<real>)
    requires |s| == 101 && StrictlyIncreasing(s) && 0 <= j < 20
    requires cell == Domain1d(s[5 * j], s[5 * j + 5]) && minorAngles == s[5 * j + 1 .. 5 * j + 5]
    ensures SplitAtPositions([cell], minorAngles) == Consecutive(s[5 * j .. 5 * j + 6])
  {
    CellBetweenSamples(s, 5 * j, cell, minorAngles);
  }

  lemma {:induction false} CellBetweenSamples(s: seq<real>, lo: nat, cell: Domain1d, inner: seq<real>)
    requires lo + 6 <= |s| && StrictlyIncreasing(s)
    requires cell == Domain1d(s[lo], s[lo + 5]) && inner == s[lo + 1 .. lo + 5]
    ensures SplitAtPositions([cell], inner) == Consecutive(s[lo .. lo + 6])
  {
    var b := s[lo .. lo + 6];
    IncreasingPart(s, lo, lo + 6);
    assert b[0] == cell.min && b[5] == cell.max && b[1..5] == inner;
    InteriorBoundaries(b, inner);
    SplitCellAtInteriorPositions(cell.min, cell.max, inner);
  }

  lemma {:induction false} ConsecutiveAt(s: seq<real>, lo: nat, k: nat)
    requires lo + 6 <= |s| && k < 5
    ensures |Consecutive(s[lo .. lo + 6])| == 5
    ensures Consecutive(s[lo .. lo + 6])[k] == Domain1d(s[lo + k], s[lo + k + 1])
  {
    var part := s[lo .. lo + 6];
    assert part[k] == s[lo + k] && part[k + 1] == s[lo + k + 1];
  }

  /** One major plan cell is cut into five minor cells that meet end to end
      and fill it exactly. */
  predicate FilledByFive(c: Cell)
  {
    && |c.cells| == 5
    && c.domain.min < c.domain.max
    && c.cells[0].min == c.domain.min
    && c.cells[4].max == c.domain.max
    && (forall k :: 0 <= k < 4 ==> c.cells[k].max == c.cells[k + 1].min)
    && (forall k :: 0 <= k < 5 ==> c.cells[k].min < c.cells[k].max)
  }

  lemma {:induction false} PlanCellShape(c: Cell, s: seq<real>, j: int)
    requires |s| == 101 && StrictlyIncreasing(s) && 0 <= j < 20 && IsPlanCell(c, s, j)
    ensures FilledByFive(c)
  {
    forall k | 0 <= k < 5 ensures c.cells[k] == Domain1d(s[5 * j + k], s[5 * j + k + 1]) {
      ConsecutiveAt(s, 5 * j, k);
    }
  }

  /** The plan grid is contiguous: its major cells meet end to end, each is
      non-empty and each is filled by five minor cells. */
  lemma {:induction false} PlanGridShape(grid: seq<Cell>, s: seq<real>)
    requires |s| == 101 && StrictlyIncreasing(s) && IsPlanGrid(grid, s)
    ensures forall j :: 0 <= j < 19 ==> grid[j].domain.max == grid[j + 1].domain.min
    ensures forall j :: 0 <= j < 20 ==> FilledByFive(grid[j])
  {
    forall j | 0 <= j < 20 ensures FilledByFive(grid[j]) {
      PlanCellShape(grid[j], s, j);
    }
    forall j | 0 <= j < 19 ensures grid[j].domain.max == grid[j + 1].domain.min {
      assert IsPlanCell(grid[j], s, j) && IsPlanCell(grid[j + 1], s, j + 1);
    }
  }

  // ---------------------------------------------------------------------------
  // Interval overlap

  /** domainsOverlap: closed intervals that touch or cross. */
  predicate DomainsOverlap(d1: Domain1d, d2: Domain1d)
  {
    d1.min <= d2.max && d1.max >= d2.min
  }

  /** For well-formed intervals the test holds exactly when some value lies in
      both, so it is symmetric. */
  lemma {:induction false} DomainsOverlapMeaning(d1: Domain1d, d2: Domain1d)
    requires WellFormed(d1) && WellFormed(d2)
    ensures DomainsOverlap(d1, d2) <==> exists x :: InDomain(x, d1) && InDomain(x, d2)
    ensures DomainsOverlap(d1, d2) == DomainsOverlap(d2, d1)
  {
    if DomainsOverlap(d1, d2) {
      var x := if d1.min < d2.min then d2.min else d1.min;
      assert InDomain(x, d1) && InDomain(x, d2);
    }
  }

  // ---------------------------------------------------------------------------
  // Profile curves

  /** The section angle of the profile sample `dist` feet from the far lot
      line: 72 degrees, rising one degree every 5 ft. */
  function ProfileSectionAngle(dist: int): real
  {
    dist as real / 5.0 + 72.0
  }

  /** The plan angle of the profile sample `dist` feet beyond the centerline
      offset, seen from the vantage distance. */
  function ProfilePlanAngle(offset: real, planAngle: (real, real) -> real, dist: int): real
  {
    planAngle(offset + FeetToMeters(dist as real), VantageDistance)
  }

  /** The 91 samples of one side of the profile, in order of distance; `sign`
      is -1 for the left side and 1 for the right. */
  function ProfileSide(offset: real, planAngle: (real, real) -> real, sign: real): (c: seq<Vec2>)
    ensures |c| == 91
  {
    seq(91, k => Vec2(sign * ProfilePlanAngle(offset, planAngle, k), ProfileSectionAngle(k)))
  }

  /** Both candidate profile curves: the left side in order, the right side
      reversed. */
  function ProfileCandidates(offset: real, planAngle: (real, real) -> real): seq<seq<Vec2>>
  {
    [ProfileSide(offset, planAngle, -1.0), Reverse(ProfileSide(offset, planAngle, 1.0))]
  }

  /** The plan interval a curve spans, from its first to its last point. */
  function ProfileDomain(c: seq<Vec2>): Domain1d
    requires |c| > 0
  {
    Domain1d(c[0].x, c[|c| - 1].x)
  }

  /** The candidates whose plan interval overlaps the daylight boundaries, in
      order. */
  function KeptProfiles(candidates: seq<seq<Vec2>>, boundaries: Domain1d): seq<seq<Vec2>>
    requires forall i :: 0 <= i < |candidates| ==> |candidates[i]| > 0
  {
    if candidates == [] then []
    else
      (if DomainsOverlap(ProfileDomain(candidates[0]), boundaries) then [candidates[0]] else [])
      + KeptProfiles(candidates[1..], boundaries)
  }

  lemma {:induction false} KeptProfilesMeaning(candidates: seq<seq<Vec2>>, boundaries: Domain1d)
    requires forall i :: 0 <= i < |candidates| ==> |candidates[i]| > 0
    ensures forall c :: c in KeptProfiles(candidates, boundaries) <==>
      c in candidates && DomainsOverlap(ProfileDomain(c), boundaries)
    ensures |KeptProfiles(candidates, boundaries)| <= |candidates|
    decreases |candidates|
  {
    if candidates != [] {
      KeptProfilesMeaning(candidates[1..], boundaries);
      assert candidates == [candidates[0]] + candidates[1..];
    }
  }

  /** When the plan angle at the farthest profile sample is no larger than at
      the nearest one, both candidates run from their smaller plan angle to
      their larger one, so the source's test keeps exactly the candidates
      whose plan range shares an angle with the daylight boundaries. */
  lemma {:induction false} KeptProfilesWhenAngleFalls(offset: real, planAngle: (real, real) -> real, boundaries: Domain1d)
    requires ProfilePlanAngle(offset, planAngle, 90) <= ProfilePlanAngle(offset, planAngle, 0)
    requires WellFormed(boundaries)
    ensures forall c :: c in ProfileCandidates(offset, planAngle) ==> |c| > 0 && WellFormed(ProfileDomain(c))
    ensures forall c :: c in KeptProfiles(ProfileCandidates(offset, planAngle), boundaries) <==>
      c in ProfileCandidates(offset, planAngle) && exists x :: InDomain(x, ProfileDomain(c)) && InDomain(x, boundaries)
  {
    var cs := ProfileCandidates(offset, planAngle);
    ProfileCurvesMirror(offset, planAngle);
    KeptProfilesMeaning(cs, boundaries);
    forall c | c in cs
      ensures |c| > 0 && WellFormed(ProfileDomain(c))
      ensures DomainsOverlap(ProfileDomain(c), boundaries) <==> exists x :: InDomain(x, ProfileDomain(c)) && InDomain(x, boundaries)
    {
      DomainsOverlapMeaning(ProfileDomain(c), boundaries);
    }
  }

  /** When the plan angle grows from the nearest profile sample to the
      farthest, both candidates run backwards, and the same test keeps a
      candidate only when its whole plan range lies inside the daylight
      boundaries: a candidate that only partly overlaps them is dropped. */
  lemma {:induction false} KeptProfilesWhenAngleRises(offset: real, planAngle: (real, real) -> real, boundaries: Domain1d)
    requires ProfilePlanAngle(offset, planAngle, 0) < ProfilePlanAngle(offset, planAngle, 90)
    ensures forall c :: c in ProfileCandidates(offset, planAngle) ==> |c| > 0 && ProfileDomain(c).max < ProfileDomain(c).min
    ensures forall c :: c in KeptProfiles(ProfileCandidates(offset, planAngle), boundaries) <==>
      c in ProfileCandidates(offset, planAngle) && Within(Domain1d(ProfileDomain(c).max, ProfileDomain(c).min), boundaries)
  {
    ProfileCurvesMirror(offset, planAngle);
    KeptProfilesMeaning(ProfileCandidates(offset, planAngle), boundaries);
  }

  /** The two profile curves are mirror images in plan: each has 91 samples
      whose section angles rise from 72 to 90 degrees; the right curve is the
      left one traversed backwards with its plan angles negated. */
  lemma {:induction false} ProfileCurvesMirror(offset: real, planAngle: (real, real) -> real)
    ensures var cs := ProfileCandidates(offset, planAngle);
      && |cs| == 2 && |cs[0]| == 91 && |cs[1]| == 91
      && (forall k :: 0 <= k < 91 ==> cs[0][k].y == k as real / 5.0 + 72.0 && 72.0 <= cs[0][k].y <= 90.0)
      && cs[0][0].y == 72.0 && cs[0][90].y == 90.0
      && (forall k :: 0 <= k < 91 ==> cs[1][k] == Vec2(-cs[0][90 - k].x, cs[0][90 - k].y))
  {
    var cs: seq<seq<Vec2>> := ProfileCandidates(offset, planAngle);
    forall k: int | 0 <= k < 91 ensures cs[1][k] == Vec2(-cs[0][90 - k].x, cs[0][90 - k].y) {
      assert cs[1][k] == ProfileSide(offset, planAngle, 1.0)[90 - k];
    }
  }

  /** The profile-curve half of CalculateProfileCurvesAndBoundingSquares:
      sample both sides, reverse the right one, keep the curves whose plan
      interval overlaps the daylight boundaries. */
  method CalculateProfileCurves(offset: real, planAngle: (real, real) -> real, boundaries: Domain1d)
    returns (profileCurves: seq<seq<Vec2>>)
    ensures profileCurves == KeptProfiles(ProfileCandidates(offset, planAngle), boundaries)
  {
    var left: seq<Vec2> := [];
    var right: seq<Vec2> := [];
    var dist := 0.0;
    var k := 0;
    while dist <= 90.0
      invariant 0 <= k <= 91 && dist == k as real
      invariant left == ProfileSide(offset, planAngle, -1.0)[..k]
      invariant right == ProfileSide(offset, planAngle, 1.0)[..k]
      decreases 91 - k
    {
      var sectionAngle := dist / 5.0 + 72.0;
      var s := offset + FeetToMeters(dist);
      var plan := planAngle(s, VantageDistance);
      left := left + [Vec2(-plan, sectionAngle)];
      right := right + [Vec2(plan, sectionAngle)];
      dist := dist + 1.0;
      k := k + 1;
    }
    assert left == ProfileSide(offset, planAngle, -1.0);
    assert right == ProfileSide(offset, planAngle, 1.0);
    right := Reverse(right);

    var sets := [left, right];
    profileCurves := [];
    for i := 0 to |sets|
      invariant profileCurves + KeptProfiles(sets[i..], boundaries) == KeptProfiles(sets, boundaries)
    {
      assert sets[i..][1..] == sets[i + 1..];
      var profileDomain := Domain1d(sets[i][0].x, sets[i][|sets[i]| - 1].x);
      if DomainsOverlap(profileDomain, boundaries) {
        profileCurves := profileCurves + [sets[i]];
      }
    }
  }

  // ---------------------------------------------------------------------------
  // Daylight-boundary multipliers

  /** The multiplier of one original subcell: a fifth when it ends before the
      daylight boundaries do, otherwise a fifth of the share of it that the
      relevant (clipped) subcell keeps. */
  function SubcellMultiplier(original: Domain1d, relevant: Domain1d, boundaries: Domain1d): real
    requires original.min < original.max
  {
    if original.max < boundaries.max then 1.0 / 5.0
    else (Width(relevant) / Width(original)) / 5.0
  }

  /** Every subcell has positive width. */
  predicate PositiveCells(subs: seq<Domain1d>)
  {
    forall k :: 0 <= k < |subs| ==> subs[k].min < subs[k].max
  }

  /** The multiplier of a major cell: the sum of its subcells' multipliers;
      `relevantOf` gives the relevant subcell the boundary grid holds for an
      original subcell. */
  function CellMultiplier(subs: seq<Domain1d>, relevantOf: Domain1d -> Domain1d, boundaries: Domain1d): real
    requires PositiveCells(subs)
  {
    if subs == [] then 0.0
    else
      var last := subs[|subs| - 1];
      CellMultiplier(subs[..|subs| - 1], relevantOf, boundaries) + SubcellMultiplier(last, relevantOf(last), boundaries)
  }

  /** The multiplier of every major cell, when it overlaps the boundaries. */
  function Multipliers(baseGrid: seq<Cell>, relevantOf: Domain1d -> Domain1d, boundaries: Domain1d): (r: seq<Option<real>>)
    requires forall j :: 0 <= j < |baseGrid| ==> PositiveCells(baseGrid[j].cells)
    ensures |r| == |baseGrid|
  {
    seq(|baseGrid|, j requires 0 <= j < |baseGrid| =>
      if DomainsOverlap(baseGrid[j].domain, boundaries)
      then Some(CellMultiplier(baseGrid[j].cells, relevantOf, boundaries))
      else None)
  }

  /** The bounding-square half of CalculateProfileCurvesAndBoundingSquares: for
      each base cell that overlaps the boundaries, add up its subcells'
      multipliers. */
  method CalculateBoundingMultipliers(baseGrid: seq<Cell>, relevantOf: Domain1d -> Domain1d, boundaries: Domain1d)
    returns (multipliers: seq<Option<real>>)
    requires forall j :: 0 <= j < |baseGrid| ==> PositiveCells(baseGrid[j].cells)
    ensures multipliers == Multipliers(baseGrid, relevantOf, boundaries)
  {
    multipliers := [];
    for j := 0 to |baseGrid|
      invariant |multipliers| == j
      invariant forall i :: 0 <= i < j ==> multipliers[i] == Multipliers(baseGrid, relevantOf, boundaries)[i]
    {
      var baseCell := baseGrid[j];
      if DomainsOverlap(baseCell.domain, boundaries) {
        var relevantCellMultiplier := 0.0;
        for k := 0 to |baseCell.cells|
          invariant relevantCellMultiplier == CellMultiplier(baseCell.cells[..k], relevantOf, boundaries)
        {
          var subcell := baseCell.cells[k];
          TakeLast(baseCell.cells, k);
          relevantCellMultiplier := relevantCellMultiplier + SubcellMultiplier(subcell, relevantOf(subcell), boundaries);
        }
        assert baseCell.cells[..|baseCell.cells|] == baseCell.cells;
        multipliers := multipliers + [Some(relevantCellMultiplier)];
      } else {
        multipliers := multipliers + [None];
      }
    }
  }

  lemma {:induction false} ShareAtMostOne(part: real, whole: real)
    requires 0.0 <= part <= whole && 0.0 < whole
    ensures 0.0 <= part / whole <= 1.0
  {
    assert part / whole * whole == part;
  }

  /** A relevant subcell that lies inside its original gives a multiplier
      between 0 and a fifth. */
  lemma {:induction false} SubcellMultiplierRange(original: Domain1d, relevant: Domain1d, boundaries: Domain1d)
    requires original.min < original.max && Within(relevant, original)
    ensures 0.0 <= SubcellMultiplier(original, relevant, boundaries) <= 1.0 / 5.0
  {
    if original.max >= boundaries.max {
      ShareAtMostOne(Width(relevant), Width(original));
    }
  }

  /** When every relevant subcell lies inside its original, a major cell's
      multiplier lies between 0 and a fifth per subcell. */
  lemma {:induction false} CellMultiplierRange(subs: seq<Domain1d>, relevantOf: Domain1d -> Domain1d, boundaries: Domain1d)
    requires PositiveCells(subs)
    requires forall k :: 0 <= k < |subs| ==> Within(relevantOf(subs[k]), subs[k])
    ensures 0.0 <= CellMultiplier(subs, relevantOf, boundaries) <= |subs| as real / 5.0
    decreases |subs|
  {
    if subs != [] {
      var last := subs[|subs| - 1];
      CellMultiplierRange(subs[..|subs| - 1], relevantOf, boundaries);
      SubcellMultiplierRange(last, relevantOf(last), boundaries);
    }
  }

  /** A major cell whose subcells all end before the boundaries do weighs a
      fifth per subcell, whatever the relevant subcells are. */
  lemma {:induction false} CellMultiplierInside(subs: seq<Domain1d>, relevantOf: Domain1d -> Domain1d, boundaries: Domain1d)
    requires PositiveCells(subs)
    requires forall k :: 0 <= k < |subs| ==> subs[k].max < boundaries.max
    ensures CellMultiplier(subs, relevantOf, boundaries) == |subs| as real / 5.0
    decreases |subs|
  {
    if subs != [] {
      CellMultiplierInside(subs[..|subs| - 1], relevantOf, boundaries);
    }
  }

  /** A plan cell of five subcells that ends before the boundaries do has
      multiplier exactly 1, the value the credit rule of a full square looks
      for. */
  lemma {:induction false} FullPlanCellMultiplier(c: Cell, relevantOf: Domain1d -> Domain1d, boundaries: Domain1d)
    requires FilledByFive(c) && c.domain.max < boundaries.max
    ensures PositiveCells(c.cells)
    ensures CellMultiplier(c.cells, relevantOf, boundaries) == 1.0
  {
    forall k | 0 <= k < 5 ensures c.cells[k].max <= c.domain.max {
      var i := k;
      while i < 4
        invariant k <= i <= 4 && c.cells[k].max <= c.cells[i].max
      {
        i := i + 1;
      }
    }
    CellMultiplierInside(c.cells, relevantOf, boundaries);
  }

  /** The part of a cell inside the daylight boundaries. */
  function Clip(d: Domain1d, boundaries: Domain1d): Domain1d
  {
    Domain1d(if d.min < boundaries.min then boundaries.min else d.min,
             if d.max < boundaries.max then d.max else boundaries.max)
  }

  /** A subcell that reaches past the right boundary, clipped there, weighs a
      fifth of the share of it that lies inside. */
  lemma {:induction false} RightClippedSubcell(original: Domain1d, boundaries: Domain1d)
    requires boundaries.min <= original.min < boundaries.max <= original.max
    ensures SubcellMultiplier(original, Clip(original, boundaries), boundaries)
         == ((boundaries.max - original.min) / (original.max - original.min)) / 5.0
  {
  }

  /** The fifth is given on the subcell's right end alone: a subcell that
      starts left of the boundaries and ends inside them still weighs a full
      fifth, although only half of it is inside. */
  lemma {:induction false} LeftClippedSubcellWeighsAFifth()
    ensures var original, boundaries := Domain1d(0.0, 10.0), Domain1d(5.0, 20.0);
      && SubcellMultiplier(original, Clip(original, boundaries), boundaries) == 1.0 / 5.0
      && (Width(Clip(original, boundaries)) / Width(original)) / 5.0 == 1.0 / 10.0
  {
  }
}
