/** Building an output vantage street from an input one
    (ZR8127VantageElementUtils.cs): the site's segments ordered by distance from
    the street line, the front lot line, and the centerline offset by half the
    street-width lookup. */
module VantageStreets {
  import opened Wrappers
  import opened Geometry
  import opened Lookups
  import opened VantagePoints

  /** An input vantage street: its rough location line (possibly missing),
      width category, street-wall continuity and block depth in feet. */
  datatype VantageStreetInput = VantageStreetInput(
    line: Option<Line>,
    width: StreetWidth,
    streetWallContinuity: bool,
    blockDepthInFeet: real)

  /** An output vantage street (NYCDaylightEvaluationVantageStreet). */
  datatype VantageStreet = VantageStreet(
    score: real,
    centerlineDistance: real,
    frontLotLine: Line,
    centerline: Line,
    streetWallContinuity: bool,
    lotLines: seq<Line>,
    blockDepth: real)

  datatype StreetError =
    | MissingStreetLine   // the input street has no line
    | NoLotLines          // no override and the site has no segments (lotLines[0])

  // ---------------------------------------------------------------------------
  // Ordering the lot lines

  /** The ordering key of a segment: its midpoint's squared distance from the
      street line's midpoint (the same order as the distance itself). */
  function Key(from: Vec3, segment: Line): real
  {
    DistanceSq(from, Midpoint(segment))
  }

  predicate SortedByKey(from: Vec3, s: seq<Line>)
  {
    forall i, j :: 0 <= i < j < |s| ==> Key(from, s[i]) <= Key(from, s[j])
  }

  /** Put a segment before the first one that is not nearer than it. */
  function Insert(from: Vec3, x: Line, sorted: seq<Line>): seq<Line>
  {
    if sorted == [] || Key(from, x) <= Key(from, sorted[0]) then [x] + sorted
    else [sorted[0]] + Insert(from, x, sorted[1..])
  }

  /** OrderBy on the key: a stable sort. */
  function SortByDistance(from: Vec3, s: seq<Line>): seq<Line>
  {
    if s == [] then [] else Insert(from, s[0], SortByDistance(from, s[1..]))
  }

  /** Every segment of `s` is at least `b` from the street line's midpoint. */
  predicate AllAtLeast(from: Vec3, s: seq<Line>, b: real)
  {
    forall i :: 0 <= i < |s| ==> b <= Key(from, s[i])
  }

  lemma {:induction false} InsertPermutes(from: Vec3, x: Line, sorted: seq<Line>)
    ensures multiset(Insert(from, x, sorted)) == multiset(sorted) + multiset{x}
    ensures |Insert(from, x, sorted)| == |sorted| + 1
    decreases |sorted|
  {
    if sorted != [] && Key(from, x) > Key(from, sorted[0]) {
      InsertPermutes(from, x, sorted[1..]);
      assert sorted == [sorted[0]] + sorted[1..];
    }
  }

  lemma {:induction false} InsertAtLeast(from: Vec3, x: Line, sorted: seq<Line>, b: real)
    requires AllAtLeast(from, sorted, b) && b <= Key(from, x)
    ensures AllAtLeast(from, Insert(from, x, sorted), b)
    decreases |sorted|
  {
    if sorted != [] && Key(from, x) > Key(from, sorted[0]) {
      var rest := sorted[1..];
      assert AllAtLeast(from, rest, b) by {
        forall i | 0 <= i < |rest| ensures b <= Key(from, rest[i]) {
          assert rest[i] == sorted[i + 1];
        }
      }
      InsertAtLeast(from, x, rest, b);
      var out := Insert(from, x, sorted);
      forall i | 0 <= i < |out| ensures b <= Key(from, out[i]) {
        if i > 0 {
          assert out[i] == Insert(from, x, rest)[i - 1];
        }
      }
    }
  }

  lemma {:induction false} InsertSorted(from: Vec3, x: Line, sorted: seq<Line>)
    requires SortedByKey(from, sorted)
    ensures SortedByKey(from, Insert(from, x, sorted))
    decreases |sorted|
  {
    InsertPermutes(from, x, sorted);
    if sorted != [] && Key(from, x) > Key(from, sorted[0]) {
      var rest := sorted[1..];
      SortedTail(from, sorted);
      InsertSorted(from, x, rest);
      InsertAtLeast(from, x, rest, Key(from, sorted[0]));
      var r := Insert(from, x, rest);
      assert Insert(from, x, sorted) == [sorted[0]] + r;
      SortedCons(from, sorted[0], r);
    }
  }

  /** The tail of a sorted list is sorted and lies at or beyond its head. */
  lemma {:induction false} SortedTail(from: Vec3, sorted: seq<Line>)
    requires sorted != [] && SortedByKey(from, sorted)
    ensures SortedByKey(from, sorted[1..]) && AllAtLeast(from, sorted[1..], Key(from, sorted[0]))
  {
    var rest := sorted[1..];
    forall i, j | 0 <= i < j < |rest| ensures Key(from, rest[i]) <= Key(from, rest[j]) {
      assert rest[i] == sorted[i + 1] && rest[j] == sorted[j + 1];
    }
    forall i | 0 <= i < |rest| ensures Key(from, sorted[0]) <= Key(from, rest[i]) {
      assert rest[i] == sorted[i + 1];
    }
  }

  /** A head no further than a sorted tail makes a sorted list. */
  lemma {:induction false} SortedCons(from: Vec3, head: Line, rest: seq<Line>)
    requires SortedByKey(from, rest) && AllAtLeast(from, rest, Key(from, head))
    ensures SortedByKey(from, [head] + rest)
  {
    var out := [head] + rest;
    forall i, j | 0 <= i < j < |out| ensures Key(from, out[i]) <= Key(from, out[j]) {
      assert out[j] == rest[j - 1];
      if i > 0 {
        assert out[i] == rest[i - 1];
      }
    }
  }

  /** lotLines are the site's segments, all of them, nearest first. */
  lemma {:induction false} SortByDistanceFacts(from: Vec3, s: seq<Line>)
    ensures SortedByKey(from, SortByDistance(from, s))
    ensures multiset(SortByDistance(from, s)) == multiset(s)
    ensures |SortByDistance(from, s)| == |s|
    decreases |s|
  {
    if s != [] {
      SortByDistanceFacts(from, s[1..]);
      InsertPermutes(from, s[0], SortByDistance(from, s[1..]));
      InsertSorted(from, s[0], SortByDistance(from, s[1..]));
      assert s == [s[0]] + s[1..];
    }
  }

  /** The index of the first segment in site order with the least key. */
  function FirstNearest(from: Vec3, s: seq<Line>): (i: nat)
    requires |s| > 0
    ensures i < |s|
    ensures forall j :: 0 <= j < |s| ==> Key(from, s[i]) <= Key(from, s[j])
    ensures forall j :: 0 <= j < i ==> Key(from, s[j]) > Key(from, s[i])
  {
    if |s| == 1 then 0
    else
      var k := FirstNearest(from, s[1..]) + 1;
      if Key(from, s[0]) <= Key(from, s[k]) then 0 else k
  }

  lemma {:induction false} InsertHead(from: Vec3, x: Line, sorted: seq<Line>)
    requires sorted != []
    ensures Insert(from, x, sorted)[0] == if Key(from, x) <= Key(from, sorted[0]) then x else sorted[0]
  {
  }

  /** Ties keep site order: the first lot line is the first nearest segment. */
  lemma {:induction false} SortByDistanceHead(from: Vec3, s: seq<Line>)
    requires |s| > 0
    ensures SortByDistance(from, s)[0] == s[FirstNearest(from, s)]
    decreases |s|
  {
    SortByDistanceFacts(from, s);
    if |s| > 1 {
      var rest := SortByDistance(from, s[1..]);
      SortByDistanceFacts(from, s[1..]);
      SortByDistanceHead(from, s[1..]);
      InsertHead(from, s[0], rest);
      assert s[FirstNearest(from, s[1..]) + 1] == s[1..][FirstNearest(from, s[1..])];
    }
  }

  // ---------------------------------------------------------------------------
  // CreateVantageStreet

  /** A line translated by `v` (Line.TransformedLine(new Transform(v))). */
  function Moved(l: Line, v: Vec3): (m: Line)
    ensures Sub(m.start, l.start) == v && Sub(m.end, l.end) == v
  {
    Line(Add(l.start, v), Add(l.end, v))
  }

  /** A translated line keeps its direction and so its length. */
  lemma {:induction false} MovedKeepsShape(l: Line, v: Vec3)
    ensures Direction(Moved(l, v)) == Direction(l)
    ensures LineLengthSq(Moved(l, v)) == LineLengthSq(l)
  {
  }

  /** The centerline offset: half the centerline distance of the width. */
  function CenterlineOffset(width: StreetWidth): (offset: real)
    ensures width in CenterlineDistances() && offset == CenterlineDistances()[width] / 2.0
    ensures offset > 0.0
  {
    CenterlineDistancesTotal();
    CenterlineDistanceValues();
    CenterlineDistances()[width] / 2.0
  }

  /** CreateVantageStreet: the output street and its vantage points. The site
      is given by its segments and centroid; `frontLotLineOverride` is the
      override's front lot line when one is given. */
  function CreateVantageStreet(siteSegments: seq<Line>, siteCentroid: Vec3, street: VantageStreetInput,
                               frontLotLineOverride: Option<Line>, unitized: Vec3 -> Vec3)
    : Result<(VantageStreet, seq<VantagePoint>), StreetError>
  {
    if street.line.None? then Failure(MissingStreetLine)
    else
      var midpoint := Midpoint(street.line.value);
      var lotLines := SortByDistance(midpoint, siteSegments);
      if frontLotLineOverride.None? && |lotLines| == 0 then Failure(NoLotLines)
      else
        var frontLotLine := if frontLotLineOverride.Some? then frontLotLineOverride.value else lotLines[0];
        var centerlineOffsetDist := CenterlineOffset(street.width);
        var directionToStreet := Scale(unitized(Sub(Midpoint(frontLotLine), siteCentroid)), centerlineOffsetDist);
        var centerline := Moved(frontLotLine, directionToStreet);
        var output := VantageStreet(0.0, centerlineOffsetDist, frontLotLine, centerline, street.streetWallContinuity,
                                    lotLines, FeetToMeters(street.blockDepthInFeet));
        Success((output, VantagePointsOf(centerline, frontLotLine, unitized)))
  }

  /** The error cases: a missing street line, and no front lot line to take
      (no override and no site segment). */
  lemma {:induction false} CreateVantageStreetErrors(siteSegments: seq<Line>, siteCentroid: Vec3, street: VantageStreetInput,
                                  frontLotLineOverride: Option<Line>, unitized: Vec3 -> Vec3)
    ensures var r := CreateVantageStreet(siteSegments, siteCentroid, street, frontLotLineOverride, unitized);
      && (r == Failure(MissingStreetLine) <==> street.line.None?)
      && (r == Failure(NoLotLines) <==> street.line.Some? && frontLotLineOverride.None? && siteSegments == [])
      && (r.Success? <==> street.line.Some? && (frontLotLineOverride.Some? || siteSegments != []))
  {
    if street.line.Some? {
      SortByDistanceFacts(Midpoint(street.line.value), siteSegments);
    }
  }

  /** The lot lines of a built street are every site segment, nearest the
      street line first; the front lot line is the override's, else the first
      nearest segment in site order. */
  lemma {:induction false} CreateVantageStreetLotLines(siteSegments: seq<Line>, siteCentroid: Vec3, street: VantageStreetInput,
                                    frontLotLineOverride: Option<Line>, unitized: Vec3 -> Vec3)
    requires CreateVantageStreet(siteSegments, siteCentroid, street, frontLotLineOverride, unitized).Success?
    ensures var out := CreateVantageStreet(siteSegments, siteCentroid, street, frontLotLineOverride, unitized).value.0;
      var midpoint := Midpoint(street.line.value);
      && SortedByKey(midpoint, out.lotLines)
      && multiset(out.lotLines) == multiset(siteSegments)
      && (frontLotLineOverride.Some? ==> out.frontLotLine == frontLotLineOverride.value)
      && (frontLotLineOverride.None? ==> out.frontLotLine == siteSegments[FirstNearest(midpoint, siteSegments)])
  {
    var midpoint := Midpoint(street.line.value);
    SortByDistanceFacts(midpoint, siteSegments);
    if frontLotLineOverride.None? {
      SortByDistanceHead(midpoint, siteSegments);
    }
  }

  /** The rest of a built street: half the width lookup as the centerline
      offset; a centerline that is the front lot line moved by that offset
      along the unitized direction from the site centroid to the front lot
      line's midpoint, so with the same direction and length; score 0; the
      block depth in metres; and the vantage points of that centerline and
      front lot line. */
  lemma {:induction false} CreateVantageStreetCenterline(siteSegments: seq<Line>, siteCentroid: Vec3, street: VantageStreetInput,
                                      frontLotLineOverride: Option<Line>, unitized: Vec3 -> Vec3)
    requires CreateVantageStreet(siteSegments, siteCentroid, street, frontLotLineOverride, unitized).Success?
    ensures var (out, vps) := CreateVantageStreet(siteSegments, siteCentroid, street, frontLotLineOverride, unitized).value;
      && out.centerlineDistance == CenterlineDistances()[street.width] / 2.0
      && Direction(out.centerline) == Direction(out.frontLotLine)
      && LineLengthSq(out.centerline) == LineLengthSq(out.frontLotLine)
      && Sub(out.centerline.start, out.frontLotLine.start) == Sub(out.centerline.end, out.frontLotLine.end)
         == Scale(unitized(Sub(Midpoint(out.frontLotLine), siteCentroid)), out.centerlineDistance)
      && out.score == 0.0
      && out.blockDepth == FeetToMeters(street.blockDepthInFeet)
      && out.streetWallContinuity == street.streetWallContinuity
      && vps == VantagePointsOf(out.centerline, out.frontLotLine, unitized)
  {
    var out := CreateVantageStreet(siteSegments, siteCentroid, street, frontLotLineOverride, unitized).value.0;
    MovedKeepsShape(out.frontLotLine, Scale(unitized(Sub(Midpoint(out.frontLotLine), siteCentroid)), out.centerlineDistance));
  }
}
