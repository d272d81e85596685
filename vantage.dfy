/** Vantage points (ZR8127VantagePoint.cs): where along a street the chart is
    drawn from, the frame each point measures from, and the distances s (across
    the street) and d (along it) that the plan and section angles are computed
    from. The arctangents and the library's Unitized are parameters. */
module VantagePoints {
  import opened Geometry

  /** The distance of the end vantage points from the centerline ends, in
      feet (VantageDistanceInFt); it is also half the street frontage the plan
      grid samples. */
  const VantageDistanceInFt: real := 250.0

  /** The same distance in metres (VantageDistance). */
  const VantageDistance: real := FeetToMeters(VantageDistanceInFt)

  /** A centerline longer than this gets a third, middle vantage point. */
  const LongCenterlineLength: real := FeetToMeters(500.0)

  /** A plane through `origin` with normal `normal`. */
  datatype Plane = Plane(origin: Vec3, normal: Vec3)

  /** Vector3.DistanceTo(Plane): the signed distance along the normal. */
  function SignedDistance(p: Vec3, plane: Plane): real
  {
    Dot(Sub(p, plane.origin), plane.normal)
  }

  datatype VantagePoint = VantagePoint(
    point: Vec3,
    startDirection: Vec3,
    ninetyDegreeDirection: Vec3,
    sPlane: Plane,
    dPlane: Plane)

  /** The VantagePoint constructor: the s-plane is normal to the ninety-degree
      direction and the d-plane to the start direction, both through the
      point. */
  function NewVantagePoint(point: Vec3, startDirection: Vec3, ninetyDegreeDirection: Vec3): (vp: VantagePoint)
    ensures vp.point == point && vp.startDirection == startDirection && vp.ninetyDegreeDirection == ninetyDegreeDirection
    ensures vp.sPlane.origin == point && vp.sPlane.normal == ninetyDegreeDirection
    ensures vp.dPlane.origin == point && vp.dPlane.normal == startDirection
  {
    VantagePoint(point, startDirection, ninetyDegreeDirection, Plane(point, ninetyDegreeDirection), Plane(point, startDirection))
  }

  datatype PlanAndSectionAngle = PlanAndSectionAngle(plan: real, section: real)

  /** GetS: how far a point lies across the street from the vantage point. */
  function GetS(vp: VantagePoint, p: Vec3): (s: real)
    ensures s >= 0.0
    ensures s == SignedDistance(p, vp.sPlane) || s == -SignedDistance(p, vp.sPlane)
  {
    var signed := SignedDistance(p, vp.sPlane);
    if signed < 0.0 then -signed else signed
  }

  /** GetD: how far a point lies along the street, in the start direction. */
  function GetD(vp: VantagePoint, p: Vec3): real
  {
    SignedDistance(p, vp.dPlane)
  }

  /** GetPlanAndSectionAngle with GetPlanAngle and GetSectionAngle passed in:
      the plan angle from (s, d), the section angle from (h, s), h the
      point's height. */
  function GetPlanAndSectionAngle(vp: VantagePoint, p: Vec3, planAngle: (real, real) -> real,
                                  sectionAngle: (real, real) -> real): PlanAndSectionAngle
  {
    var s := GetS(vp, p);
    var d := GetD(vp, p);
    var h := p.z;
    PlanAndSectionAngle(planAngle(s, d), sectionAngle(h, s))
  }

  /** Moving a point along a direction square to the ninety-degree direction
      keeps its s, and square to the start direction keeps its d. */
  lemma {:induction false} DistancesAlong(vp: VantagePoint, p: Vec3, v: Vec3)
    ensures Dot(v, vp.sPlane.normal) == 0.0 ==> GetS(vp, Add(p, v)) == GetS(vp, p)
    ensures Dot(v, vp.dPlane.normal) == 0.0 ==> GetD(vp, Add(p, v)) == GetD(vp, p)
  {
    DotSplit(Sub(p, vp.sPlane.origin), v, vp.sPlane.normal);
    assert Sub(Add(p, v), vp.sPlane.origin) == Add(Sub(p, vp.sPlane.origin), v);
    DotSplit(Sub(p, vp.dPlane.origin), v, vp.dPlane.normal);
    assert Sub(Add(p, v), vp.dPlane.origin) == Add(Sub(p, vp.dPlane.origin), v);
  }

  lemma {:induction false} DotSplit(a: Vec3, b: Vec3, n: Vec3)
    ensures Dot(Add(a, b), n) == Dot(a, n) + Dot(b, n)
  {
  }

  /** For a vantage point whose frame is level, raising a point changes its
      section angle only: its plan angle is the same at every height. */
  lemma {:induction false} PlanAngleIgnoresHeight(vp: VantagePoint, p: Vec3, rise: real,
                               planAngle: (real, real) -> real, sectionAngle: (real, real) -> real)
    requires vp.sPlane.normal.z == 0.0 && vp.dPlane.normal.z == 0.0
    ensures GetPlanAndSectionAngle(vp, Add(p, Vec3(0.0, 0.0, rise)), planAngle, sectionAngle).plan
         == GetPlanAndSectionAngle(vp, p, planAngle, sectionAngle).plan
  {
    DistancesAlong(vp, p, Vec3(0.0, 0.0, rise));
  }

  // ---------------------------------------------------------------------------
  // GetVantagePoints

  /** The vantage points of a street: one 250 ft in from each centerline end,
      facing the nearer end, and one midway between them when the centerline is
      longer than 500 ft; all share the direction from the centerline to the
      front lot line. */
  function VantagePointsOf(centerline: Line, frontLotLine: Line, unitized: Vec3 -> Vec3): seq<VantagePoint>
  {
    var ninety := unitized(Sub(Midpoint(frontLotLine), Midpoint(centerline)));
    var dir1 := unitized(Sub(centerline.end, centerline.start));
    var origin1 := Add(centerline.start, Scale(dir1, VantageDistance));
    var dir2 := unitized(Sub(centerline.start, centerline.end));
    var origin2 := Add(centerline.end, Scale(dir2, VantageDistance));
    var vp1 := NewVantagePoint(origin1, Scale(dir1, -1.0), ninety);
    var vp2 := NewVantagePoint(origin2, Scale(dir2, -1.0), ninety);
    if LineLengthSq(centerline) > LongCenterlineLength * LongCenterlineLength then
      [vp1, vp2, NewVantagePoint(Midpoint(Line(origin1, origin2)), Scale(dir1, -1.0), ninety)]
    else
      [vp1, vp2]
  }

  /** GetVantagePoints: vp1 and vp2 always, vp3 for a long centerline. */
  method GetVantagePoints(centerline: Line, frontLotLine: Line, unitized: Vec3 -> Vec3) returns (vantagePoints: seq<VantagePoint>)
    ensures vantagePoints == VantagePointsOf(centerline, frontLotLine, unitized)
  {
    vantagePoints := [];
    var ninetyDegreeDirection := unitized(Sub(Midpoint(frontLotLine), Midpoint(centerline)));

    var base1 := centerline.start;
    var dir1 := unitized(Sub(centerline.end, centerline.start));
    var origin1 := Add(base1, Scale(dir1, VantageDistance));
    var vp1 := NewVantagePoint(origin1, Scale(dir1, -1.0), ninetyDegreeDirection);
    vantagePoints := vantagePoints + [vp1];

    var base2 := centerline.end;
    var dir2 := unitized(Sub(centerline.start, centerline.end));
    var origin2 := Add(base2, Scale(dir2, VantageDistance));
    var vp2 := NewVantagePoint(origin2, Scale(dir2, -1.0), ninetyDegreeDirection);
    vantagePoints := vantagePoints + [vp2];

    if LineLengthSq(centerline) > LongCenterlineLength * LongCenterlineLength {
      var lineBetweenVps := Line(origin1, origin2);
      var dir3 := dir1;
      var origin3 := Midpoint(lineBetweenVps);
      var vp3 := NewVantagePoint(origin3, Scale(dir3, -1.0), ninetyDegreeDirection);
      vantagePoints := vantagePoints + [vp3];
    }
  }

  /** There are two vantage points, or three exactly when the centerline is
      longer than 500 ft. */
  lemma {:induction false} VantagePointCount(centerline: Line, frontLotLine: Line, unitized: Vec3 -> Vec3)
    ensures var vps := VantagePointsOf(centerline, frontLotLine, unitized);
      && (|vps| == 2 || |vps| == 3)
      && (|vps| == 3 <==> LineLengthSq(centerline) > LongCenterlineLength * LongCenterlineLength)
  {
  }

  /** Where the vantage points stand and which way they face: vp1 250 ft
      along the centerline from its start, facing back to it; vp2 the same from
      the end; vp3 midway between them facing as vp1 does; every point shares
      the ninety-degree direction and carries planes through itself. */
  lemma {:induction false} VantagePointPlacement(centerline: Line, frontLotLine: Line, unitized: Vec3 -> Vec3)
    ensures var vps := VantagePointsOf(centerline, frontLotLine, unitized);
      var dir1 := unitized(Sub(centerline.end, centerline.start));
      var dir2 := unitized(Sub(centerline.start, centerline.end));
      && vps[0].point == Add(centerline.start, Scale(dir1, VantageDistance))
      && vps[0].startDirection == Scale(dir1, -1.0)
      && vps[1].point == Add(centerline.end, Scale(dir2, VantageDistance))
      && vps[1].startDirection == Scale(dir2, -1.0)
      && (|vps| == 3 ==>
            && Sub(vps[2].point, vps[0].point) == Sub(vps[1].point, vps[2].point)
            && vps[2].startDirection == vps[0].startDirection)
      && (forall i :: 0 <= i < |vps| ==>
            && vps[i].ninetyDegreeDirection == unitized(Sub(Midpoint(frontLotLine), Midpoint(centerline)))
            && vps[i].sPlane == Plane(vps[i].point, vps[i].ninetyDegreeDirection)
            && vps[i].dPlane == Plane(vps[i].point, vps[i].startDirection))
  {
  }

  /** When Unitized commutes with negation, vp1 and vp2 face opposite ways. */
  lemma {:induction false} EndVantagePointsFaceEachOther(centerline: Line, frontLotLine: Line, unitized: Vec3 -> Vec3)
    requires forall v :: unitized(Scale(v, -1.0)) == Scale(unitized(v), -1.0)
    ensures var vps := VantagePointsOf(centerline, frontLotLine, unitized);
      vps[1].startDirection == Scale(vps[0].startDirection, -1.0)
  {
    var d := Sub(centerline.end, centerline.start);
    assert Sub(centerline.start, centerline.end) == Scale(d, -1.0);
  }

  /** When Unitized returns unit vectors, vp1 stands exactly 250 ft from the
      centerline start. */
  lemma {:induction false} EndVantagePointDistance(centerline: Line, frontLotLine: Line, unitized: Vec3 -> Vec3)
    requires LengthSq(unitized(Sub(centerline.end, centerline.start))) == 1.0
    ensures DistanceSq(centerline.start, VantagePointsOf(centerline, frontLotLine, unitized)[0].point)
         == VantageDistance * VantageDistance
  {
    var u := unitized(Sub(centerline.end, centerline.start));
    var k := VantageDistance;
    var p := VantagePointsOf(centerline, frontLotLine, unitized)[0].point;
    assert Sub(p, centerline.start) == Scale(u, k);
    calc {
      LengthSq(Scale(u, k));
      (u.x * k) * (u.x * k) + (u.y * k) * (u.y * k) + (u.z * k) * (u.z * k);
      (u.x * u.x + u.y * u.y + u.z * u.z) * (k * k);
      k * k;
    }
  }
}
