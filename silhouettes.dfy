/** The face-loop and polygon part of Diagram.drawAndCalculateSilhouettes
    (ZR8127Diagram.cs): every analysis object's vertices are mapped to analysis
    points, every edge to the list of its points, every face to the loop its
    half-edges walk, and every face loop with positive area to a raw
    (plan and section angle) and a draw (projected) polygon. */
module Silhouettes {
  import opened Sequences
  import opened Geometry
  import opened Solids
  import SolidAnalysis

  /** A vertex seen from a vantage point: its plan and section angles and its
      projected chart coordinate. */
  datatype AnalysisPoint = AnalysisPoint(planAndSection: Vec2, drawCoordinate: Vec2)

  /** The Elements polygon operations the diagram relies on: whether the
      Polygon constructor accepts a point list, the area of a polygon, and the
      union of a list of polygons. */
  datatype PolygonLibrary = PolygonLibrary(
    accepts: seq<Vec2> -> bool,
    area: seq<Vec2> -> real,
    unionAll: seq<seq<Vec2>> -> seq<seq<Vec2>>)

  /** The contents of an analysis object. */
  datatype View = View(points: map<int, Vec3>, lines: map<int, seq<int>>, surfaces: seq<seq<HalfEdge>>)

  // ---------------------------------------------------------------------------
  // Face loops

  /** The analysis point of every vertex key. */
  function AnalysisPoints(points: map<int, Vec3>, analysisPointOf: Vec3 -> AnalysisPoint): map<int, AnalysisPoint>
  {
    map k | k in points :: analysisPointOf(points[k])
  }

  /** Every key along every edge has an analysis point. */
  predicate KnownIds(lines: map<int, seq<int>>, aps: map<int, AnalysisPoint>)
  {
    forall e :: e in lines ==> forall i :: 0 <= i < |lines[e]| ==> lines[e][i] in aps
  }

  lemma {:induction false} ClosedLinesKnown(points: map<int, Vec3>, lines: map<int, seq<int>>, analysisPointOf: Vec3 -> AnalysisPoint)
    requires SolidAnalysis.LinesClosed(points, lines)
    ensures KnownIds(lines, AnalysisPoints(points, analysisPointOf))
  {
    forall e, i | e in lines && 0 <= i < |lines[e]| ensures lines[e][i] in AnalysisPoints(points, analysisPointOf) {
      var id := lines[e][i];
      assert id in lines[e];
      assert e in lines && id in lines[e] ==> id in points;
    }
  }

  /** The analysis points along every edge, by edge key. */
  function EdgePointLists(lines: map<int, seq<int>>, aps: map<int, AnalysisPoint>): map<int, seq<AnalysisPoint>>
    requires KnownIds(lines, aps)
  {
    map e | e in lines :: seq(|lines[e]|, i requires 0 <= i < |lines[e]| => aps[lines[e][i]])
  }

  /** What one edge adds to a face loop: its points without the last one,
      forwards when walked from its Left vertex, backwards otherwise. */
  function EdgeContribution<T>(points: seq<T>, leftToRight: bool): seq<T>
  {
    if leftToRight then DropLast(points) else DropLast(Reverse(points))
  }

  /** What a half-edge adds: nothing when its edge has no point list. */
  function HalfEdgeContribution<T>(h: HalfEdge, edges: map<int, seq<T>>): seq<T>
  {
    if h.edgeId in edges then EdgeContribution(edges[h.edgeId], h.vertexId == h.edgeLeftVertexId) else []
  }

  /** The loop of a face: its half-edges' contributions, in order. */
  function FaceLoop<T>(surface: seq<HalfEdge>, edges: map<int, seq<T>>): seq<T>
  {
    if surface == [] then []
    else FaceLoop(surface[..|surface| - 1], edges) + HalfEdgeContribution(surface[|surface| - 1], edges)
  }

  /** The number of points a half-edge adds: one fewer than its edge has, or
      none for a missing or empty edge. */
  function ContributionLength<T>(h: HalfEdge, edges: map<int, seq<T>>): nat
  {
    if h.edgeId in edges && |edges[h.edgeId]| > 0 then |edges[h.edgeId]| - 1 else 0
  }

  function LoopLength<T>(surface: seq<HalfEdge>, edges: map<int, seq<T>>): nat
  {
    if surface == [] then 0
    else LoopLength(surface[..|surface| - 1], edges) + ContributionLength(surface[|surface| - 1], edges)
  }

  /** A half-edge adds its edge's points in walking order, starting from the
      end it leaves from and stopping before the end it reaches. */
  lemma {:induction false} HalfEdgeContributionOrder<T>(h: HalfEdge, edges: map<int, seq<T>>)
    ensures |HalfEdgeContribution(h, edges)| == ContributionLength(h, edges)
    ensures h.edgeId in edges && h.vertexId == h.edgeLeftVertexId ==>
      forall i :: 0 <= i < |HalfEdgeContribution(h, edges)| ==> HalfEdgeContribution(h, edges)[i] == edges[h.edgeId][i]
    ensures h.edgeId in edges && h.vertexId != h.edgeLeftVertexId ==>
      var pts := edges[h.edgeId];
      forall i :: 0 <= i < |HalfEdgeContribution(h, edges)| ==> HalfEdgeContribution(h, edges)[i] == pts[|pts| - 1 - i]
  {
  }

  /** A face loop has one point fewer than each found edge has, summed over
      its half-edges. */
  lemma {:induction false} FaceLoopLength<T>(surface: seq<HalfEdge>, edges: map<int, seq<T>>)
    ensures |FaceLoop(surface, edges)| == LoopLength(surface, edges)
    decreases |surface|
  {
    if surface != [] {
      FaceLoopLength(surface[..|surface| - 1], edges);
      HalfEdgeContributionOrder(surface[|surface| - 1], edges);
    }
  }

  /** The loop of a run of half-edges is the loops of its parts, joined. */
  lemma {:induction false} FaceLoopAppend<T>(xs: seq<HalfEdge>, ys: seq<HalfEdge>, edges: map<int, seq<T>>)
    ensures FaceLoop(xs + ys, edges) == FaceLoop(xs, edges) + FaceLoop(ys, edges)
    decreases |ys|
  {
    if ys == [] {
      assert xs + ys == xs;
    } else {
      var init, last := ys[..|ys| - 1], ys[|ys| - 1];
      assert xs + ys == (xs + init) + [last];
      assert (xs + ys)[..|xs + ys| - 1] == xs + init;
      FaceLoopAppend(xs, init, edges);
      calc {
        FaceLoop(xs + ys, edges);
        FaceLoop(xs + init, edges) + HalfEdgeContribution(last, edges);
        FaceLoop(xs, edges) + FaceLoop(init, edges) + HalfEdgeContribution(last, edges);
        FaceLoop(xs, edges) + FaceLoop(ys, edges);
      }
    }
  }

  /** A half-edge whose edge is kept unsubdivided as its two end keys. */
  predicate TwoPointEdge(h: HalfEdge, lines: map<int, seq<int>>)
  {
    && h.edgeId in lines
    && |lines[h.edgeId]| == 2
    && lines[h.edgeId][0] == h.edgeLeftVertexId
    && (h.vertexId == lines[h.edgeId][0] || h.vertexId == lines[h.edgeId][1])
  }

  /** The analysis point of each half-edge's starting vertex, in order. */
  function Corners(surface: seq<HalfEdge>, aps: map<int, AnalysisPoint>): (r: seq<AnalysisPoint>)
    requires forall i :: 0 <= i < |surface| ==> surface[i].vertexId in aps
    ensures |r| == |surface| && forall i :: 0 <= i < |surface| ==> r[i] == aps[surface[i].vertexId]
  {
    seq(|surface|, i requires 0 <= i < |surface| => aps[surface[i].vertexId])
  }

  lemma {:induction false} CornersSnoc(surface: seq<HalfEdge>, aps: map<int, AnalysisPoint>)
    requires surface != [] && forall i :: 0 <= i < |surface| ==> surface[i].vertexId in aps
    ensures Corners(surface, aps) == Corners(surface[..|surface| - 1], aps) + [aps[surface[|surface| - 1].vertexId]]
  {
    var n := |surface|;
    var a, b := Corners(surface, aps), Corners(surface[..n - 1], aps) + [aps[surface[n - 1].vertexId]];
    assert |a| == |b|;
    forall i | 0 <= i < n ensures a[i] == b[i] {
      if i < n - 1 {
        assert surface[..n - 1][i] == surface[i];
      }
    }
  }

  /** On a face whose edges are not subdivided, the face loop is the analysis
      point of each half-edge's starting vertex, in order: dropping each edge's
      last point leaves each corner exactly once. */
  lemma {:induction false} FaceLoopOfCorners(surface: seq<HalfEdge>, lines: map<int, seq<int>>, aps: map<int, AnalysisPoint>)
    requires KnownIds(lines, aps)
    requires forall i :: 0 <= i < |surface| ==> TwoPointEdge(surface[i], lines)
    ensures forall i :: 0 <= i < |surface| ==> surface[i].vertexId in aps
    ensures FaceLoop(surface, EdgePointLists(lines, aps)) == Corners(surface, aps)
    decreases |surface|
  {
    if surface != [] {
      var n := |surface|;
      var h := surface[n - 1];
      FaceLoopOfCorners(surface[..n - 1], lines, aps);
      forall i | 0 <= i < n ensures surface[i].vertexId in aps {
        TwoPointContribution(surface[i], lines, aps);
      }
      CornersSnoc(surface, aps);
    }
  }

  /** A half-edge along a two-point edge adds the point of its own vertex. */
  lemma {:induction false} TwoPointContribution(h: HalfEdge, lines: map<int, seq<int>>, aps: map<int, AnalysisPoint>)
    requires KnownIds(lines, aps) && TwoPointEdge(h, lines)
    ensures h.vertexId in aps
    ensures HalfEdgeContribution(h, EdgePointLists(lines, aps)) == [aps[h.vertexId]]
  {
    assert h.vertexId == lines[h.edgeId][0] || h.vertexId == lines[h.edgeId][1];
  }


  // ---------------------------------------------------------------------------
  // Polygons

  function PlanAndSections(loop: seq<AnalysisPoint>): (r: seq<Vec2>)
    ensures |r| == |loop| && forall i :: 0 <= i < |loop| ==> r[i] == loop[i].planAndSection
  {
    seq(|loop|, i requires 0 <= i < |loop| => loop[i].planAndSection)
  }

  function DrawCoordinates(loop: seq<AnalysisPoint>): (r: seq<Vec2>)
    ensures |r| == |loop| && forall i :: 0 <= i < |loop| ==> r[i] == loop[i].drawCoordinate
  {
    seq(|loop|, i requires 0 <= i < |loop| => loop[i].drawCoordinate)
  }

  /** The library builds a polygon from the points and it has positive area. */
  predicate Collectable(p: seq<Vec2>, lib: PolygonLibrary)
  {
    lib.accepts(p) && lib.area(p) > 0.0
  }

  /** The raw polygon a face loop yields: none unless it is collectable. */
  function RawOf(loop: seq<AnalysisPoint>, lib: PolygonLibrary): seq<seq<Vec2>>
  {
    if Collectable(PlanAndSections(loop), lib) then [PlanAndSections(loop)] else []
  }

  /** The draw polygon a face loop yields: the raw one when raw angles are
      drawn, otherwise the projected one when it is collectable too. */
  function DrawOf(loop: seq<AnalysisPoint>, useRawAngles: bool, lib: PolygonLibrary): seq<seq<Vec2>>
  {
    if !Collectable(PlanAndSections(loop), lib) then []
    else if useRawAngles then [PlanAndSections(loop)]
    else if Collectable(DrawCoordinates(loop), lib) then [DrawCoordinates(loop)]
    else []
  }

  function RawPolygons(loops: seq<seq<AnalysisPoint>>, lib: PolygonLibrary): seq<seq<Vec2>>
  {
    if loops == [] then [] else RawPolygons(loops[..|loops| - 1], lib) + RawOf(loops[|loops| - 1], lib)
  }

  function DrawPolygons(loops: seq<seq<AnalysisPoint>>, useRawAngles: bool, lib: PolygonLibrary): seq<seq<Vec2>>
  {
    if loops == [] then [] else DrawPolygons(loops[..|loops| - 1], useRawAngles, lib) + DrawOf(loops[|loops| - 1], useRawAngles, lib)
  }

  /** Every collected polygon, raw or drawn, is accepted by the library and
      has positive area, and there are never more draw polygons than raw
      ones. */
  lemma {:induction false} CollectedPolygonsHavePositiveArea(loops: seq<seq<AnalysisPoint>>, useRawAngles: bool, lib: PolygonLibrary)
    ensures forall p :: p in RawPolygons(loops, lib) ==> Collectable(p, lib)
    ensures forall p :: p in DrawPolygons(loops, useRawAngles, lib) ==> Collectable(p, lib)
    ensures |DrawPolygons(loops, useRawAngles, lib)| <= |RawPolygons(loops, lib)|
    decreases |loops|
  {
    if loops != [] {
      CollectedPolygonsHavePositiveArea(loops[..|loops| - 1], useRawAngles, lib);
    }
  }

  /** With raw angles drawn, the draw polygons are the raw polygons. */
  lemma {:induction false} RawAnglesDrawRawPolygons(loops: seq<seq<AnalysisPoint>>, lib: PolygonLibrary)
    ensures DrawPolygons(loops, true, lib) == RawPolygons(loops, lib)
    decreases |loops|
  {
    if loops != [] {
      RawAnglesDrawRawPolygons(loops[..|loops| - 1], lib);
    }
  }

  // ---------------------------------------------------------------------------
  // All objects

  /** The face loops of one object, one per surface. */
  function ObjectLoops(v: View, analysisPointOf: Vec3 -> AnalysisPoint): (r: seq<seq<AnalysisPoint>>)
    requires SolidAnalysis.LinesClosed(v.points, v.lines)
    ensures |r| == |v.surfaces|
  {
    ClosedLinesKnown(v.points, v.lines, analysisPointOf);
    var edges := EdgePointLists(v.lines, AnalysisPoints(v.points, analysisPointOf));
    seq(|v.surfaces|, s requires 0 <= s < |v.surfaces| => FaceLoop(v.surfaces[s], edges))
  }

  predicate AllClosed(views: seq<View>)
  {
    forall i :: 0 <= i < |views| ==> SolidAnalysis.LinesClosed(views[i].points, views[i].lines)
  }

  /** The face loops of all objects, object by object. */
  function AllLoops(views: seq<View>, analysisPointOf: Vec3 -> AnalysisPoint): seq<seq<AnalysisPoint>>
    requires AllClosed(views)
  {
    if views == [] then []
    else AllLoops(views[..|views| - 1], analysisPointOf) + ObjectLoops(views[|views| - 1], analysisPointOf)
  }

  ghost function ViewOf(o: SolidAnalysis.SolidAnalysisObject): View
    reads o
  {
    View(o.points, o.lines, o.surfaces)
  }

  ghost function Views(objects: seq<SolidAnalysis.SolidAnalysisObject>): (r: seq<View>)
    reads objects
    ensures |r| == |objects|
  {
    seq(|objects|, i reads objects requires 0 <= i < |objects| => ViewOf(objects[i]))
  }

  // ---------------------------------------------------------------------------
  // The loops of drawAndCalculateSilhouettes

  /** srfAPs: walk a face's half-edges and collect their contributions. */
  method BuildFaceLoop(surface: seq<HalfEdge>, edges: map<int, seq<AnalysisPoint>>)
    returns (srfAPs: seq<AnalysisPoint>)
    ensures srfAPs == FaceLoop(surface, edges)
  {
    srfAPs := [];
    for k := 0 to |surface|
      invariant srfAPs == FaceLoop(surface[..k], edges)
    {
      var edge := surface[k];
      var isLeftToRight := edge.vertexId == edge.edgeLeftVertexId;
      TakeLast(surface, k);
      if edge.edgeId in edges {
        var points := edges[edge.edgeId];
        var edgePoints := if isLeftToRight then DropLast(points) else DropLast(Reverse(points));
        srfAPs := srfAPs + edgePoints;
      }
    }
    assert surface[..|surface|] == surface;
  }

  /** The polygons one face loop adds: the raw polygon when it is
      collectable, and then the raw polygon again or the collectable draw
      polygon. */
  method AddFacePolygons(srfAPs: seq<AnalysisPoint>, useRawAngles: bool, lib: PolygonLibrary,
                         raw0: seq<seq<Vec2>>, draw0: seq<seq<Vec2>>)
    returns (rawPolygons: seq<seq<Vec2>>, drawPolygons: seq<seq<Vec2>>)
    ensures rawPolygons == raw0 + RawOf(srfAPs, lib)
    ensures drawPolygons == draw0 + DrawOf(srfAPs, useRawAngles, lib)
  {
    rawPolygons, drawPolygons := raw0, draw0;
    var rawPolygon := PlanAndSections(srfAPs);
    if lib.accepts(rawPolygon) && lib.area(rawPolygon) > 0.0 {
      rawPolygons := rawPolygons + [rawPolygon];
      if useRawAngles {
        drawPolygons := drawPolygons + [rawPolygon];
      } else {
        var drawPolygon := DrawCoordinates(srfAPs);
        if lib.accepts(drawPolygon) && lib.area(drawPolygon) > 0.0 {
          drawPolygons := drawPolygons + [drawPolygon];
        }
      }
    }
  }

  lemma {:induction false} RawPolygonsAppend(xs: seq<seq<AnalysisPoint>>, ys: seq<seq<AnalysisPoint>>, lib: PolygonLibrary)
    ensures RawPolygons(xs + ys, lib) == RawPolygons(xs, lib) + RawPolygons(ys, lib)
    decreases |ys|
  {
    if ys == [] {
      assert xs + ys == xs;
    } else {
      var init, last := ys[..|ys| - 1], ys[|ys| - 1];
      SplitLastOfAppend(xs, ys);
      RawPolygonsAppend(xs, init, lib);
      var a, b, c := RawPolygons(xs, lib), RawPolygons(init, lib), RawOf(last, lib);
      assert RawPolygons(xs + ys, lib) == (a + b) + c;
      assert RawPolygons(ys, lib) == b + c;
      assert (a + b) + c == a + (b + c);
    }
  }

  lemma {:induction false} DrawPolygonsAppend(xs: seq<seq<AnalysisPoint>>, ys: seq<seq<AnalysisPoint>>, useRawAngles: bool, lib: PolygonLibrary)
    ensures DrawPolygons(xs + ys, useRawAngles, lib) == DrawPolygons(xs, useRawAngles, lib) + DrawPolygons(ys, useRawAngles, lib)
    decreases |ys|
  {
    if ys == [] {
      assert xs + ys == xs;
    } else {
      var init, last := ys[..|ys| - 1], ys[|ys| - 1];
      SplitLastOfAppend(xs, ys);
      DrawPolygonsAppend(xs, init, useRawAngles, lib);
      var a, b, c := DrawPolygons(xs, useRawAngles, lib), DrawPolygons(init, useRawAngles, lib), DrawOf(last, useRawAngles, lib);
      assert DrawPolygons(xs + ys, useRawAngles, lib) == (a + b) + c;
      assert DrawPolygons(ys, useRawAngles, lib) == b + c;
      assert (a + b) + c == a + (b + c);
    }
  }


  /** The surface loop for one analysis object. */
  method CollectObjectPolygons(o: SolidAnalysis.SolidAnalysisObject, analysisPointOf: Vec3 -> AnalysisPoint,
                               useRawAngles: bool, lib: PolygonLibrary)
    returns (rawPolygons: seq<seq<Vec2>>, drawPolygons: seq<seq<Vec2>>)
    requires o.Valid()
    ensures rawPolygons == RawPolygons(ObjectLoops(ViewOf(o), analysisPointOf), lib)
    ensures drawPolygons == DrawPolygons(ObjectLoops(ViewOf(o), analysisPointOf), useRawAngles, lib)
  {
    ghost var loops := ObjectLoops(ViewOf(o), analysisPointOf);
    var analysisPoints := AnalysisPoints(o.points, analysisPointOf);
    ClosedLinesKnown(o.points, o.lines, analysisPointOf);
    var edges := EdgePointLists(o.lines, analysisPoints);
    rawPolygons, drawPolygons := [], [];
    for s := 0 to |o.surfaces|
      invariant rawPolygons == RawPolygons(loops[..s], lib)
      invariant drawPolygons == DrawPolygons(loops[..s], useRawAngles, lib)
    {
      var srfAPs := BuildFaceLoop(o.surfaces[s], edges);
      TakeLast(loops, s);
      assert loops[s] == srfAPs;
      rawPolygons, drawPolygons := AddFacePolygons(srfAPs, useRawAngles, lib, rawPolygons, drawPolygons);
    }
    assert loops[..|o.surfaces|] == loops;
  }

  /** The polygon-collecting loops of drawAndCalculateSilhouettes, over every
      face of every analysis object. */
  method CollectPolygons(objects: seq<SolidAnalysis.SolidAnalysisObject>, analysisPointOf: Vec3 -> AnalysisPoint,
                         useRawAngles: bool, lib: PolygonLibrary)
    returns (rawPolygons: seq<seq<Vec2>>, drawPolygons: seq<seq<Vec2>>)
    requires forall i :: 0 <= i < |objects| ==> objects[i].Valid()
    ensures AllClosed(Views(objects))
    ensures rawPolygons == RawPolygons(AllLoops(Views(objects), analysisPointOf), lib)
    ensures drawPolygons == DrawPolygons(AllLoops(Views(objects), analysisPointOf), useRawAngles, lib)
  {
    ghost var views := Views(objects);
    assert AllClosed(views);
    rawPolygons, drawPolygons := [], [];
    for i := 0 to |objects|
      invariant rawPolygons == RawPolygons(AllLoops(views[..i], analysisPointOf), lib)
      invariant drawPolygons == DrawPolygons(AllLoops(views[..i], analysisPointOf), useRawAngles, lib)
    {
      var objectRaw, objectDraw := CollectObjectPolygons(objects[i], analysisPointOf, useRawAngles, lib);
      TakeLast(views, i);
      RawPolygonsAppend(AllLoops(views[..i], analysisPointOf), ObjectLoops(views[i], analysisPointOf), lib);
      DrawPolygonsAppend(AllLoops(views[..i], analysisPointOf), ObjectLoops(views[i], analysisPointOf), useRawAngles, lib);
      rawPolygons := rawPolygons + objectRaw;
      drawPolygons := drawPolygons + objectDraw;
    }
    assert views[..|objects|] == views;
  }

  /** RawSilhouettes and DrawSilhouettes: the union of the raw polygons, and
      the same list again when raw angles are drawn, otherwise the union of
      the draw polygons. */
  function UnionSilhouettes(rawPolygons: seq<seq<Vec2>>, drawPolygons: seq<seq<Vec2>>, useRawAngles: bool, lib: PolygonLibrary)
    : (r: (seq<seq<Vec2>>, seq<seq<Vec2>>))
    ensures r.0 == lib.unionAll(rawPolygons)
    ensures useRawAngles ==> r.1 == r.0
    ensures !useRawAngles ==> r.1 == lib.unionAll(drawPolygons)
  {
    var raw := lib.unionAll(rawPolygons);
    (raw, if useRawAngles then raw else lib.unionAll(drawPolygons))
  }
}
