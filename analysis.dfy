/** The analysis graph of one solid (SolidAnalysisObject): its vertices in
    global coordinates under integer keys, each edge as the list of vertex keys
    along it, with long edges cut into 10 ft pieces whose new vertices get
    fresh keys above every existing one, and the outer loop of every face. */
module SolidAnalysis {
  import opened Wrappers
  import opened Sequences
  import opened Geometry
  import opened Solids

  /** The exception raised when an edge names a vertex key that is not there. */
  datatype Error = MalformedGeometry

  /** Edges longer than this are subdivided (10 ft). */
  function DivisionLength(): real
  {
    FeetToMeters(10.0)
  }

  /** What the source keeps in static fields: the SkipSubdivide switch, and the
      library's division of a segment into 10 ft cells (Grid1d.DivideByFixedLength
      with the remainder at both ends), given as the end point of each cell in
      order from the start of the segment. */
  datatype Subdivision = Subdivision(skip: bool, cellEnds: (Vec3, Vec3) -> seq<Vec3>)

  /** The edge test: subdividing is on, the edge is longer than 10 ft, and it is
      not vertical (its ends differ in X or in Y). Lengths are compared squared. */
  predicate ShouldSubdivide(skip: bool, start: Vec3, end: Vec3)
  {
    && !skip
    && DistanceSq(start, end) > DivisionLength() * DivisionLength()
    && (start.x != end.x || start.y != end.y)
  }

  /** A vertex of a solid operation in global coordinates: the local transform
      first when there is one, then the envelope's transform. */
  function Place(op: SolidOp, t: Transform, p: Vec3): Vec3
  {
    var local := match op.localTransform case None => p case Some(lt) => Apply(lt, p);
    Apply(t, local)
  }

  /** The vertex dictionary after adding the vertices in order. */
  function VertexMap(vs: seq<(int, Vec3)>, op: SolidOp, t: Transform): map<int, Vec3>
  {
    if vs == [] then map[]
    else VertexMap(vs[..|vs| - 1], op, t)[vs[|vs| - 1].0 := Place(op, t, vs[|vs| - 1].1)]
  }

  /** The running maximum of the vertex keys, starting from 0. */
  function MaxKey(vs: seq<(int, Vec3)>): int
  {
    if vs == [] then 0
    else
      var m := MaxKey(vs[..|vs| - 1]);
      if m < vs[|vs| - 1].0 then vs[|vs| - 1].0 else m
  }

  /** The graph under construction: the vertex and edge dictionaries and the
      largest key handed out so far. */
  datatype Graph = Graph(points: map<int, Vec3>, lines: map<int, seq<int>>, maxKey: int)

  /** Adds one vertex per position, under the keys maxKey + 1, maxKey + 2, ...;
      gives back the new dictionary, the new keys and the last key used. */
  function Mint(points: map<int, Vec3>, maxKey: int, ps: seq<Vec3>): (r: (map<int, Vec3>, seq<int>, int))
    ensures |r.1| == |ps| && r.2 == maxKey + |ps|
    decreases |ps|
  {
    if ps == [] then (points, [], maxKey)
    else
      var index := maxKey + 1;
      var rest := Mint(points[index := ps[0]], index, ps[1..]);
      (rest.0, [index] + rest.1, rest.2)
  }

  /** Adds one edge: a missing end vertex is an error; otherwise the edge maps
      to its Left key, the keys of its new division vertices when it is
      subdivided (every cell end but the last), and its Right key. */
  function WithEdge(g: Graph, key: int, e: Edge, sub: Subdivision): Result<Graph, Error>
  {
    if e.leftVertexId in g.points && e.rightVertexId in g.points then
      var start := g.points[e.leftVertexId];
      var end := g.points[e.rightVertexId];
      if ShouldSubdivide(sub.skip, start, end) then
        var minted := Mint(g.points, g.maxKey, DropLast(sub.cellEnds(start, end)));
        Success(Graph(minted.0, g.lines[key := [e.leftVertexId] + minted.1 + [e.rightVertexId]], minted.2))
      else
        Success(Graph(g.points, g.lines[key := [e.leftVertexId, e.rightVertexId]], g.maxKey))
    else
      Failure(MalformedGeometry)
  }

  /** Adds the edges in order, stopping at the first error. */
  function WithEdges(g: Graph, es: seq<(int, Edge)>, sub: Subdivision): Result<Graph, Error>
    decreases |es|
  {
    if es == [] then Success(g)
    else
      match WithEdge(g, es[0].0, es[0].1, sub)
      case Failure(err) => Failure(err)
      case Success(next) => WithEdges(next, es[1..], sub)
  }

  /** The vertex and edge dictionaries the constructor builds for one solid
      operation placed by an envelope transform, or its error. */
  function Analysis(op: SolidOp, t: Transform, sub: Subdivision): Result<Graph, Error>
  {
    var vs := op.solid.vertices;
    WithEdges(Graph(VertexMap(vs, op, t), map[], MaxKey(vs)), op.solid.edges, sub)
  }

  /** Every key listed along an edge is a vertex key. */
  predicate LinesClosed(points: map<int, Vec3>, lines: map<int, seq<int>>)
  {
    forall e, id :: e in lines && id in lines[e] ==> id in points
  }

  /** No vertex key exceeds the counter. */
  predicate Bounded(g: Graph)
  {
    forall k :: k in g.points ==> k <= g.maxKey
  }

  /** `after` keeps every vertex and every edge of `before` unchanged. */
  predicate Extends(before: Graph, after: Graph)
  {
    && before.maxKey <= after.maxKey
    && (forall k :: k in before.points ==> k in after.points && after.points[k] == before.points[k])
    && (forall k :: k in before.lines ==> k in after.lines && after.lines[k] == before.lines[k])
  }

  /** The key list of an edge: its Left key first, its Right key last, and in
      between only keys above `floor` (keys minted for this graph). */
  predicate EdgeLine(ids: seq<int>, e: Edge, floor: int)
  {
    && |ids| >= 2
    && ids[0] == e.leftVertexId
    && ids[|ids| - 1] == e.rightVertexId
    && (forall k :: 0 < k < |ids| - 1 ==> ids[k] > floor)
  }

  /** The vertex dictionary has exactly the keys of `vs`. */
  lemma {:induction false} VertexMapKeys(vs: seq<(int, Vec3)>, op: SolidOp, t: Transform)
    ensures VertexMap(vs, op, t).Keys == Keys(vs)
    decreases |vs|
  {
    if vs != [] {
      var n := |vs| - 1;
      var front := vs[..n];
      VertexMapKeys(front, op, t);
      forall k | k in Keys(vs) ensures k in Keys(front) + {vs[n].0} {
        var i :| 0 <= i < |vs| && vs[i].0 == k;
        if i < n {
          assert front[i] == vs[i];
        }
      }
      forall k | k in Keys(front) ensures k in Keys(vs) {
        var i :| 0 <= i < |front| && front[i].0 == k;
        assert vs[i] == front[i];
      }
    }
  }

  /** With distinct keys, every key of `vs` maps to its own placed point. */
  lemma {:induction false} VertexMapValues(vs: seq<(int, Vec3)>, op: SolidOp, t: Transform)
    requires DistinctKeys(vs)
    ensures forall i :: 0 <= i < |vs| ==> vs[i].0 in VertexMap(vs, op, t) && VertexMap(vs, op, t)[vs[i].0] == Place(op, t, vs[i].1)
    decreases |vs|
  {
    if vs != [] {
      var n := |vs| - 1;
      var front := vs[..n];
      assert DistinctKeys(front) by {
        forall i, j | 0 <= i < j < |front| ensures front[i].0 != front[j].0 {
          assert front[i] == vs[i] && front[j] == vs[j];
        }
      }
      VertexMapValues(front, op, t);
      forall i | 0 <= i < n
        ensures vs[i].0 in VertexMap(vs, op, t) && VertexMap(vs, op, t)[vs[i].0] == Place(op, t, vs[i].1)
      {
        assert front[i] == vs[i];
        assert vs[i].0 != vs[n].0;
      }
    }
  }

  /** The counter ends at or above every vertex key, is never negative, and is
      0 or one of the keys. */
  lemma {:induction false} MaxKeyBounds(vs: seq<(int, Vec3)>)
    ensures MaxKey(vs) >= 0
    ensures forall i :: 0 <= i < |vs| ==> vs[i].0 <= MaxKey(vs)
    ensures MaxKey(vs) == 0 || MaxKey(vs) in Keys(vs)
    decreases |vs|
  {
    if vs != [] {
      var n := |vs| - 1;
      var front := vs[..n];
      MaxKeyBounds(front);
      forall i | 0 <= i < n ensures vs[i].0 <= MaxKey(vs) {
        assert vs[i] == front[i];
      }
      if MaxKey(vs) != 0 && MaxKey(vs) != vs[n].0 {
        var i :| 0 <= i < |front| && front[i].0 == MaxKey(front);
        assert vs[i] == front[i];
      }
    }
  }

  /** The minted keys are maxKey + 1, maxKey + 2, ... in order, each holds its
      position, none of them was a key before, and every old vertex is kept. */
  lemma {:induction false} MintFacts(points: map<int, Vec3>, maxKey: int, ps: seq<Vec3>)
    requires forall k :: k in points ==> k <= maxKey
    ensures var r := Mint(points, maxKey, ps);
      && (forall j :: 0 <= j < |r.1| ==> r.1[j] == maxKey + 1 + j && r.1[j] !in points)
      && (forall j :: 0 <= j < |r.1| ==> r.1[j] in r.0 && r.0[r.1[j]] == ps[j])
      && (forall k :: k in points ==> k in r.0 && r.0[k] == points[k])
      && (forall k :: k in r.0 ==> k in points || maxKey < k <= r.2)
    decreases |ps|
  {
    if ps != [] {
      var index := maxKey + 1;
      var next := points[index := ps[0]];
      MintFacts(next, index, ps[1..]);
      var rest := Mint(next, index, ps[1..]);
      var r := Mint(points, maxKey, ps);
      assert r.1 == [index] + rest.1;
      forall j | 0 <= j < |r.1| ensures r.1[j] in r.0 && r.0[r.1[j]] == ps[j] {
        if j > 0 {
          assert r.1[j] == rest.1[j - 1] && ps[j] == ps[1..][j - 1];
        }
      }
    }
  }

  /** One added edge keeps the counter above every key, keeps every edge list
      inside the vertex dictionary, keeps what was there, and gives the edge a
      key list from its Left to its Right key through fresh keys only. It is
      exactly [Left, Right] unless the edge is subdivided. */
  lemma {:induction false} WithEdgeFacts(g: Graph, key: int, e: Edge, sub: Subdivision)
    requires Bounded(g) && LinesClosed(g.points, g.lines)
    requires WithEdge(g, key, e, sub).Success?
    ensures var next := WithEdge(g, key, e, sub).value;
      && Bounded(next)
      && LinesClosed(next.points, next.lines)
      && next.points.Keys >= g.points.Keys
      && (forall k :: k in g.points ==> next.points[k] == g.points[k])
      && g.maxKey <= next.maxKey
      && next.lines == g.lines[key := next.lines[key]]
      && EdgeLine(next.lines[key], e, g.maxKey)
      && (!ShouldSubdivide(sub.skip, g.points[e.leftVertexId], g.points[e.rightVertexId]) ==>
            next.lines[key] == [e.leftVertexId, e.rightVertexId])
  {
    var start := g.points[e.leftVertexId];
    var end := g.points[e.rightVertexId];
    var next := WithEdge(g, key, e, sub).value;
    if ShouldSubdivide(sub.skip, start, end) {
      var ce := DropLast(sub.cellEnds(start, end));
      MintFacts(g.points, g.maxKey, ce);
      var minted := Mint(g.points, g.maxKey, ce);
      var ids := [e.leftVertexId] + minted.1 + [e.rightVertexId];
      assert next.lines[key] == ids;
      forall k | 0 < k < |ids| - 1 ensures ids[k] > g.maxKey {
        assert ids[k] == minted.1[k - 1];
      }
      forall l, id | l in next.lines && id in next.lines[l] ensures id in next.points {
        if l == key {
          if id != e.leftVertexId && id != e.rightVertexId {
            var k :| 0 <= k < |ids| && ids[k] == id;
            assert ids[k] == minted.1[k - 1];
          }
        }
      }
    }
  }

  /** Adding edges in order keeps the counter above every key and every edge
      list inside the vertex dictionary, changes no vertex that was there, and
      gives each edge key exactly one entry: a key list from its Left to its
      Right key whose inner keys are all fresh. */
  lemma {:induction false} WithEdgesFacts(g: Graph, es: seq<(int, Edge)>, sub: Subdivision)
    requires Bounded(g) && LinesClosed(g.points, g.lines)
    requires DistinctKeys(es) && (forall i :: 0 <= i < |es| ==> es[i].0 !in g.lines)
    requires WithEdges(g, es, sub).Success?
    ensures var h := WithEdges(g, es, sub).value;
      && Bounded(h)
      && LinesClosed(h.points, h.lines)
      && Extends(g, h)
      && h.lines.Keys == g.lines.Keys + Keys(es)
      && (forall i :: 0 <= i < |es| ==> EdgeLine(h.lines[es[i].0], es[i].1, g.maxKey))
    decreases |es|
  {
    var h := WithEdges(g, es, sub).value;
    if es == [] {
      assert Keys(es) == {};
    } else {
      var (key, e) := es[0];
      WithEdgeFacts(g, key, e, sub);
      var next := WithEdge(g, key, e, sub).value;
      var rest := es[1..];
      KeysTail(es);
      forall i | 0 <= i < |rest| ensures rest[i].0 !in next.lines {
        assert rest[i] == es[i + 1];
      }
      WithEdgesFacts(next, rest, sub);
      forall i | 0 <= i < |es| ensures EdgeLine(h.lines[es[i].0], es[i].1, g.maxKey) {
        if i > 0 {
          assert rest[i - 1] == es[i];
          assert es[0].0 != es[i].0;
        }
      }
    }
  }

  /** When every edge's end keys are already vertex keys, adding the edges
      cannot fail. */
  lemma {:induction false} WithEdgesSucceeds(g: Graph, es: seq<(int, Edge)>, sub: Subdivision)
    requires Bounded(g)
    requires forall i :: 0 <= i < |es| ==> es[i].1.leftVertexId in g.points && es[i].1.rightVertexId in g.points
    ensures WithEdges(g, es, sub).Success?
    decreases |es|
  {
    if es != [] {
      var next := WithEdge(g, es[0].0, es[0].1, sub);
      assert next.Success?;
      if ShouldSubdivide(sub.skip, g.points[es[0].1.leftVertexId], g.points[es[0].1.rightVertexId]) {
        var start := g.points[es[0].1.leftVertexId];
        var end := g.points[es[0].1.rightVertexId];
        MintFacts(g.points, g.maxKey, DropLast(sub.cellEnds(start, end)));
      }
      forall i | 0 <= i < |es| - 1
        ensures es[1..][i].1.leftVertexId in next.value.points && es[1..][i].1.rightVertexId in next.value.points
      {
        assert es[1..][i] == es[i + 1];
      }
      WithEdgesSucceeds(next.value, es[1..], sub);
    }
  }

  /** The error and its cause: building fails exactly when some edge names an
      end key that is neither a vertex key nor a key minted before it. So if
      every end key is a vertex key the build succeeds, and a failed build has
      an edge whose end key is not a vertex key. */
  lemma {:induction false} AnalysisFailsOnlyOnMissingVertex(op: SolidOp, t: Transform, sub: Subdivision)
    requires DistinctKeys(op.solid.vertices)
    ensures var es := op.solid.edges;
      Analysis(op, t, sub).Failure? ==>
        exists i :: 0 <= i < |es| &&
          (es[i].1.leftVertexId !in Keys(op.solid.vertices) || es[i].1.rightVertexId !in Keys(op.solid.vertices))
  {
    var vs := op.solid.vertices;
    var es := op.solid.edges;
    VertexMapKeys(vs, op, t);
    VertexMapValues(vs, op, t);
    MaxKeyBounds(vs);
    var g := Graph(VertexMap(vs, op, t), map[], MaxKey(vs));
    assert Bounded(g) by {
      forall k | k in g.points ensures k <= g.maxKey {
        var i :| 0 <= i < |vs| && vs[i].0 == k;
      }
    }
    if forall i :: 0 <= i < |es| ==> es[i].1.leftVertexId in Keys(vs) && es[i].1.rightVertexId in Keys(vs) {
      WithEdgesSucceeds(g, es, sub);
    }
  }

  /** The invariants of a finished build: every vertex key of the solid maps to
      its placed point, there is exactly one edge entry per edge key, every key
      along an edge is a vertex key, each edge runs from its Left to its Right
      key, and the keys added by subdivision lie above every vertex key of the
      solid, so they never collide with one. */
  lemma {:induction false} AnalysisFacts(op: SolidOp, t: Transform, sub: Subdivision)
    requires DistinctKeys(op.solid.vertices) && DistinctKeys(op.solid.edges)
    requires Analysis(op, t, sub).Success?
    ensures var vs := op.solid.vertices;
      var es := op.solid.edges;
      var h := Analysis(op, t, sub).value;
      && (forall i :: 0 <= i < |vs| ==> vs[i].0 in h.points && h.points[vs[i].0] == Place(op, t, vs[i].1))
      && h.lines.Keys == Keys(es)
      && LinesClosed(h.points, h.lines)
      && (forall i :: 0 <= i < |es| ==> EdgeLine(h.lines[es[i].0], es[i].1, MaxKey(vs)))
      && (forall i :: 0 <= i < |vs| ==> vs[i].0 <= MaxKey(vs))
  {
    var vs := op.solid.vertices;
    VertexMapKeys(vs, op, t);
    VertexMapValues(vs, op, t);
    MaxKeyBounds(vs);
    var g := Graph(VertexMap(vs, op, t), map[], MaxKey(vs));
    assert Bounded(g) by {
      forall k | k in g.points ensures k <= g.maxKey {
        var i :| 0 <= i < |vs| && vs[i].0 == k;
      }
    }
    WithEdgesFacts(g, op.solid.edges, sub);
    forall i | 0 <= i < |vs| ensures vs[i].0 in g.points {
      assert vs[i].0 in Keys(vs);
    }
  }

  class SolidAnalysisObject {
    var points: map<int, Vec3>
    var lines: map<int, seq<int>>
    var surfaces: seq<seq<HalfEdge>>

    /** Every key along every edge is a vertex key. */
    ghost predicate Valid()
      reads this
    {
      LinesClosed(points, lines)
    }

    constructor ()
      ensures points == map[] && lines == map[] && surfaces == []
    {
      points := map[];
      lines := map[];
      surfaces := [];
    }

    /** The vertex loop: each vertex placed in global coordinates under its own
        key, and the largest key (at least 0) returned. */
    method AddVertices(op: SolidOp, t: Transform) returns (maxVertexKey: int)
      requires points == map[]
      modifies this
      ensures points == VertexMap(op.solid.vertices, op, t)
      ensures maxVertexKey == MaxKey(op.solid.vertices)
      ensures lines == old(lines) && surfaces == old(surfaces)
    {
      var vs := op.solid.vertices;
      maxVertexKey := 0;
      for i := 0 to |vs|
        invariant points == VertexMap(vs[..i], op, t)
        invariant maxVertexKey == MaxKey(vs[..i])
        invariant lines == old(lines) && surfaces == old(surfaces)
      {
        var (key, p) := vs[i];
        TakeLast(vs, i);
        points := points[key := Place(op, t, p)];
        if maxVertexKey < key {
          maxVertexKey := key;
        }
      }
      assert vs[..|vs|] == vs;
    }

    /** The edge loop, counter starting at `maxVertexKey`: false on the first
        edge with a missing end vertex, otherwise the dictionaries of
        WithEdges. */
    method AddEdges(es: seq<(int, Edge)>, maxVertexKey: int, sub: Subdivision) returns (ok: bool)
      modifies this
      ensures var r := WithEdges(Graph(old(points), old(lines), maxVertexKey), es, sub);
        ok == r.Success? && (ok ==> points == r.value.points && lines == r.value.lines)
      ensures surfaces == old(surfaces)
    {
      ghost var g0 := Graph(points, lines, maxVertexKey);
      var maxKey := maxVertexKey;
      var i := 0;
      while i < |es|
        invariant 0 <= i <= |es|
        invariant WithEdges(g0, es, sub) == WithEdges(Graph(points, lines, maxKey), es[i..], sub)
        invariant surfaces == old(surfaces)
      {
        var (key, e) := es[i];
        ghost var g := Graph(points, lines, maxKey);
        assert es[i..][0] == es[i] && es[i..][1..] == es[i + 1..];
        if e.leftVertexId in points && e.rightVertexId in points {
          var start := points[e.leftVertexId];
          var end := points[e.rightVertexId];
          if ShouldSubdivide(sub.skip, start, end) {
            var cellEnds := DropLast(sub.cellEnds(start, end));
            ghost var minted := Mint(points, maxKey, cellEnds);
            var indices := [e.leftVertexId];
            var j := 0;
            while j < |cellEnds|
              invariant 0 <= j <= |cellEnds|
              invariant Mint(points, maxKey, cellEnds[j..]) == (minted.0, minted.1[j..], minted.2)
              invariant indices == [e.leftVertexId] + minted.1[..j]
              invariant lines == g.lines && surfaces == old(surfaces)
            {
              assert cellEnds[j..][0] == cellEnds[j] && cellEnds[j..][1..] == cellEnds[j + 1..];
              assert minted.1[j..][0] == minted.1[j] && minted.1[j..][1..] == minted.1[j + 1..];
              var index := maxKey + 1;
              points := points[index := cellEnds[j]];
              indices := indices + [index];
              maxKey := index;
              j := j + 1;
              SplitAround(minted.1, j - 1);
            }
            assert minted.1[..j] == minted.1;
            assert cellEnds[j..] == [];
            indices := indices + [e.rightVertexId];
            lines := lines[key := indices];
            assert WithEdge(g, key, e, sub) == Success(Graph(points, lines, maxKey));
          } else {
            lines := lines[key := [e.leftVertexId, e.rightVertexId]];
            assert WithEdge(g, key, e, sub) == Success(Graph(points, lines, maxKey));
          }
        } else {
          return false;
        }
        i := i + 1;
      }
      return true;
    }

    /** The face loop: one entry per face, holding its outer-loop half-edges in
        order. */
    method AddSurfaces(faces: seq<seq<HalfEdge>>)
      modifies this
      ensures surfaces == old(surfaces) + faces
      ensures points == old(points) && lines == old(lines)
    {
      for f := 0 to |faces|
        invariant surfaces == old(surfaces) + faces[..f]
        invariant points == old(points) && lines == old(lines)
      {
        var edges: seq<HalfEdge> := [];
        for k := 0 to |faces[f]|
          invariant edges == faces[f][..k]
        {
          edges := edges + [faces[f][k]];
          assert faces[f][..k + 1] == faces[f][..k] + [faces[f][k]];
        }
        assert faces[f][..|faces[f]|] == faces[f];
        surfaces := surfaces + [edges];
        SplitAround(faces, f);
      }
      assert faces[..|faces|] == faces;
    }
  }

  /** `o` holds the build of `op` placed by `t`. */
  ghost predicate Models(o: SolidAnalysisObject, op: SolidOp, t: Transform, sub: Subdivision)
    reads o
  {
    var a := Analysis(op, t, sub);
    && a.Success?
    && o.points == a.value.points
    && o.lines == a.value.lines
    && o.surfaces == op.solid.faces
  }

  /** The constructor: vertices, then edges, then faces; the exception becomes
      a Failure. */
  method Create(op: SolidOp, t: Transform, sub: Subdivision) returns (r: Result<SolidAnalysisObject, Error>)
    requires DistinctKeys(op.solid.vertices) && DistinctKeys(op.solid.edges)
    ensures r.Success? <==> Analysis(op, t, sub).Success?
    ensures r.Success? ==> fresh(r.value) && Models(r.value, op, t, sub) && r.value.Valid()
  {
    var o := new SolidAnalysisObject();
    var maxVertexKey := o.AddVertices(op, t);
    var ok := o.AddEdges(op.solid.edges, maxVertexKey, sub);
    if !ok {
      return Failure(MalformedGeometry);
    }
    o.AddSurfaces(op.solid.faces);
    AnalysisFacts(op, t, sub);
    return Success(o);
  }

  /** Every solid operation of every envelope has distinct vertex and edge keys
      (they come from dictionaries). */
  predicate KeyedOps(envelopes: seq<Envelope>)
  {
    forall i :: 0 <= i < |AllOps(envelopes)| ==>
      DistinctKeys(AllOps(envelopes)[i].0.solid.vertices) && DistinctKeys(AllOps(envelopes)[i].0.solid.edges)
  }

  /** The loop over one envelope's operations: one object per operation, or
      the error of the first that fails. */
  method CreateAll(ops: seq<SolidOp>, t: Transform, sub: Subdivision) returns (r: Result<seq<SolidAnalysisObject>, Error>)
    requires forall k :: 0 <= k < |ops| ==> DistinctKeys(ops[k].solid.vertices) && DistinctKeys(ops[k].solid.edges)
    ensures r.Success? <==> forall k :: 0 <= k < |ops| ==> Analysis(ops[k], t, sub).Success?
    ensures r.Success? ==>
      && |r.value| == |ops|
      && forall k :: 0 <= k < |ops| ==> fresh(r.value[k]) && Models(r.value[k], ops[k], t, sub)
  {
    var list: seq<SolidAnalysisObject> := [];
    for k := 0 to |ops|
      invariant |list| == k
      invariant forall i :: 0 <= i < k ==> fresh(list[i]) && Models(list[i], ops[i], t, sub)
    {
      var made := Create(ops[k], t, sub);
      if made.Failure? {
        return Failure(made.error);
      }
      list := list + [made.value];
    }
    return Success(list);
  }

  /** MakeFromEnvelopes: one object per solid operation, in envelope order and
      then operation order, or the error of the first operation that fails. */
  method MakeFromEnvelopes(envelopes: seq<Envelope>, sub: Subdivision) returns (r: Result<seq<SolidAnalysisObject>, Error>)
    requires KeyedOps(envelopes)
    ensures var ops := AllOps(envelopes);
      r.Success? <==> forall i :: 0 <= i < |ops| ==> Analysis(ops[i].0, ops[i].1, sub).Success?
    ensures var ops := AllOps(envelopes);
      r.Success? ==>
        && |r.value| == |ops|
        && forall i :: 0 <= i < |ops| ==> fresh(r.value[i]) && Models(r.value[i], ops[i].0, ops[i].1, sub)
  {
    ghost var ops := AllOps(envelopes);
    var list: seq<SolidAnalysisObject> := [];
    for e := 0 to |envelopes|
      invariant |list| == |AllOps(envelopes[..e])| <= |ops|
      invariant forall i :: 0 <= i < |list| ==> fresh(list[i])
      invariant forall i :: 0 <= i < |list| ==> Models(list[i], ops[i].0, ops[i].1, sub)
    {
      var envelope := envelopes[e];
      ghost var base := |list|;
      EnvelopeOps(envelopes, e);
      var made := CreateAll(envelope.ops, envelope.transform, sub);
      if made.Failure? {
        var k :| 0 <= k < |envelope.ops| && !Analysis(envelope.ops[k], envelope.transform, sub).Success?;
        assert ops[base + k] == (envelope.ops[k], envelope.transform);
        return Failure(made.error);
      }
      ModelsJoin(list, made.value, ops, envelope, sub);
      list := list + made.value;
    }
    assert envelopes[..|envelopes|] == envelopes;
    return Success(list);
  }

  /** The objects made so far followed by those of the next envelope model
      the operations in the same order. */
  lemma {:induction false} ModelsJoin(made: seq<SolidAnalysisObject>, more: seq<SolidAnalysisObject>,
                                      ops: seq<(SolidOp, Transform)>, e: Envelope, sub: Subdivision)
    requires |made| + |more| <= |ops| && |more| == |e.ops|
    requires forall i :: 0 <= i < |made| ==> Models(made[i], ops[i].0, ops[i].1, sub)
    requires forall k :: 0 <= k < |more| ==> ops[|made| + k] == (e.ops[k], e.transform)
    requires forall k :: 0 <= k < |more| ==> Models(more[k], e.ops[k], e.transform, sub)
    ensures forall i :: 0 <= i < |made + more| ==> Models((made + more)[i], ops[i].0, ops[i].1, sub)
  {
    forall i | 0 <= i < |made + more| ensures Models((made + more)[i], ops[i].0, ops[i].1, sub) {
      if i < |made| {
        assert (made + more)[i] == made[i];
      } else {
        var k := i - |made|;
        assert (made + more)[i] == more[k] && ops[i] == (e.ops[k], e.transform);
      }
    }
  }

  /** The e-th envelope's operations sit in the list of all operations right
      after those of the envelopes before it, and have distinct keys. */
  lemma {:induction false} EnvelopeOps(envelopes: seq<Envelope>, e: nat)
    requires e < |envelopes| && KeyedOps(envelopes)
    ensures var base, ops := |AllOps(envelopes[..e])|, envelopes[e].ops;
      && base + |ops| == |AllOps(envelopes[..e + 1])| <= |AllOps(envelopes)|
      && (forall k :: 0 <= k < |ops| ==> AllOps(envelopes)[base + k] == (ops[k], envelopes[e].transform))
      && (forall k :: 0 <= k < |ops| ==> DistinctKeys(ops[k].solid.vertices) && DistinctKeys(ops[k].solid.edges))
  {
    AllOpsStep(envelopes, e);
    forall k | 0 <= k < |envelopes[e].ops|
      ensures AllOps(envelopes)[|AllOps(envelopes[..e])| + k] == (envelopes[e].ops[k], envelopes[e].transform)
    {
      AllOpsIndex(envelopes, e, k);
    }
  }
}
