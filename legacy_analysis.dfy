/** The earlier analysis graph (ZR8127Utilities.cs.cs): the same vertex
    dictionary, but long edges are not cut yet (both branches of the length test
    store [Left, Right]) and each face is kept as the ids of its outer-loop
    edges. */
module LegacySolidAnalysis {
  import opened Wrappers
  import opened Geometry
  import opened Solids
  import opened Sequences
  import SolidAnalysis

  /** The length test of the unfinished subdivision branch (no vertical test). */
  predicate LongEdge(skip: bool, start: Vec3, end: Vec3)
  {
    !skip && DistanceSq(start, end) > SolidAnalysis.DivisionLength() * SolidAnalysis.DivisionLength()
  }

  /** The edge dictionary after adding the edges in order to `lines`, or the
      error of the first edge with an end key missing from `points`. */
  function EdgeMap(points: map<int, Vec3>, lines: map<int, seq<int>>, es: seq<(int, Edge)>): Result<map<int, seq<int>>, SolidAnalysis.Error>
    decreases |es|
  {
    if es == [] then Success(lines)
    else
      var e := es[0].1;
      if e.leftVertexId in points && e.rightVertexId in points then
        EdgeMap(points, lines[es[0].0 := [e.leftVertexId, e.rightVertexId]], es[1..])
      else
        Failure(SolidAnalysis.MalformedGeometry)
  }

  /** The ids of the edges of a face's outer loop, in order. */
  function EdgeIds(face: seq<HalfEdge>): (r: seq<int>)
    ensures |r| == |face| && forall k :: 0 <= k < |face| ==> r[k] == face[k].edgeId
  {
    seq(|face|, k requires 0 <= k < |face| => face[k].edgeId)
  }

  /** Here the graph fails exactly when some edge names an end key that is not
      a vertex key; otherwise each edge key gets one entry, [Left, Right]. */
  lemma {:induction false} EdgeMapFacts(points: map<int, Vec3>, lines: map<int, seq<int>>, es: seq<(int, Edge)>)
    requires DistinctKeys(es)
    ensures EdgeMap(points, lines, es).Success? <==>
      forall i :: 0 <= i < |es| ==> es[i].1.leftVertexId in points && es[i].1.rightVertexId in points
    ensures EdgeMap(points, lines, es).Success? ==>
      var m := EdgeMap(points, lines, es).value;
      && m.Keys == lines.Keys + Keys(es)
      && (forall i :: 0 <= i < |es| ==> m[es[i].0] == [es[i].1.leftVertexId, es[i].1.rightVertexId])
      && (forall k :: k in lines && k !in Keys(es) ==> m[k] == lines[k])
    decreases |es|
  {
    if es == [] {
      assert Keys(es) == {};
    } else {
      var (key, e) := es[0];
      var rest := es[1..];
      KeysTail(es);
      var next := lines[key := [e.leftVertexId, e.rightVertexId]];
      EdgeMapFacts(points, next, rest);
      if e.leftVertexId in points && e.rightVertexId in points {
        if EdgeMap(points, lines, es).Success? {
          var m := EdgeMap(points, lines, es).value;
          forall i | 0 <= i < |es| ensures m[es[i].0] == [es[i].1.leftVertexId, es[i].1.rightVertexId] {
            if i > 0 {
              assert rest[i - 1] == es[i];
            }
          }
        }
      }
    }
  }

  class SolidAnalysisObject {
    var points: map<int, Vec3>
    var lines: map<int, seq<int>>
    var surfaces: seq<seq<int>>

    constructor ()
      ensures points == map[] && lines == map[] && surfaces == []
    {
      points := map[];
      lines := map[];
      surfaces := [];
    }

    /** The vertex loop, as in the later version. */
    method AddVertices(op: SolidOp, t: Transform) returns (maxVertexKey: int)
      requires points == map[]
      modifies this
      ensures points == SolidAnalysis.VertexMap(op.solid.vertices, op, t)
      ensures maxVertexKey == SolidAnalysis.MaxKey(op.solid.vertices)
      ensures lines == old(lines) && surfaces == old(surfaces)
    {
      var vs := op.solid.vertices;
      maxVertexKey := 0;
      for i := 0 to |vs|
        invariant points == SolidAnalysis.VertexMap(vs[..i], op, t)
        invariant maxVertexKey == SolidAnalysis.MaxKey(vs[..i])
        invariant lines == old(lines) && surfaces == old(surfaces)
      {
        var (key, p) := vs[i];
        TakeLast(vs, i);
        points := points[key := SolidAnalysis.Place(op, t, p)];
        if maxVertexKey < key {
          maxVertexKey := key;
        }
      }
      assert vs[..|vs|] == vs;
    }

    /** The edge loop: false on the first edge with a missing end vertex,
        otherwise the dictionary of EdgeMap. */
    method AddEdges(es: seq<(int, Edge)>, skip: bool) returns (ok: bool)
      modifies this
      ensures var r := EdgeMap(old(points), old(lines), es);
        ok == r.Success? && (ok ==> lines == r.value)
      ensures points == old(points) && surfaces == old(surfaces)
    {
      var i := 0;
      while i < |es|
        invariant 0 <= i <= |es|
        invariant EdgeMap(points, old(lines), es) == EdgeMap(points, lines, es[i..])
        invariant points == old(points) && surfaces == old(surfaces)
      {
        var (key, e) := es[i];
        assert es[i..][0] == es[i] && es[i..][1..] == es[i + 1..];
        if e.leftVertexId in points && e.rightVertexId in points {
          var start := points[e.leftVertexId];
          var end := points[e.rightVertexId];
          if LongEdge(skip, start, end) {
            lines := lines[key := [e.leftVertexId, e.rightVertexId]];
          } else {
            lines := lines[key := [e.leftVertexId, e.rightVertexId]];
          }
        } else {
          return false;
        }
        i := i + 1;
      }
      return true;
    }

    /** The face loop: one list per face, the ids of its outer-loop edges. */
    method AddSurfaces(faces: seq<seq<HalfEdge>>)
      modifies this
      ensures surfaces == old(surfaces) + Surfaces(faces)
      ensures points == old(points) && lines == old(lines)
    {
      ghost var all := Surfaces(faces);
      for f := 0 to |faces|
        invariant surfaces == old(surfaces) + all[..f]
        invariant points == old(points) && lines == old(lines)
      {
        var edges: seq<int> := [];
        for k := 0 to |faces[f]|
          invariant edges == EdgeIds(faces[f][..k])
        {
          edges := edges + [faces[f][k].edgeId];
        }
        assert faces[f][..|faces[f]|] == faces[f];
        surfaces := surfaces + [edges];
        SplitAround(all, f);
      }
      assert all[..|faces|] == all;
    }
  }

  /** The faces as lists of edge ids. */
  function Surfaces(faces: seq<seq<HalfEdge>>): (r: seq<seq<int>>)
    ensures |r| == |faces| && forall f :: 0 <= f < |faces| ==> r[f] == EdgeIds(faces[f])
  {
    seq(|faces|, f requires 0 <= f < |faces| => EdgeIds(faces[f]))
  }

  /** The earlier build of `op` placed by `t` does not fail. */
  predicate Builds(op: SolidOp, t: Transform)
  {
    EdgeMap(SolidAnalysis.VertexMap(op.solid.vertices, op, t), map[], op.solid.edges).Success?
  }

  /** `o` holds the earlier build of `op` placed by `t`. */
  ghost predicate Models(o: SolidAnalysisObject, op: SolidOp, t: Transform)
    reads o
  {
    var points := SolidAnalysis.VertexMap(op.solid.vertices, op, t);
    var m := EdgeMap(points, map[], op.solid.edges);
    && m.Success?
    && o.points == points
    && o.lines == m.value
    && o.surfaces == Surfaces(op.solid.faces)
  }

  /** The earlier constructor: vertices, then edges, then faces; the exception
      becomes a Failure. */
  method Create(op: SolidOp, t: Transform, skip: bool) returns (r: Result<SolidAnalysisObject, SolidAnalysis.Error>)
    ensures r.Success? <==> Builds(op, t)
    ensures r.Success? ==> fresh(r.value) && Models(r.value, op, t)
  {
    var o := new SolidAnalysisObject();
    var _ := o.AddVertices(op, t);
    var ok := o.AddEdges(op.solid.edges, skip);
    if !ok {
      return Failure(SolidAnalysis.MalformedGeometry);
    }
    o.AddSurfaces(op.solid.faces);
    return Success(o);
  }

  /** The earlier build fails exactly when some edge names an end key that is
      not a vertex key; otherwise the points are exactly the placed vertices
      and every edge key maps to [Left, Right], whatever its length. */
  lemma {:induction false} BuildFacts(op: SolidOp, t: Transform)
    requires DistinctKeys(op.solid.vertices) && DistinctKeys(op.solid.edges)
    ensures var vs := op.solid.vertices;
      var es := op.solid.edges;
      Builds(op, t) <==> forall i :: 0 <= i < |es| ==> es[i].1.leftVertexId in Keys(vs) && es[i].1.rightVertexId in Keys(vs)
    ensures Builds(op, t) ==>
      var vs := op.solid.vertices;
      var es := op.solid.edges;
      var points := SolidAnalysis.VertexMap(vs, op, t);
      var lines := EdgeMap(points, map[], es).value;
      && points.Keys == Keys(vs)
      && (forall i :: 0 <= i < |vs| ==> points[vs[i].0] == SolidAnalysis.Place(op, t, vs[i].1))
      && lines.Keys == Keys(es)
      && (forall i :: 0 <= i < |es| ==> lines[es[i].0] == [es[i].1.leftVertexId, es[i].1.rightVertexId])
  {
    var points := SolidAnalysis.VertexMap(op.solid.vertices, op, t);
    SolidAnalysis.VertexMapKeys(op.solid.vertices, op, t);
    SolidAnalysis.VertexMapValues(op.solid.vertices, op, t);
    EdgeMapFacts(points, map[], op.solid.edges);
  }

  /** The loop over one envelope's operations. */
  method CreateAll(ops: seq<SolidOp>, t: Transform, skip: bool) returns (r: Result<seq<SolidAnalysisObject>, SolidAnalysis.Error>)
    ensures r.Success? <==> forall k :: 0 <= k < |ops| ==> Builds(ops[k], t)
    ensures r.Success? ==>
      && |r.value| == |ops|
      && forall k :: 0 <= k < |ops| ==> fresh(r.value[k]) && Models(r.value[k], ops[k], t)
  {
    var list: seq<SolidAnalysisObject> := [];
    for k := 0 to |ops|
      invariant |list| == k
      invariant forall i :: 0 <= i < k ==> fresh(list[i]) && Models(list[i], ops[i], t)
    {
      var made := Create(ops[k], t, skip);
      if made.Failure? {
        return Failure(made.error);
      }
      list := list + [made.value];
    }
    return Success(list);
  }

  /** MakeFromEnvelopes: one object per solid operation, in envelope order and
      then operation order, or the error of the first operation that fails. */
  method MakeFromEnvelopes(envelopes: seq<Envelope>, skip: bool) returns (r: Result<seq<SolidAnalysisObject>, SolidAnalysis.Error>)
    ensures var ops := AllOps(envelopes);
      r.Success? <==> forall i :: 0 <= i < |ops| ==> Builds(ops[i].0, ops[i].1)
    ensures var ops := AllOps(envelopes);
      r.Success? ==>
        && |r.value| == |ops|
        && forall i :: 0 <= i < |ops| ==> fresh(r.value[i]) && Models(r.value[i], ops[i].0, ops[i].1)
  {
    ghost var ops := AllOps(envelopes);
    var list: seq<SolidAnalysisObject> := [];
    for e := 0 to |envelopes|
      invariant |list| == |AllOps(envelopes[..e])| <= |ops|
      invariant forall i :: 0 <= i < |list| ==> fresh(list[i])
      invariant forall i :: 0 <= i < |list| ==> Models(list[i], ops[i].0, ops[i].1)
    {
      var envelope := envelopes[e];
      ghost var base := |list|;
      EnvelopeOps(envelopes, e);
      var made := CreateAll(envelope.ops, envelope.transform, skip);
      if made.Failure? {
        var k :| 0 <= k < |envelope.ops| && !Builds(envelope.ops[k], envelope.transform);
        assert ops[base + k] == (envelope.ops[k], envelope.transform);
        return Failure(made.error);
      }
      ModelsJoin(list, made.value, ops, envelope);
      list := list + made.value;
    }
    assert envelopes[..|envelopes|] == envelopes;
    return Success(list);
  }

  /** The objects made so far followed by those of the next envelope model
      the operations in the same order. */
  lemma {:induction false} ModelsJoin(made: seq<SolidAnalysisObject>, more: seq<SolidAnalysisObject>,
                                      ops: seq<(SolidOp, Transform)>, e: Envelope)
    requires |made| + |more| <= |ops| && |more| == |e.ops|
    requires forall i :: 0 <= i < |made| ==> Models(made[i], ops[i].0, ops[i].1)
    requires forall k :: 0 <= k < |more| ==> ops[|made| + k] == (e.ops[k], e.transform)
    requires forall k :: 0 <= k < |more| ==> Models(more[k], e.ops[k], e.transform)
    ensures forall i :: 0 <= i < |made + more| ==> Models((made + more)[i], ops[i].0, ops[i].1)
  {
    forall i | 0 <= i < |made + more| ensures Models((made + more)[i], ops[i].0, ops[i].1) {
      if i < |made| {
        assert (made + more)[i] == made[i];
      } else {
        var k := i - |made|;
        assert (made + more)[i] == more[k] && ops[i] == (e.ops[k], e.transform);
      }
    }
  }

  /** The e-th envelope's operations sit in the list of all operations right
      after those of the envelopes before it. */
  lemma {:induction false} EnvelopeOps(envelopes: seq<Envelope>, e: nat)
    requires e < |envelopes|
    ensures var base, ops := |AllOps(envelopes[..e])|, envelopes[e].ops;
      && base + |ops| == |AllOps(envelopes[..e + 1])| <= |AllOps(envelopes)|
      && (forall k :: 0 <= k < |ops| ==> AllOps(envelopes)[base + k] == (ops[k], envelopes[e].transform))
  {
    AllOpsStep(envelopes, e);
    forall k | 0 <= k < |envelopes[e].ops|
      ensures AllOps(envelopes)[|AllOps(envelopes[..e])| + k] == (envelopes[e].ops[k], envelopes[e].transform)
    {
      AllOpsIndex(envelopes, e, k);
    }
  }
}
