/** Option and Result, for the source's null values and exceptions. */
module Wrappers {
  datatype Option<+T> = None | Some(value: T)

  datatype Result<+T, +E> = Success(value: T) | Failure(error: E)
}

/** List helpers with the meaning of LINQ's SkipLast(1) and Reverse(). */
module Sequences {
  /** Everything but the last element; nothing for an empty list. */
  function DropLast<T>(s: seq<T>): (r: seq<T>)
    ensures |r| == if |s| == 0 then 0 else |s| - 1
    ensures forall i :: 0 <= i < |r| ==> r[i] == s[i]
  {
    if |s| == 0 then [] else s[..|s| - 1]
  }

  function Reverse<T>(s: seq<T>): (r: seq<T>)
    ensures |r| == |s|
    ensures forall i :: 0 <= i < |s| ==> r[i] == s[|s| - 1 - i]
  {
    seq(|s|, i requires 0 <= i < |s| => s[|s| - 1 - i])
  }

  /** A non-empty list is its front followed by its last element. */
  lemma {:induction false} SplitLast<T>(s: seq<T>)
    requires |s| >= 1
    ensures s == s[..|s| - 1] + [s[|s| - 1]]
  {
  }

  /** The front and the last element of a join whose second part is not
      empty. */
  lemma {:induction false} SplitLastOfAppend<T>(xs: seq<T>, ys: seq<T>)
    requires ys != []
    ensures (xs + ys)[..|xs + ys| - 1] == xs + ys[..|ys| - 1]
    ensures (xs + ys)[|xs + ys| - 1] == ys[|ys| - 1]
  {
  }

  /** The first k + 1 elements are the first k and then the k-th. */
  lemma {:induction false} TakeLast<T>(s: seq<T>, k: nat)
    requires k < |s|
    ensures |s[..k + 1]| == k + 1 && s[..k + 1][..k] == s[..k] && s[..k + 1][k] == s[k]
  {
  }

  /** A list split around its i-th element. */
  lemma {:induction false} SplitAround<T>(s: seq<T>, i: nat)
    requires i < |s|
    ensures s[..i + 1] == s[..i] + [s[i]]
    ensures s == s[..i + 1] + s[i + 1..]
  {
  }
}

/** The massing input as the evaluation receives it: boundary-represented
    solids (integer-keyed vertices, edges and faces) grouped into envelopes. */
module Solids {
  import opened Wrappers
  import opened Sequences
  import opened Geometry

  /** A half-edge of a face loop: the vertex it starts from, the edge it runs
      along, and that edge's Left vertex (HalfEdge.Vertex.Id, HalfEdge.Edge.Id,
      HalfEdge.Edge.Left.Vertex.Id). */
  datatype HalfEdge = HalfEdge(vertexId: int, edgeId: int, edgeLeftVertexId: int)

  /** An edge by the ids of its Left and Right vertices. */
  datatype Edge = Edge(leftVertexId: int, rightVertexId: int)

  /** A solid as its keyed vertices and edges, in dictionary order, and the
      outer loop of each face. */
  datatype Solid = Solid(
    vertices: seq<(int, Vec3)>,
    edges: seq<(int, Edge)>,
    faces: seq<seq<HalfEdge>>)

  /** A solid operation: its solid and its optional local transform. */
  datatype SolidOp = SolidOp(solid: Solid, localTransform: Option<Transform>)

  /** A closed plan outline. */
  datatype Profile = Profile(perimeter: seq<Vec3>)

  /** An envelope: a profile extruded from its elevation by its height, placed
      by its transform and represented by solid operations. */
  datatype Envelope = Envelope(
    profile: Option<Profile>,
    elevation: real,
    height: real,
    transform: Transform,
    ops: seq<SolidOp>)

  predicate DistinctKeys<V>(entries: seq<(int, V)>)
  {
    forall i, j :: 0 <= i < j < |entries| ==> entries[i].0 != entries[j].0
  }

  function Keys<V>(entries: seq<(int, V)>): set<int>
  {
    set i | 0 <= i < |entries| :: entries[i].0
  }

  /** Dropping the first entry of a keyed list keeps the rest distinct and
      none of them carries the first key; the keys are the first key and the
      keys of the rest. */
  lemma {:induction false} KeysTail<V>(entries: seq<(int, V)>)
    requires DistinctKeys(entries) && entries != []
    ensures DistinctKeys(entries[1..])
    ensures forall i :: 0 <= i < |entries| - 1 ==> entries[1..][i] == entries[i + 1] && entries[i + 1].0 != entries[0].0
    ensures Keys(entries) == {entries[0].0} + Keys(entries[1..])
  {
    var rest := entries[1..];
    forall i, j | 0 <= i < j < |rest| ensures rest[i].0 != rest[j].0 {
      assert rest[i] == entries[i + 1] && rest[j] == entries[j + 1];
    }
    forall k | k in Keys(entries) ensures k in {entries[0].0} + Keys(rest) {
      var i :| 0 <= i < |entries| && entries[i].0 == k;
      if i > 0 {
        assert rest[i - 1] == entries[i];
      }
    }
    forall k | k in Keys(rest) ensures k in Keys(entries) {
      var i :| 0 <= i < |rest| && rest[i].0 == k;
      assert entries[i + 1] == rest[i];
    }
  }

  /** One envelope's solid operations, each with the envelope's transform. */
  function OpsOf(e: Envelope): (r: seq<(SolidOp, Transform)>)
    ensures |r| == |e.ops|
  {
    seq(|e.ops|, i requires 0 <= i < |e.ops| => (e.ops[i], e.transform))
  }

  /** The solid operations of all envelopes, in envelope order and then in
      operation order, each with its envelope's transform. */
  function AllOps(envelopes: seq<Envelope>): (r: seq<(SolidOp, Transform)>)
    ensures |r| == TotalOps(envelopes)
  {
    if envelopes == [] then [] else OpsOf(envelopes[0]) + AllOps(envelopes[1..])
  }

  function TotalOps(envelopes: seq<Envelope>): nat
  {
    if envelopes == [] then 0 else |envelopes[0].ops| + TotalOps(envelopes[1..])
  }

  /** Listing the operations of two runs of envelopes one after the other is
      listing those of the joined run. */
  lemma {:induction false} AllOpsAppend(xs: seq<Envelope>, ys: seq<Envelope>)
    ensures AllOps(xs + ys) == AllOps(xs) + AllOps(ys)
    decreases |xs|
  {
    if xs == [] {
      assert xs + ys == ys;
    } else {
      assert (xs + ys)[0] == xs[0] && (xs + ys)[1..] == xs[1..] + ys;
      AllOpsAppend(xs[1..], ys);
    }
  }

  /** The operations of the first e + 1 envelopes are those of the first e
      followed by the e-th envelope's, and they are a prefix of all of them. */
  lemma {:induction false} AllOpsStep(envelopes: seq<Envelope>, e: nat)
    requires e < |envelopes|
    ensures AllOps(envelopes[..e + 1]) == AllOps(envelopes[..e]) + OpsOf(envelopes[e])
    ensures AllOps(envelopes) == AllOps(envelopes[..e + 1]) + AllOps(envelopes[e + 1..])
  {
    SplitAround(envelopes, e);
    AllOpsAppend(envelopes[..e], [envelopes[e]]);
    AllOpsSingle(envelopes[e]);
    AllOpsAppend(envelopes[..e + 1], envelopes[e + 1..]);
  }

  lemma {:induction false} AllOpsSingle(e: Envelope)
    ensures AllOps([e]) == OpsOf(e)
  {
    assert [e][1..] == [];
    assert OpsOf(e) + [] == OpsOf(e);
  }

  /** The k-th operation of the e-th envelope sits right after the operations
      of the envelopes before it. */
  lemma {:induction false} AllOpsIndex(envelopes: seq<Envelope>, e: nat, k: nat)
    requires e < |envelopes| && k < |envelopes[e].ops|
    ensures |AllOps(envelopes[..e])| + k < |AllOps(envelopes)|
    ensures AllOps(envelopes)[|AllOps(envelopes[..e])| + k] == (envelopes[e].ops[k], envelopes[e].transform)
  {
    AllOpsStep(envelopes, e);
    var n := |AllOps(envelopes[..e])|;
    assert AllOps(envelopes)[n + k] == AllOps(envelopes[..e + 1])[n + k] == OpsOf(envelopes[e])[k];
  }
}
