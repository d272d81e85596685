/** The evaluation entry point (NYCZR8127DaylightEvaluation.cs): input checks,
    the East Midtown envelopes cut at 150 ft, the choice of site, and the
    aggregation of vantage point scores into street scores, an overall score
    and a PASS/FAIL verdict. What the diagrams of each street score is given:
    the diagram drawing that produces it is not part of this model. */
module Evaluation {
  import opened Wrappers
  import opened Geometry
  import opened Solids
  import opened Sequences
  import SolidAnalysis

  datatype EvaluationError =
    | NoSitesInModel                       // sites[0] on a model with no site
    | NoSite                               // no Site model
    | NoEnvelopes                          // no Envelope model, or no envelopes in it
    | Malformed(cause: SolidAnalysis.Error) // MakeFromEnvelopes threw
    | MissingProfile                       // an envelope to cut has no profile
    | NoVantageStreets                     // no vantage street given
    | NoVantagePoints                      // vantagePoints[0] on a street without any

  // ---------------------------------------------------------------------------
  // getSite

  /** A site by its perimeter. */
  datatype Site = Site(perimeter: seq<Vec3>)

  /** The index of the first site with the largest perimeter area (the stable
      OrderByDescending puts it first). */
  function FirstLargest(sites: seq<Site>, area: seq<Vec3> -> real): (i: nat)
    requires |sites| > 0
    ensures i < |sites|
    ensures forall j :: 0 <= j < |sites| ==> area(sites[j].perimeter) <= area(sites[i].perimeter)
    ensures forall j :: 0 <= j < i ==> area(sites[j].perimeter) < area(sites[i].perimeter)
  {
    if |sites| == 1 then 0
    else
      var k := FirstLargest(sites[1..], area) + 1;
      if area(sites[0].perimeter) >= area(sites[k].perimeter) then 0 else k
  }

  /** getSite: nothing for a missing model, the largest site otherwise; a
      model without sites fails on sites[0]. */
  function GetSite(model: Option<seq<Site>>, area: seq<Vec3> -> real): Result<Option<Site>, EvaluationError>
  {
    if model.None? then Success(None)
    else if model.value == [] then Failure(NoSitesInModel)
    else Success(Some(model.value[FirstLargest(model.value, area)]))
  }

  /** The site getSite picks has an area no other site exceeds, and every
      site before it has a smaller area; the errors are exactly the empty
      model's. */
  lemma {:induction false} GetSiteMeaning(model: Option<seq<Site>>, area: seq<Vec3> -> real)
    ensures GetSite(model, area) == Success(None) <==> model.None?
    ensures GetSite(model, area).Failure? <==> model == Some([])
    ensures GetSite(model, area).Success? && GetSite(model, area).value.Some? ==>
      exists i :: 0 <= i < |model.value| && model.value[i] == GetSite(model, area).value.value
        && (forall j :: 0 <= j < |model.value| ==> area(model.value[j].perimeter) <= area(model.value[i].perimeter))
        && (forall j :: 0 <= j < i ==> area(model.value[j].perimeter) < area(model.value[i].perimeter))
  {
    if model.Some? && model.value != [] {
      var i := FirstLargest(model.value, area);
      assert model.value[i] == GetSite(model, area).value.value;
    }
  }

  // ---------------------------------------------------------------------------
  // getEastMidtownEnvelopes

  /** The East Midtown cut height. */
  const CutHeight: real := FeetToMeters(150.0)

  function Top(e: Envelope): real
  {
    e.elevation + e.height
  }

  /** An envelope that crosses the cut height but has no profile to extrude. */
  predicate Unprofiled(e: Envelope)
  {
    !(Top(e) < CutHeight) && !(e.elevation >= CutHeight) && e.profile.None?
  }

  /** The piece below the cut: the profile extruded from 0 to the cut. */
  function LowerPiece(p: Profile, extrude: (Profile, real) -> SolidOp): Envelope
  {
    Envelope(Some(p), 0.0, CutHeight, IdentityTransform(), [extrude(p, CutHeight)])
  }

  /** The piece above the cut: the profile extruded from the cut to `top`,
      moved up by the cut height. */
  function UpperPiece(p: Profile, top: real, extrude: (Profile, real) -> SolidOp): Envelope
  {
    Envelope(Some(p), CutHeight, top - CutHeight, Translation(Vec3(0.0, 0.0, CutHeight)), [extrude(p, top - CutHeight)])
  }

  /** What one envelope contributes: nothing below the cut, itself above it,
      and the two pieces when it crosses it (nothing when it has no profile,
      where the source fails instead). */
  function PiecesOf(e: Envelope, extrude: (Profile, real) -> SolidOp): seq<Envelope>
  {
    if Top(e) < CutHeight then []
    else if e.elevation >= CutHeight then [e]
    else if e.profile.None? then []
    else [LowerPiece(e.profile.value, extrude), UpperPiece(e.profile.value, Top(e), extrude)]
  }

  /** getEastMidtownEnvelopes, envelope by envelope. */
  function EastMidtownEnvelopes(envelopes: seq<Envelope>, extrude: (Profile, real) -> SolidOp)
    : Result<seq<Envelope>, EvaluationError>
  {
    if envelopes == [] then Success([])
    else
      var before := EastMidtownEnvelopes(envelopes[..|envelopes| - 1], extrude);
      var last := envelopes[|envelopes| - 1];
      if before.Failure? then before
      else if Unprofiled(last) then Failure(MissingProfile)
      else Success(before.value + PiecesOf(last, extrude))
  }

  /** The split fails, with MissingProfile, exactly when some envelope crossing
      the cut has no profile. */
  lemma {:induction false} EastMidtownFailure(envelopes: seq<Envelope>, extrude: (Profile, real) -> SolidOp)
    ensures EastMidtownEnvelopes(envelopes, extrude).Failure? <==>
      exists i :: 0 <= i < |envelopes| && Unprofiled(envelopes[i])
    ensures EastMidtownEnvelopes(envelopes, extrude).Failure? ==>
      EastMidtownEnvelopes(envelopes, extrude).error == MissingProfile
    decreases |envelopes|
  {
    if envelopes != [] {
      var init := envelopes[..|envelopes| - 1];
      EastMidtownFailure(init, extrude);
      if exists i :: 0 <= i < |init| && Unprofiled(init[i]) {
        var i :| 0 <= i < |init| && Unprofiled(init[i]);
        assert envelopes[i] == init[i];
      }
      if exists i :: 0 <= i < |envelopes| && Unprofiled(envelopes[i]) {
        var i :| 0 <= i < |envelopes| && Unprofiled(envelopes[i]);
        if i < |init| {
          assert init[i] == envelopes[i];
        }
      }
    }
  }

  /** On success the blockage envelopes are exactly the pieces of the input
      envelopes: an envelope below the cut is dropped, one above it is kept
      as it is, and one crossing it becomes its two pieces. */
  lemma {:induction false} EastMidtownMembers(envelopes: seq<Envelope>, extrude: (Profile, real) -> SolidOp, o: Envelope)
    requires EastMidtownEnvelopes(envelopes, extrude).Success?
    ensures o in EastMidtownEnvelopes(envelopes, extrude).value <==>
      exists i :: 0 <= i < |envelopes| && o in PiecesOf(envelopes[i], extrude)
    decreases |envelopes|
  {
    if envelopes != [] {
      var init := envelopes[..|envelopes| - 1];
      var last := |envelopes| - 1;
      EastMidtownSnoc(envelopes, extrude);
      EastMidtownMembers(init, extrude, o);
      if o in EastMidtownEnvelopes(init, extrude).value {
        var i :| 0 <= i < |init| && o in PiecesOf(init[i], extrude);
        assert envelopes[i] == init[i];
      }
      if exists i :: 0 <= i < |envelopes| && o in PiecesOf(envelopes[i], extrude) {
        var i :| 0 <= i < |envelopes| && o in PiecesOf(envelopes[i], extrude);
        if i < last {
          assert init[i] == envelopes[i];
        }
      }
    }
  }

  /** Every piece reaches the cut height, and a piece that starts below it is
      a lower piece: from 0 up to exactly the cut. An upper piece ends where
      its envelope did. */
  lemma {:induction false} PiecesShape(e: Envelope, extrude: (Profile, real) -> SolidOp)
    ensures forall o :: o in PiecesOf(e, extrude) ==>
      && Top(o) >= CutHeight
      && (o.elevation >= CutHeight || (o.elevation == 0.0 && o.height == CutHeight))
    ensures Top(e) < CutHeight ==> PiecesOf(e, extrude) == []
    ensures e.elevation >= CutHeight && Top(e) >= CutHeight ==> PiecesOf(e, extrude) == [e]
    ensures !(Top(e) < CutHeight) && e.elevation < CutHeight && e.profile.Some? ==>
      var ps := PiecesOf(e, extrude);
      |ps| == 2 && ps[0].elevation == 0.0 && Top(ps[0]) == CutHeight
      && ps[1].elevation == CutHeight && Top(ps[1]) == Top(e)
      && ps[0].profile == ps[1].profile == e.profile
  {
  }

  /** The keys of a solid operation are distinct. */
  predicate KeyedOp(op: SolidOp)
  {
    DistinctKeys(op.solid.vertices) && DistinctKeys(op.solid.edges)
  }

  lemma {:induction false} KeyedOpsAppend(xs: seq<Envelope>, ys: seq<Envelope>)
    ensures SolidAnalysis.KeyedOps(xs + ys) <==> SolidAnalysis.KeyedOps(xs) && SolidAnalysis.KeyedOps(ys)
  {
    AllOpsAppend(xs, ys);
    KeyedOpsList(xs);
    KeyedOpsList(ys);
    KeyedOpsList(xs + ys);
    KeyedListAppend(AllOps(xs), AllOps(ys));
  }

  /** Every operation of a list has distinct keys. */
  predicate KeyedList(ops: seq<(SolidOp, Transform)>)
  {
    forall i :: 0 <= i < |ops| ==> KeyedOp(ops[i].0)
  }

  lemma {:induction false} KeyedOpsList(envelopes: seq<Envelope>)
    ensures SolidAnalysis.KeyedOps(envelopes) <==> KeyedList(AllOps(envelopes))
  {
  }

  lemma {:induction false} KeyedListAppend(a: seq<(SolidOp, Transform)>, b: seq<(SolidOp, Transform)>)
    ensures KeyedList(a + b) <==> KeyedList(a) && KeyedList(b)
  {
    if KeyedList(a) && KeyedList(b) {
      forall i | 0 <= i < |a + b| ensures KeyedOp((a + b)[i].0) {
        if i < |a| {
          assert (a + b)[i] == a[i];
        } else {
          assert (a + b)[i] == b[i - |a|];
        }
      }
    }
    if KeyedList(a + b) {
      forall i | 0 <= i < |a| ensures KeyedOp(a[i].0) {
        assert (a + b)[i] == a[i];
      }
      forall i | 0 <= i < |b| ensures KeyedOp(b[i].0) {
        assert (a + b)[i + |a|] == b[i];
      }
    }
  }

  lemma {:induction false} KeyedOpsSingle(e: Envelope)
    ensures SolidAnalysis.KeyedOps([e]) <==> forall k :: 0 <= k < |e.ops| ==> KeyedOp(e.ops[k])
  {
    assert [e][1..] == [];
    assert AllOps([e]) == OpsOf(e);
    assert forall k :: 0 <= k < |e.ops| ==> OpsOf(e)[k].0 == e.ops[k];
  }

  /** Splitting keeps keys distinct: the pieces are input envelopes or single
      extrusions, whose solids have distinct keys. */
  lemma {:induction false} EastMidtownKeyed(envelopes: seq<Envelope>, extrude: (Profile, real) -> SolidOp)
    requires SolidAnalysis.KeyedOps(envelopes)
    requires forall p, h :: KeyedOp(extrude(p, h))
    requires EastMidtownEnvelopes(envelopes, extrude).Success?
    ensures SolidAnalysis.KeyedOps(EastMidtownEnvelopes(envelopes, extrude).value)
    decreases |envelopes|
  {
    if envelopes != [] {
      var init := envelopes[..|envelopes| - 1];
      var last := envelopes[|envelopes| - 1];
      SplitLast(envelopes);
      KeyedOpsAppend(init, [last]);
      EastMidtownSnoc(envelopes, extrude);
      EastMidtownKeyed(init, extrude);
      PiecesKeyed(last, extrude);
      KeyedOpsAppend(EastMidtownEnvelopes(init, extrude).value, PiecesOf(last, extrude));
    }
  }

  /** The pieces of an envelope whose operations have distinct keys have
      distinct keys too. */
  lemma {:induction false} PiecesKeyed(e: Envelope, extrude: (Profile, real) -> SolidOp)
    requires SolidAnalysis.KeyedOps([e])
    requires forall p, h :: KeyedOp(extrude(p, h))
    ensures SolidAnalysis.KeyedOps(PiecesOf(e, extrude))
  {
    var pieces := PiecesOf(e, extrude);
    if |pieces| == 2 {
      assert pieces == [pieces[0]] + [pieces[1]];
      KeyedOpsAppend([pieces[0]], [pieces[1]]);
      KeyedOpsSingle(pieces[0]);
      KeyedOpsSingle(pieces[1]);
    } else if |pieces| == 0 {
      assert AllOps(pieces) == [];
    }
  }

  /** The split of a list of envelopes is the split of all but the last,
      followed by the last one's pieces. */
  lemma {:induction false} EastMidtownSnoc(envelopes: seq<Envelope>, extrude: (Profile, real) -> SolidOp)
    requires envelopes != [] && EastMidtownEnvelopes(envelopes, extrude).Success?
    ensures var init := envelopes[..|envelopes| - 1];
      && EastMidtownEnvelopes(init, extrude).Success?
      && EastMidtownEnvelopes(envelopes, extrude).value
         == EastMidtownEnvelopes(init, extrude).value + PiecesOf(envelopes[|envelopes| - 1], extrude)
  {
  }


  /** getEastMidtownEnvelopes: the loop that builds the blockage envelopes. */
  method GetEastMidtownEnvelopes(envelopes: seq<Envelope>, extrude: (Profile, real) -> SolidOp)
    returns (r: Result<seq<Envelope>, EvaluationError>)
    ensures r == EastMidtownEnvelopes(envelopes, extrude)
  {
    var envelopesForBlockage: seq<Envelope> := [];
    for k := 0 to |envelopes|
      invariant EastMidtownEnvelopes(envelopes[..k], extrude) == Success(envelopesForBlockage)
    {
      var envelope := envelopes[k];
      TakeLast(envelopes, k);
      var bottom := envelope.elevation;
      var top := bottom + envelope.height;
      assert envelopes[..k + 1][k] == envelope;
      if top < CutHeight {
        // below the cut height: thrown away
        assert PiecesOf(envelope, extrude) == [];
        assert envelopesForBlockage + [] == envelopesForBlockage;
        assert EastMidtownEnvelopes(envelopes[..k + 1], extrude) == Success(envelopesForBlockage);
      } else if bottom >= CutHeight {
        envelopesForBlockage := envelopesForBlockage + [envelope];
        assert PiecesOf(envelope, extrude) == [envelope];
        assert EastMidtownEnvelopes(envelopes[..k + 1], extrude) == Success(envelopesForBlockage);
      } else {
        if envelope.profile.None? {
          EastMidtownFailure(envelopes[..k + 1], extrude);
          EastMidtownFailure(envelopes, extrude);
          assert envelopes[k] == envelopes[..k + 1][k];
          return Failure(MissingProfile);
        }
        ghost var before := envelopesForBlockage;
        var env1 := LowerPiece(envelope.profile.value, extrude);
        envelopesForBlockage := envelopesForBlockage + [env1];
        var env2 := UpperPiece(envelope.profile.value, top, extrude);
        envelopesForBlockage := envelopesForBlockage + [env2];
        assert PiecesOf(envelope, extrude) == [env1, env2];
        assert envelopesForBlockage == before + [env1, env2];
        assert EastMidtownEnvelopes(envelopes[..k + 1], extrude) == Success(envelopesForBlockage);
      }
    }
    assert envelopes[..|envelopes|] == envelopes;
    return Success(envelopesForBlockage);
  }

  // ---------------------------------------------------------------------------
  // Scores

  /** What the diagrams of one vantage street yield: each vantage point's
      daylight score, and the length of the first one's front lot line. */
  datatype StreetDiagrams = StreetDiagrams(vantagePointScores: seq<real>, frontLotLineLength: real)

  /** A double division: finite unless the divisor is zero, and then NaN for
      0/0 and an infinity of the dividend's sign otherwise. */
  datatype Score = Finite(value: real) | NaN | PositiveInfinity | NegativeInfinity

  function Divide(x: real, y: real): Score
  {
    if y != 0.0 then Finite(x / y)
    else if x == 0.0 then NaN
    else if x > 0.0 then PositiveInfinity
    else NegativeInfinity
  }

  /** `s < t` on doubles: false for NaN. */
  predicate Below(s: Score, t: real)
  {
    match s
    case Finite(v) => v < t
    case NaN => false
    case PositiveInfinity => false
    case NegativeInfinity => true
  }

  datatype Verdict = Pass | Fail

  datatype Outputs = Outputs(lowestScore: real, overallScore: Score, result: Verdict)

  const LowestPassingScore: real := 66.0
  const OverallPassingScore: real := 75.0
  const SubdistrictOverallPassingScore: real := 66.0

  /** Aggregate(0.0, sum + score): the left-to-right sum. */
  function Sum(xs: seq<real>): real
  {
    if xs == [] then 0.0 else Sum(xs[..|xs| - 1]) + xs[|xs| - 1]
  }

  /** A street's score: the mean of its vantage point scores. */
  function StreetScore(scores: seq<real>): real
    requires |scores| > 0
  {
    Sum(scores) / (|scores| as real)
  }

  predicate HasVantagePoints(streets: seq<StreetDiagrams>)
  {
    forall i :: 0 <= i < |streets| ==> |streets[i].vantagePointScores| > 0
  }

  function StreetScores(streets: seq<StreetDiagrams>): (r: seq<real>)
    requires HasVantagePoints(streets)
    ensures |r| == |streets|
  {
    if streets == [] then []
    else StreetScores(streets[..|streets| - 1]) + [StreetScore(streets[|streets| - 1].vantagePointScores)]
  }

  /** Each street's length: its first vantage point's front lot line length. */
  function Lengths(streets: seq<StreetDiagrams>): (r: seq<real>)
    ensures |r| == |streets|
  {
    if streets == [] then []
    else Lengths(streets[..|streets| - 1]) + [streets[|streets| - 1].frontLotLineLength]
  }

  /** The left-to-right sum of xs[i] * ys[i]. */
  function Weighted(xs: seq<real>, ys: seq<real>): real
    requires |xs| == |ys|
  {
    if xs == [] then 0.0
    else Weighted(xs[..|xs| - 1], ys[..|ys| - 1]) + xs[|xs| - 1] * ys[|ys| - 1]
  }

  /** The first of the scores once ordered: their minimum. */
  function Lowest(xs: seq<real>): (m: real)
    requires |xs| > 0
    ensures m in xs
    ensures forall i :: 0 <= i < |xs| ==> m <= xs[i]
  {
    if |xs| == 1 then xs[0]
    else
      var rest := Lowest(xs[1..]);
      if xs[0] <= rest then xs[0] else rest
  }

  /** The largest score, the reference the overall score is bounded by. */
  function Highest(xs: seq<real>): (m: real)
    requires |xs| > 0
    ensures m in xs
    ensures forall i :: 0 <= i < |xs| ==> xs[i] <= m
  {
    if |xs| == 1 then xs[0]
    else
      var rest := Highest(xs[1..]);
      if xs[0] >= rest then xs[0] else rest
  }

  /** The PASS rule: the lowest street score reaches 66, and the overall score
      is not below 66 in the East Midtown subdistrict and 75 elsewhere. */
  predicate Passes(lowest: real, overall: Score, subdistrict: bool)
  {
    lowest >= LowestPassingScore
    && !Below(overall, if subdistrict then SubdistrictOverallPassingScore else OverallPassingScore)
  }

  /** The scoring part of Execute, from the diagrams of each street. */
  function Scores(streets: seq<StreetDiagrams>, subdistrict: bool): Result<Outputs, EvaluationError>
  {
    if streets == [] then Failure(NoVantageStreets)
    else if !HasVantagePoints(streets) then Failure(NoVantagePoints)
    else
      var lowest := Lowest(StreetScores(streets));
      var overall := Divide(Weighted(StreetScores(streets), Lengths(streets)), Sum(Lengths(streets)));
      Success(Outputs(lowest, overall, if Passes(lowest, overall, subdistrict) then Pass else Fail))
  }

  /** The street loop of Execute: each street's mean score, the running total
      of lengths and of score times length, then the pass flag cleared by
      each rule it breaks. */
  /** The scores, lengths and sums of the first k + 1 streets from those of
      the first k. */
  lemma {:induction false} ScoreStreetsStep(streets: seq<StreetDiagrams>, k: nat)
    requires k < |streets| && HasVantagePoints(streets[..k]) && |streets[k].vantagePointScores| > 0
    ensures var p, q, len := streets[..k], streets[..k + 1], streets[k].frontLotLineLength;
      && HasVantagePoints(q)
      && StreetScores(q) == StreetScores(p) + [StreetScore(streets[k].vantagePointScores)]
      && Lengths(q) == Lengths(p) + [len]
      && Sum(Lengths(q)) == Sum(Lengths(p)) + len
      && Weighted(StreetScores(q), Lengths(q))
         == Weighted(StreetScores(p), Lengths(p)) + StreetScore(streets[k].vantagePointScores) * len
  {
    var p, q := streets[..k], streets[..k + 1];
    TakeLast(streets, k);
    SumSnoc(Lengths(p), streets[k].frontLotLineLength);
    WeightedSnoc(StreetScores(p), Lengths(p), StreetScore(streets[k].vantagePointScores), streets[k].frontLotLineLength);
  }

  method ScoreStreets(streets: seq<StreetDiagrams>, subdistrict: bool) returns (r: Result<Outputs, EvaluationError>)
    ensures r == Scores(streets, subdistrict)
  {
    if |streets| < 1 {
      return Failure(NoVantageStreets);
    }
    var streetScores: seq<real> := [];
    var streetLengths := 0.0;
    var streetScoresTimesLengths := 0.0;
    for k := 0 to |streets|
      invariant HasVantagePoints(streets[..k])
      invariant streetScores == StreetScores(streets[..k])
      invariant streetLengths == Sum(Lengths(streets[..k]))
      invariant streetScoresTimesLengths == Weighted(streetScores, Lengths(streets[..k]))
    {
      var vantagePoints := streets[k].vantagePointScores;
      if |vantagePoints| == 0 {
        assert !HasVantagePoints(streets);
        return Failure(NoVantagePoints);
      }
      ScoreStreetsStep(streets, k);
      var sumScores := Sum(vantagePoints);
      var vantageStreetScore := sumScores / (|vantagePoints| as real);
      var vantageStreetLength := streets[k].frontLotLineLength;
      streetScores := streetScores + [vantageStreetScore];
      streetLengths := streetLengths + vantageStreetLength;
      streetScoresTimesLengths := streetScoresTimesLengths + vantageStreetScore * vantageStreetLength;
    }
    assert streets[..|streets|] == streets;
    var lowestStreetScore := Lowest(streetScores);
    var overallScore := Divide(streetScoresTimesLengths, streetLengths);

    var pass := true;
    if lowestStreetScore < LowestPassingScore {
      pass := false;
    }
    if !subdistrict && Below(overallScore, OverallPassingScore) {
      pass := false;
    }
    if subdistrict && Below(overallScore, SubdistrictOverallPassingScore) {
      pass := false;
    }
    return Success(Outputs(lowestStreetScore, overallScore, if pass then Pass else Fail));
  }

  /** Scores in [lo, hi] sum to between lo and hi times their count. */
  lemma {:induction false} SumBounds(xs: seq<real>, lo: real, hi: real)
    requires forall i :: 0 <= i < |xs| ==> lo <= xs[i] <= hi
    ensures lo * (|xs| as real) <= Sum(xs) <= hi * (|xs| as real)
    decreases |xs|
  {
    if xs != [] {
      var init := xs[..|xs| - 1];
      assert forall i :: 0 <= i < |init| ==> init[i] == xs[i];
      SumBounds(init, lo, hi);
      assert lo * (|xs| as real) == lo * (|init| as real) + lo;
      assert hi * (|xs| as real) == hi * (|init| as real) + hi;
    }
  }

  /** A street whose vantage point scores all lie in [lo, hi] scores in
      [lo, hi]. */
  lemma {:induction false} StreetScoreWithin(scores: seq<real>, lo: real, hi: real)
    requires |scores| > 0
    requires forall i :: 0 <= i < |scores| ==> lo <= scores[i] <= hi
    ensures lo <= StreetScore(scores) <= hi
  {
    SumBounds(scores, lo, hi);
    QuotientBetween(Sum(scores), |scores| as real, lo, hi);
  }

  /** A street's score lies between its lowest and highest vantage point
      scores. */
  lemma {:induction false} StreetScoreBetween(scores: seq<real>)
    requires |scores| > 0
    ensures Lowest(scores) <= StreetScore(scores) <= Highest(scores)
  {
    StreetScoreWithin(scores, Lowest(scores), Highest(scores));
  }

  /** Between lo and hi times a positive n, divided by n: between lo and hi. */
  lemma {:induction false} QuotientBetween(x: real, n: real, lo: real, hi: real)
    requires n > 0.0 && lo * n <= x <= hi * n
    ensures lo <= x / n <= hi
  {
    var q := x / n;
    assert q * n == x;
    assert (q - lo) * n >= 0.0;
    assert (hi - q) * n >= 0.0;
  }

  lemma {:induction false} SumSnoc(xs: seq<real>, a: real)
    ensures Sum(xs + [a]) == Sum(xs) + a
  {
    assert (xs + [a])[..|xs|] == xs;
  }

  lemma {:induction false} WeightedSnoc(xs: seq<real>, ys: seq<real>, a: real, b: real)
    requires |xs| == |ys|
    ensures Weighted(xs + [a], ys + [b]) == Weighted(xs, ys) + a * b
  {
    assert (xs + [a])[..|xs|] == xs;
    assert (ys + [b])[..|ys|] == ys;
  }

  predicate NonNegative(ys: seq<real>)
  {
    forall i :: 0 <= i < |ys| ==> ys[i] >= 0.0
  }

  lemma {:induction false} WeightedStep(s: real, l: real, lo: real, hi: real)
    requires lo <= s <= hi && l >= 0.0
    ensures lo * l <= s * l <= hi * l
  {
    assert (s - lo) * l >= 0.0;
    assert (hi - s) * l >= 0.0;
  }

  lemma {:induction false} BoundsStep(w: real, t: real, x: real, y: real, lo: real, hi: real)
    requires lo * t <= w <= hi * t && lo <= x <= hi && y >= 0.0
    ensures lo * (t + y) <= w + x * y <= hi * (t + y)
  {
    WeightedStep(x, y, lo, hi);
    calc {
      lo * (t + y);
      lo * t + lo * y;
    <= w + lo * y;
    <= w + x * y;
    }
    calc {
      w + x * y;
    <= hi * t + x * y;
    <= hi * t + hi * y;
      hi * (t + y);
    }
  }

  /** With scores in [lo, hi] and weights not negative, the weighted sum lies
      between lo and hi times the sum of the weights. */
  lemma {:induction false} WeightedBounds(xs: seq<real>, ys: seq<real>, lo: real, hi: real)
    requires |xs| == |ys| && NonNegative(ys)
    requires forall i :: 0 <= i < |xs| ==> lo <= xs[i] <= hi
    ensures lo * Sum(ys) <= Weighted(xs, ys) <= hi * Sum(ys)
    decreases |xs|
  {
    if xs != [] {
      var xi, yi := xs[..|xs| - 1], ys[..|ys| - 1];
      assert forall i :: 0 <= i < |xi| ==> xi[i] == xs[i];
      assert forall i :: 0 <= i < |yi| ==> yi[i] == ys[i];
      WeightedBounds(xi, yi, lo, hi);
      var x, y := xs[|xs| - 1], ys[|ys| - 1];
      var w, t := Weighted(xi, yi), Sum(yi);
      assert Weighted(xs, ys) == w + x * y;
      assert Sum(ys) == t + y;
      BoundsStep(w, t, x, y, lo, hi);
    } else {
      assert ys == [];
    }
  }

  /** Weights that are not negative sum to zero only when each is zero, and
      then the weighted sum is zero too. */
  lemma {:induction false} ZeroSum(xs: seq<real>, ys: seq<real>)
    requires |xs| == |ys| && NonNegative(ys)
    ensures Sum(ys) >= 0.0
    ensures Sum(ys) == 0.0 <==> forall i :: 0 <= i < |ys| ==> ys[i] == 0.0
    ensures Sum(ys) == 0.0 ==> Weighted(xs, ys) == 0.0
    decreases |xs|
  {
    if xs != [] {
      var xi, yi := xs[..|xs| - 1], ys[..|ys| - 1];
      assert forall i :: 0 <= i < |yi| ==> yi[i] == ys[i];
      ZeroSum(xi, yi);
    }
  }

  /** With scores in [lo, hi], weights that are not negative and a weight sum
      that is not zero, the weighted mean lies in [lo, hi]. */
  lemma {:induction false} OverallWithin(xs: seq<real>, ys: seq<real>, lo: real, hi: real)
    requires |xs| == |ys| && NonNegative(ys) && Sum(ys) != 0.0
    requires forall i :: 0 <= i < |xs| ==> lo <= xs[i] <= hi
    ensures lo <= Weighted(xs, ys) / Sum(ys) <= hi
  {
    WeightedBounds(xs, ys, lo, hi);
    SumPositive(xs, ys);
    QuotientBetween(Weighted(xs, ys), Sum(ys), lo, hi);
  }

  lemma {:induction false} SumPositive(xs: seq<real>, ys: seq<real>)
    requires |xs| == |ys| && NonNegative(ys) && Sum(ys) != 0.0
    ensures Sum(ys) > 0.0
  {
    ZeroSum(xs, ys);
  }

  lemma {:induction false} LengthsAt(streets: seq<StreetDiagrams>)
    ensures forall i :: 0 <= i < |streets| ==> Lengths(streets)[i] == streets[i].frontLotLineLength
    decreases |streets|
  {
    if streets != [] {
      var init := streets[..|streets| - 1];
      assert forall i :: 0 <= i < |init| ==> init[i] == streets[i];
      LengthsAt(init);
    }
  }

  /** With front lot line lengths that are not negative, the overall score
      is NaN exactly when every one is zero; otherwise it is the length-
      weighted mean of the street scores, so it lies between the lowest and
      the highest of them. */
  lemma {:induction false} OverallScoreMeaning(streets: seq<StreetDiagrams>, subdistrict: bool)
    requires Scores(streets, subdistrict).Success?
    requires forall i :: 0 <= i < |streets| ==> streets[i].frontLotLineLength >= 0.0
    ensures var out := Scores(streets, subdistrict).value;
      var scores, lengths := StreetScores(streets), Lengths(streets);
      && (out.overallScore == NaN <==> forall i :: 0 <= i < |streets| ==> streets[i].frontLotLineLength == 0.0)
      && (out.overallScore.Finite? || out.overallScore == NaN)
      && (out.overallScore.Finite? ==>
            && out.overallScore.value == Weighted(scores, lengths) / Sum(lengths)
            && out.lowestScore <= out.overallScore.value <= Highest(scores))
  {
    var scores, lengths := StreetScores(streets), Lengths(streets);
    LengthsAt(streets);
    ZeroSum(scores, lengths);
    if Sum(lengths) != 0.0 {
      OverallWithin(scores, lengths, Lowest(scores), Highest(scores));
    }
  }

  /** The lowest street score is a street's score and none is lower; each
      street's score is the mean of its vantage point scores. */
  lemma {:induction false} StreetScoresMeaning(streets: seq<StreetDiagrams>, subdistrict: bool)
    requires Scores(streets, subdistrict).Success?
    ensures var out := Scores(streets, subdistrict).value;
      && (exists i :: 0 <= i < |streets| && out.lowestScore == StreetScore(streets[i].vantagePointScores))
      && (forall i :: 0 <= i < |streets| ==> out.lowestScore <= StreetScore(streets[i].vantagePointScores))
  {
    StreetScoresAt(streets);
    var scores := StreetScores(streets);
    var i :| 0 <= i < |scores| && scores[i] == Lowest(scores);
    assert StreetScore(streets[i].vantagePointScores) == scores[i];
  }

  lemma {:induction false} StreetScoresAt(streets: seq<StreetDiagrams>)
    requires HasVantagePoints(streets)
    ensures forall i :: 0 <= i < |streets| ==> StreetScores(streets)[i] == StreetScore(streets[i].vantagePointScores)
    decreases |streets|
  {
    if streets != [] {
      var init := streets[..|streets| - 1];
      assert forall i :: 0 <= i < |init| ==> init[i] == streets[i];
      StreetScoresAt(init);
    }
  }

  /** The verdict: PASS exactly when the lowest street score is at least 66
      and the overall score is at least 66 (East Midtown) or 75 (elsewhere);
      a NaN overall score is below nothing and so does not fail the overall
      rule. The errors: no street, then a street without vantage points. */
  lemma {:induction false} VerdictRule(streets: seq<StreetDiagrams>, subdistrict: bool)
    ensures Scores(streets, subdistrict) == Failure(NoVantageStreets) <==> streets == []
    ensures Scores(streets, subdistrict) == Failure(NoVantagePoints) <==> streets != [] && !HasVantagePoints(streets)
    ensures Scores(streets, subdistrict).Success? ==>
      var out := Scores(streets, subdistrict).value;
      var threshold := if subdistrict then 66.0 else 75.0;
      && (out.overallScore.Finite? ==>
            (out.result == Pass <==> out.lowestScore >= 66.0 && out.overallScore.value >= threshold))
      && (out.overallScore == NaN ==> (out.result == Pass <==> out.lowestScore >= 66.0))
  {
  }

  /** The East Midtown overall threshold is the lower one: what passes
      elsewhere passes there. */
  lemma {:induction false} SubdistrictIsLenient(lowest: real, overall: Score)
    ensures Passes(lowest, overall, false) ==> Passes(lowest, overall, true)
    ensures exists l: real, o: Score :: Passes(l, o, true) && !Passes(l, o, false)
  {
    assert Passes(70.0, Finite(70.0), true) && !Passes(70.0, Finite(70.0), false);
  }

  // ---------------------------------------------------------------------------
  // Execute

  /** The evaluation inputs: the East Midtown flag, the subdivision flag and
      the vantage streets by what their diagrams yield. */
  datatype Inputs = Inputs(
    qualifyForEastMidtownSubdistrict: bool,
    skipSubdivide: bool,
    vantageStreets: seq<StreetDiagrams>)

  /** MakeFromEnvelopes succeeds: every solid operation analyses. */
  predicate AnalysesSucceed(envelopes: seq<Envelope>, sub: SolidAnalysis.Subdivision)
  {
    forall i :: 0 <= i < |AllOps(envelopes)| ==>
      SolidAnalysis.Analysis(AllOps(envelopes)[i].0, AllOps(envelopes)[i].1, sub).Success?
  }

  /** Execute, in the order it checks things: the site, the envelopes, their
      analysis, the East Midtown envelopes and theirs, then the streets. */
  function Evaluate(sites: Option<seq<Site>>, envelopes: Option<seq<Envelope>>, input: Inputs,
                    area: seq<Vec3> -> real, cellEnds: (Vec3, Vec3) -> seq<Vec3>,
                    extrude: (Profile, real) -> SolidOp): Result<Outputs, EvaluationError>
  {
    var sub := SolidAnalysis.Subdivision(input.skipSubdivide, cellEnds);
    var siteInput := GetSite(sites, area);
    if siteInput.Failure? then Failure(siteInput.error)
    else if siteInput.value.None? then Failure(NoSite)
    else if envelopes.None? || |envelopes.value| < 1 then Failure(NoEnvelopes)
    else if !AnalysesSucceed(envelopes.value, sub) then Failure(Malformed(SolidAnalysis.MalformedGeometry))
    else if input.qualifyForEastMidtownSubdistrict && EastMidtownEnvelopes(envelopes.value, extrude).Failure? then
      Failure(MissingProfile)
    else if input.qualifyForEastMidtownSubdistrict
         && !AnalysesSucceed(EastMidtownEnvelopes(envelopes.value, extrude).value, sub) then
      Failure(Malformed(SolidAnalysis.MalformedGeometry))
    else Scores(input.vantageStreets, input.qualifyForEastMidtownSubdistrict)
  }

  /** The evaluation succeeds exactly when there is a site, at least one
      envelope, every solid analyses, in East Midtown every envelope crossing
      the cut has a profile and every piece analyses, and the streets score;
      then its outputs are the street scores'. */
  lemma {:induction false} EvaluateSucceeds(sites: Option<seq<Site>>, envelopes: Option<seq<Envelope>>, input: Inputs,
                         area: seq<Vec3> -> real, cellEnds: (Vec3, Vec3) -> seq<Vec3>,
                         extrude: (Profile, real) -> SolidOp)
    ensures var sub := SolidAnalysis.Subdivision(input.skipSubdivide, cellEnds);
      Evaluate(sites, envelopes, input, area, cellEnds, extrude).Success? <==>
        && sites.Some? && sites.value != []
        && envelopes.Some? && |envelopes.value| >= 1
        && AnalysesSucceed(envelopes.value, sub)
        && (input.qualifyForEastMidtownSubdistrict ==>
              && (forall i :: 0 <= i < |envelopes.value| ==> !Unprofiled(envelopes.value[i]))
              && EastMidtownEnvelopes(envelopes.value, extrude).Success?
              && AnalysesSucceed(EastMidtownEnvelopes(envelopes.value, extrude).value, sub))
        && input.vantageStreets != [] && HasVantagePoints(input.vantageStreets)
    ensures Evaluate(sites, envelopes, input, area, cellEnds, extrude).Success? ==>
      Evaluate(sites, envelopes, input, area, cellEnds, extrude)
        == Scores(input.vantageStreets, input.qualifyForEastMidtownSubdistrict)
  {
    GetSiteMeaning(sites, area);
    if envelopes.Some? {
      EastMidtownFailure(envelopes.value, extrude);
    }
  }

  /** Execute: the input checks and analyses, then the street scores. */
  method Execute(sites: Option<seq<Site>>, envelopes: Option<seq<Envelope>>, input: Inputs,
                 area: seq<Vec3> -> real, cellEnds: (Vec3, Vec3) -> seq<Vec3>,
                 extrude: (Profile, real) -> SolidOp)
    returns (r: Result<Outputs, EvaluationError>)
    requires envelopes.Some? ==> SolidAnalysis.KeyedOps(envelopes.value)
    requires forall p, h :: KeyedOp(extrude(p, h))
    ensures r == Evaluate(sites, envelopes, input, area, cellEnds, extrude)
  {
    var siteInput := GetSite(sites, area);
    if siteInput.Failure? {
      return Failure(siteInput.error);
    }
    if siteInput.value.None? {
      return Failure(NoSite);
    }
    if envelopes.None? || |envelopes.value| < 1 {
      return Failure(NoEnvelopes);
    }
    var sub := SolidAnalysis.Subdivision(input.skipSubdivide, cellEnds);
    var analysisObjects := SolidAnalysis.MakeFromEnvelopes(envelopes.value, sub);
    if analysisObjects.Failure? {
      return Failure(Malformed(SolidAnalysis.MalformedGeometry));
    }
    if input.qualifyForEastMidtownSubdistrict {
      var envelopesForBlockage := GetEastMidtownEnvelopes(envelopes.value, extrude);
      if envelopesForBlockage.Failure? {
        EastMidtownFailure(envelopes.value, extrude);
        return Failure(envelopesForBlockage.error);
      }
      EastMidtownKeyed(envelopes.value, extrude);
      var analysisObjectsForBlockage := SolidAnalysis.MakeFromEnvelopes(envelopesForBlockage.value, sub);
      if analysisObjectsForBlockage.Failure? {
        return Failure(Malformed(SolidAnalysis.MalformedGeometry));
      }
    }
    r := ScoreStreets(input.vantageStreets, input.qualifyForEastMidtownSubdistrict);
  }
}
