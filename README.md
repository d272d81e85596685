# NYC ZR 81-27 daylight evaluation — the rule layer in Dafny

This project models the rule layer of the daylight evaluation of the New York
City Zoning Resolution, section 81-27 (alternate height and setback
regulations). The evaluation checks a building's envelopes against the
vantage streets around its site. It builds a daylight chart for each vantage
point. The chart has section-angle rows (0 to 90 degrees) and plan-angle
columns (the plan angles of offsets from -250 ft to +250 ft along the
street). The model covers the following parts.

- **Chart grids** (`chart_grids.dfy`, `grids.dfy`):
  - the fixed section partition;
  - the plan partition of one vantage point;
  - the closed-interval overlap test;
  - the two profile curves;
  - the daylight-boundary multiplier of every plan cell.

  Grid1d of the Elements library is modelled as a list of contiguous cells.
- **Scoring squares** (`square.dfy`): a Square's potential score (blockage,
  credit or nothing) and its profile penalty, set in the constructor in the
  source's order.
- **Analysis graph** (`analysis.dfy`, `legacy_analysis.dfy`):
  - each solid operation becomes a dictionary of vertices, a dictionary of
    edges (key lists, with long edges subdivided under fresh keys) and a list
    of face loops;
  - a missing vertex is the "malformed geometry" error;
  - the earlier variant does not subdivide and stores faces as edge-id lists.
- **Silhouettes** (`silhouettes.dfy`, `diagram.dfy`):
  - the face loops walked from half-edges;
  - the polygons with positive area;
  - the union into raw and draw silhouettes, stored on a `Diagram` object.
- **Vantage points and vantage streets** (`vantage.dfy`,
  `vantage_street.dfy`):
  - the two or three vantage points of a centerline and their frames;
  - the choice of the front lot line;
  - the centerline offset by half the street-width table value.
- **Street-width tables** (`lookups.dfy`).
- **Evaluation** (`evaluation.dfy`):
  - the input checks;
  - the choice of the largest site;
  - the East Midtown cut of envelopes at 150 ft;
  - the street means, the length-weighted overall score, the lowest street
    score and the PASS/FAIL rule.

All quantities are `real`. The Elements library calls and the arctangents
are function-valued parameters, and the model assumes nothing about them
beyond what a contract states. These are:

- `Unitized`;
- polygon construction, area and union;
- `Grid1d.DivideByFixedLength`;
- `GetPlanAngle` and `GetSectionAngle`;
- the extrusion of a profile;
- the analysis-point projection.

Double division is modelled with its NaN and infinity outcomes where the
source can divide by zero. This applies to the overall score.

## Model

| member | source | states |
|---|---|---|
| Lookups.CenterlineDistancesTotal | src/ZR8127Lookups.cs:9-15 | The centerline-distance table is defined for all five width categories, and every value is positive. |
| Lookups.CenterlineDistanceValues | src/ZR8127Lookups.cs:10-14 | The values are 60 ft and 100 ft and 140 ft in metres. The 75 ft category maps to 80 ft, the same as the 80 ft category. |
| Lookups.CenterlineDistancesMonotone | src/ZR8127Lookups.cs:10-14 | A wider category never maps to a shorter distance. |
| CenterlineSettings.LookupAgreesWithCenterlineDistances | src/ZR8127Settings.cs:8-14 | The older table is total and agrees entry for entry with Lookups.CenterlineDistances. Its 75 ft entry is 80 ft. |
| ChartGrids.LadderStep | src/ZR8127Diagram.cs:59-69 | Splitting a grid of rungs at its next rung adds exactly that rung as a boundary. |
| ChartGrids.HalveValue | src/ZR8127Diagram.cs:71-77 | SplitAtParameter(0.5) cuts a cell into its two halves at the midpoint. |
| ChartGrids.HalvedLowerBands | src/ZR8127Diagram.cs:57-63 | Below 70 degrees there are seven 10-degree bands, each halved at its 5-degree midpoint. |
| ChartGrids.HalvedUpperBands | src/ZR8127Diagram.cs:65-69 | Above 70 degrees there are ten 2-degree bands, each halved at its 1-degree midpoint. |
| ChartGrids.MakeSectionGrid | src/ZR8127Diagram.cs:52-77 | The grid loops yield the section grid: split at 70, 10-degree majors below, 2-degree majors above, each major halved. |
| ChartGrids.HalveAll | src/ZR8127Diagram.cs:71-77 | Every cell of a section row is split once at its midpoint, and the cells stay in order. |
| ChartGrids.SectionGridBoundaries | src/ZR8127Diagram.cs:52-77 | The minor section cells run between the boundaries 0, 5, ..., 70, 71, ..., 90. These boundaries increase strictly and lie in [0, 90]. |
| ChartGrids.PlanSamples | src/ZR8127Diagram.cs:92-96 | There are 101 plan-angle samples, one per 5 ft offset from -250 ft to +250 ft. |
| ChartGrids.SamplePlanAngles | src/ZR8127Diagram.cs:89-107 | The sampling loop yields 21 major angles (every fifth sample). Each major is followed by the list of the 4 minor samples after it, and the last list is empty. |
| ChartGrids.MakePlanGrid | src/ZR8127Diagram.cs:86-120 | For increasing samples, the plan grid has 20 major cells between consecutive majors. Each major cell is split at exactly its 4 minor samples. |
| ChartGrids.SplitMajorCells | src/ZR8127Diagram.cs:113-118 | Major cell j is split at the j-th list of minor angles, and at no others. |
| ChartGrids.MajorsIncreasing | src/ZR8127Diagram.cs:110-112 | Every fifth sample of an increasing sequence increases, and the majors bound 20 cells from sample 5j to sample 5j+5. |
| ChartGrids.MinorCellSplit | src/ZR8127Diagram.cs:113-118 | A major cell split at its four minor angles yields the five cells between samples 5j and 5j+5. |
| ChartGrids.PlanCellShape | src/ZR8127Diagram.cs:113-118 | A plan cell is filled end to end by five minor cells of positive width. |
| ChartGrids.PlanGridShape | src/ZR8127Diagram.cs:110-118 | Consecutive major plan cells meet end to end, and each major cell is filled by five minor cells. |
| ChartGrids.DomainsOverlapMeaning | src/ZR8127Diagram.cs:475-478 | For well-formed intervals, the overlap test holds iff some value lies in both intervals. The test is symmetric. |
| ChartGrids.ProfileSide | src/ZR8127Diagram.cs:388-396 | Each profile side has 91 samples. |
| ChartGrids.ProfileCurvesMirror | src/ZR8127Diagram.cs:386-398 | The two candidate curves have 91 points each. Section angles run from 72 to 90 at dist/5 + 72. The left curve is the plan mirror of the right curve, read in reverse. |
| ChartGrids.KeptProfilesMeaning | src/ZR8127Diagram.cs:400-410 | A candidate curve is kept iff the source's overlap test holds on the interval from its first plan angle to its last. No other curve is kept. |
| ChartGrids.KeptProfilesWhenAngleFalls | src/ZR8127Diagram.cs:388-410 | If the plan angle at the farthest sample is no larger than at the nearest, both candidate intervals are well formed. A candidate is then kept iff its plan range shares an angle with the daylight boundaries. |
| ChartGrids.KeptProfilesWhenAngleRises | src/ZR8127Diagram.cs:388-410 | If the plan angle grows from the nearest sample to the farthest, both candidate intervals run backwards. A candidate is then kept iff its whole plan range lies inside the daylight boundaries. |
| ChartGrids.CalculateProfileCurves | src/ZR8127Diagram.cs:382-412 | The sampling and filtering loops yield exactly the kept candidate curves. |
| ChartGrids.Multipliers | src/ZR8127Diagram.cs:417-451 | There is one entry per base plan cell. |
| ChartGrids.CalculateBoundingMultipliers | src/ZR8127Diagram.cs:414-451 | The loop accumulates the sum of the subcell multipliers for every base cell that overlaps the boundaries, and nothing for the others. |
| ChartGrids.SubcellMultiplierRange | src/ZR8127Diagram.cs:445 | A subcell's multiplier lies in [0, 1/5] when its relevant part lies inside it. |
| ChartGrids.CellMultiplierRange | src/ZR8127Diagram.cs:436-450 | A major cell's multiplier lies in [0, n/5] for n subcells when every relevant part lies inside its subcell. |
| ChartGrids.CellMultiplierInside | src/ZR8127Diagram.cs:436-446 | When every subcell ends before the boundaries, a major cell's multiplier is exactly n/5. |
| ChartGrids.FullPlanCellMultiplier | src/ZR8127Diagram.cs:436-450 | A five-subcell plan cell that ends before the boundaries has multiplier exactly 1. |
| ChartGrids.RightClippedSubcell | src/ZR8127Diagram.cs:445 | A subcell clipped at the right boundary weighs (inside width / width) / 5. |
| ChartGrids.LeftClippedSubcellWeighsAFifth | src/ZR8127Diagram.cs:445 | The 1/5 shortcut tests only the subcell's right end. A subcell half outside on the left still weighs 1/5, not 1/10. |
| Grids.SplitAtBoundaryIsNoOp | src/ZR8127Diagram.cs:112 | Splitting a grid at one of its own boundaries changes nothing. |
| Grids.SplitCellAtInteriorPositions | src/ZR8127Diagram.cs:117 | A cell split at increasing interior positions becomes the cells between them. |
| Grids.GridFromBoundaries | src/ZR8127Diagram.cs:110-112 | A grid spanning increasing boundaries, split at all of them, has exactly the cells between consecutive boundaries. |
| Squares.NewPlanGrid | src/ZR8127Square.cs:24-30 | A PlanGrid built without a multiplier keeps its id and interval and has multiplier 0. |
| Squares.Square.constructor | src/ZR8127Square.cs:65-95 | The square's id is (plan id, section id), and its polygon is the rectangle of the two intervals. The penalty is set first, then the score, in the source's order. |
| Squares.SubsquareIffFractional | src/ZR8127Square.cs:73 | An integer plan id is a full square. An id strictly between two integers is a subsquare. |
| Squares.ScoreValues | src/ZR8127Square.cs:82-94 | A full square scores -1, 0 or 0.3. A subsquare scores -0.1, 0 or 0.03. |
| Squares.ScoreBlockage | src/ZR8127Square.cs:91-94 | At or above the section cutoff, the score is -1 (full) or -0.1 (sub), whatever the credit test says. |
| Squares.ScoreCredit | src/ZR8127Square.cs:82-89 | The score is positive (the credit, 0.3 or 0.03) iff all of these hold: continuity is off, the plan interval's max is at most the cutoff (the plan interval, as the source compares it), the multiplier is exactly 1.0 (full) or 0.2 (sub), and the section is below the cutoff. |
| Squares.SubsquareBlockageIsTenth | src/ZR8127Square.cs:93 | A subsquare's blockage is a tenth of a full square's. |
| Squares.PenaltyFacts | src/ZR8127Square.cs:75-80 | An absent floor key gives penalty 0. A present key gives minus the table value (full) or minus a tenth of it (sub). |
| Squares.RectangleSpans | src/ZR8127Square.cs:71 | The rectangle's corners span exactly the plan interval across and the section interval up. |
| Diagram.Diagram.constructor | src/ZR8127Diagram.cs:368-372 | A new diagram holds the section grid and the plan grid of its vantage point. No curves, multipliers or silhouettes are stored yet. |
| Diagram.Diagram.CalculateProfileCurvesAndBoundingSquares | src/ZR8127Diagram.cs:380-454 | The stored curves are the kept candidates, and the stored multipliers are the bounding multipliers. The grids and the silhouettes are unchanged. |
| Diagram.Diagram.CalculateSilhouettes | src/ZR8127Diagram.cs:223-336 | The raw silhouettes are the union of the raw face polygons. The draw silhouettes are the raw silhouettes when raw angles are used, and otherwise the union of the draw polygons. Nothing else changes. |
| Silhouettes.ClosedLinesKnown | src/ZR8127Diagram.cs:232-252 | When every edge key list names vertex keys, every key has an analysis point, so no lookup comes back empty. |
| Silhouettes.HalfEdgeContributionOrder | src/ZR8127Diagram.cs:260-267 | A half-edge adds its edge's points without the last one: forward when it starts at the Left vertex, reversed otherwise. It adds nothing when the edge is not found. |
| Silhouettes.FaceLoopLength | src/ZR8127Diagram.cs:256-268 | A face loop's length is the sum, over the found edges, of each edge's point count minus one. |
| Silhouettes.FaceLoopAppend | src/ZR8127Diagram.cs:258-268 | The loop of a run of half-edges is the loops of its parts, joined in order. |
| Silhouettes.FaceLoopOfCorners | src/ZR8127Diagram.cs:256-268 | On a face whose edges are not subdivided, the loop is the analysis points of its half-edges' start vertices, one per half-edge, in order. |
| Silhouettes.CollectedPolygonsHavePositiveArea | src/ZR8127Diagram.cs:272-296 | Every collected polygon, raw or drawn, was accepted by the library and has positive area. There are never more draw polygons than raw ones. |
| Silhouettes.RawAnglesDrawRawPolygons | src/ZR8127Diagram.cs:277-280 | With raw angles, the draw polygons are exactly the raw polygons. |
| Silhouettes.ObjectLoops | src/ZR8127Diagram.cs:254-268 | Each object yields one face loop per surface. |
| Silhouettes.BuildFaceLoop | src/ZR8127Diagram.cs:256-268 | The srfAPs loop yields the face loop of the surface. |
| Silhouettes.AddFacePolygons | src/ZR8127Diagram.cs:270-301 | One face adds its raw polygon when that polygon is collectable. It adds the raw polygon or its collectable draw polygon to the draw list. |
| Silhouettes.CollectObjectPolygons | src/ZR8127Diagram.cs:230-302 | The loops of one object yield the raw and draw polygons of its face loops. |
| Silhouettes.CollectPolygons | src/ZR8127Diagram.cs:225-323 | The loops over all objects yield the raw and draw polygons of all face loops, object by object. |
| SolidAnalysis.Mint | src/ZR8127SolidAnalysisObject.cs:59-66 | Minting one key per division point adds that many keys, and the counter grows by that many. |
| SolidAnalysis.MintFacts | src/ZR8127SolidAnalysisObject.cs:59-66 | The minted keys are maxVertexKey+1, +2, ... in order. None was a key before, each holds its division point, and every old vertex is kept. |
| SolidAnalysis.VertexMapKeys | src/ZR8127SolidAnalysisObject.cs:28-36 | The vertex dictionary has exactly the solid's vertex keys. |
| SolidAnalysis.VertexMapValues | src/ZR8127SolidAnalysisObject.cs:28-36 | With distinct keys, every vertex key maps to its point under the local transform and then the envelope transform. |
| SolidAnalysis.MaxKeyBounds | src/ZR8127SolidAnalysisObject.cs:26-35 | The counter ends at or above every vertex key and is never negative. It is 0 or one of the keys. |
| SolidAnalysis.WithEdgeFacts | src/ZR8127SolidAnalysisObject.cs:40-75 | One edge keeps every key list inside the vertex dictionary and every old entry unchanged. Its list runs from Left to Right through fresh keys only. An edge that is not subdivided maps to exactly [Left, Right]. |
| SolidAnalysis.WithEdgesFacts | src/ZR8127SolidAnalysisObject.cs:38-82 | Adding edges in order gives exactly one entry per edge key. Every key along every edge is a vertex key, and minted keys lie above all earlier keys. |
| SolidAnalysis.WithEdgesSucceeds | src/ZR8127SolidAnalysisObject.cs:38-82 | When every edge's end keys are vertex keys, no edge throws. |
| SolidAnalysis.AnalysisFailsOnlyOnMissingVertex | src/ZR8127SolidAnalysisObject.cs:40-81 | A build that throws has an edge whose Left or Right key is not a vertex key of the solid. |
| SolidAnalysis.AnalysisFacts | src/ZR8127SolidAnalysisObject.cs:22-93 | A finished build has these invariants: every vertex key maps to its placed point, there is one edge entry per edge key, and every listed key is a vertex key. Each edge runs from Left to Right, and new keys lie above every vertex key. |
| SolidAnalysis.SolidAnalysisObject.constructor | src/ZR8127SolidAnalysisObject.cs:15-17 | The dictionaries and the surface list start empty. |
| SolidAnalysis.SolidAnalysisObject.AddVertices | src/ZR8127SolidAnalysisObject.cs:28-36 | The vertex loop fills Points with the placed vertices and returns the maximum key. |
| SolidAnalysis.SolidAnalysisObject.AddEdges | src/ZR8127SolidAnalysisObject.cs:38-82 | The edge loop yields the edge dictionary and the minted points of the specification, or reports the throw. |
| SolidAnalysis.SolidAnalysisObject.AddSurfaces | src/ZR8127SolidAnalysisObject.cs:84-93 | Surfaces gains one entry per face, holding its outer-loop half-edges in order. Nothing else changes. |
| SolidAnalysis.Create | src/ZR8127SolidAnalysisObject.cs:22-94 | The constructor succeeds iff the build specification does. On success it holds that build and keeps every key list closed. |
| SolidAnalysis.MakeFromEnvelopes | src/ZR8127SolidAnalysisObject.cs:96-112 | It succeeds iff every solid operation builds. It then yields one fresh object per operation, in envelope and then operation order. |
| SolidAnalysis.CreateAll | src/ZR8127SolidAnalysisObject.cs:104-108 | The operations of one envelope all build, or the call fails. On success there is one fresh object per operation, each built from that operation under the envelope transform. |
| Solids.AllOpsIndex | src/ZR8127SolidAnalysisObject.cs:100-108 | The k-th operation of the e-th envelope comes right after the operations of the earlier envelopes and carries its envelope's transform. |
| LegacySolidAnalysis.EdgeIds | src/ZR8127Utilities.cs.cs:60-64 | A face's list holds the edge ids of its outer loop, in order. |
| LegacySolidAnalysis.EdgeMapFacts | src/ZR8127Utilities.cs.cs:33-56 | The edge loop succeeds iff every end key is a vertex key. Every edge then maps to exactly [Left, Right], long or not, and there is one entry per edge key. |
| LegacySolidAnalysis.SolidAnalysisObject.constructor | src/ZR8127Utilities.cs.cs:14-16 | The collections start empty. |
| LegacySolidAnalysis.SolidAnalysisObject.AddVertices | src/ZR8127Utilities.cs.cs:23-31 | The vertex loop fills points with the placed vertices and returns the maximum key. |
| LegacySolidAnalysis.SolidAnalysisObject.AddEdges | src/ZR8127Utilities.cs.cs:33-56 | The edge loop yields the specified edge dictionary, or reports the throw. |
| LegacySolidAnalysis.SolidAnalysisObject.AddSurfaces | src/ZR8127Utilities.cs.cs:58-67 | surfaces gains one edge-id list per face. |
| LegacySolidAnalysis.Surfaces | src/ZR8127Utilities.cs.cs:58-67 | There is one list per face, holding its outer-loop edge ids. |
| LegacySolidAnalysis.Create | src/ZR8127Utilities.cs.cs:17-68 | The constructor succeeds iff the build does, and then holds that build. |
| LegacySolidAnalysis.BuildFacts | src/ZR8127Utilities.cs.cs:23-56 | The build fails iff some end key is missing. Otherwise points has exactly the vertex keys at their placed positions, and every edge key maps to [Left, Right]. |
| LegacySolidAnalysis.MakeFromEnvelopes | src/ZR8127Utilities.cs.cs:70-86 | It succeeds iff every operation builds. It then yields one object per operation, in order. |
| LegacySolidAnalysis.CreateAll | src/ZR8127Utilities.cs.cs:78-82 | The operations of one envelope all build, or the call fails. On success there is one fresh object per operation, in order, under the envelope transform. |
| VantagePoints.NewVantagePoint | src/ZR8127VantagePoint.cs:31-39 | The s-plane passes through the point with the ninety-degree direction as normal. The d-plane passes through it with the start direction as normal. |
| VantagePoints.GetS | src/ZR8127VantagePoint.cs:64-67 | s is non-negative and is the signed distance to the s-plane or its negation. |
| VantagePoints.DistancesAlong | src/ZR8127VantagePoint.cs:64-72 | Moving a point square to a plane's normal keeps its distance to that plane, so s or d is unchanged. |
| VantagePoints.PlanAngleIgnoresHeight | src/ZR8127VantagePoint.cs:41-52 | For a level frame, raising a point leaves its plan angle unchanged. Only h = z feeds the section angle. |
| VantagePoints.GetVantagePoints | src/ZR8127VantagePoint.cs:83-122 | The method builds the specified vantage points. |
| VantagePoints.VantagePointCount | src/ZR8127VantagePoint.cs:102-109 | There are 2 or 3 vantage points, and 3 iff the centerline is longer than 500 ft. |
| VantagePoints.VantagePointPlacement | src/ZR8127VantagePoint.cs:86-108 | vp1 is 250 ft along the unit direction from the centerline start and faces back. vp2 is the same from the end. vp3 is midway between them and faces as vp1 does. All share the ninety-degree direction, and their planes pass through themselves. |
| VantagePoints.EndVantagePointsFaceEachOther | src/ZR8127VantagePoint.cs:89-100 | When Unitized commutes with negation, vp2 faces opposite to vp1. |
| VantagePoints.EndVantagePointDistance | src/ZR8127VantagePoint.cs:89-91 | With a unit direction, vp1 stands exactly 250 ft from the centerline start. |
| VantageStreets.SortByDistanceFacts | src/ZR8127VantageElementUtils.cs:22 | The lot lines are all the site segments (a permutation), ordered by the distance of their midpoints from the street line's midpoint. |
| VantageStreets.FirstNearest | src/ZR8127VantageElementUtils.cs:22 | The index picked has the least distance, and every segment before it is strictly farther. |
| VantageStreets.SortByDistanceHead | src/ZR8127VantageElementUtils.cs:22-23 | The stable sort puts the first nearest segment, in site order, first. |
| VantageStreets.Moved | src/ZR8127VantageElementUtils.cs:26 | The centerline's start and end are the front lot line's, each moved by the same vector. |
| VantageStreets.CenterlineOffset | src/ZR8127VantageElementUtils.cs:24 | The offset is half the table value for the width, and it is positive. |
| VantageStreets.CreateVantageStreetErrors | src/ZR8127VantageElementUtils.cs:16-23 | It fails iff the street line is missing, or there is no override and no site segment. Otherwise it succeeds. |
| VantageStreets.CreateVantageStreetLotLines | src/ZR8127VantageElementUtils.cs:21-23 | The lot lines are a sorted permutation of the site segments. The front lot line is the override's, else the first nearest segment. |
| VantageStreets.CreateVantageStreetCenterline | src/ZR8127VantageElementUtils.cs:24-31 | The offset is half the table value. The centerline is the front lot line moved by unit(front midpoint - centroid) times the offset, with the same direction and length. The score is 0, the block depth is in metres, and the vantage points are taken to be those of the centerline and front lot line. |
| Evaluation.FirstLargest | src/NYCZR8127DaylightEvaluation.cs:144-145 | The chosen site's area is not exceeded by any other site's, and every site before it is strictly smaller (a stable descending order). |
| Evaluation.GetSiteMeaning | src/NYCZR8127DaylightEvaluation.cs:136-147 | A missing model gives no site, and an empty model throws. Otherwise the result is the first site of largest perimeter area. |
| Evaluation.EastMidtownFailure | src/NYCZR8127DaylightEvaluation.cs:185-188 | The split throws, with the missing-profile error, iff some envelope crossing the cut has no profile. |
| Evaluation.EastMidtownMembers | src/NYCZR8127DaylightEvaluation.cs:167-200 | On success, an envelope is in the result iff it is a piece of some input envelope. |
| Evaluation.PiecesShape | src/NYCZR8127DaylightEvaluation.cs:172-198 | An envelope with top below 150 ft is dropped. One with bottom at or above 150 ft is kept as it is. One crossing the cut becomes [0, cut] and [cut, top] with its profile. Every piece reaches the cut. |
| Evaluation.EastMidtownKeyed | src/NYCZR8127DaylightEvaluation.cs:190-198 | The pieces keep dictionary keys distinct, so they can be analysed. |
| Evaluation.GetEastMidtownEnvelopes | src/NYCZR8127DaylightEvaluation.cs:161-203 | The loop yields the specified split, or the missing-profile error. |
| Evaluation.StreetScores | src/NYCZR8127DaylightEvaluation.cs:93-97 | There is one street score per street. |
| Evaluation.Lengths | src/NYCZR8127DaylightEvaluation.cs:95-98 | There is one length per street. |
| Evaluation.Lowest | src/NYCZR8127DaylightEvaluation.cs:107 | The first score after ordering is one of the scores and no score is below it. |
| Evaluation.StreetScoreWithin | src/NYCZR8127DaylightEvaluation.cs:93-94 | A street whose vantage point scores lie in [lo, hi] has a mean in [lo, hi]. |
| Evaluation.StreetScoreBetween | src/NYCZR8127DaylightEvaluation.cs:93-94 | A street's score lies between its lowest and highest vantage point score. |
| Evaluation.OverallWithin | src/NYCZR8127DaylightEvaluation.cs:108 | A weighted mean with non-negative weights of nonzero sum lies within the range of the scores. |
| Evaluation.ZeroSum | src/NYCZR8127DaylightEvaluation.cs:98-108 | Non-negative lengths sum to 0 iff each is 0, and then the weighted sum is 0 too. |
| Evaluation.OverallScoreMeaning | src/NYCZR8127DaylightEvaluation.cs:95-108 | With non-negative lengths, the overall score is NaN iff every length is 0. Otherwise it is the length-weighted mean, between the lowest and the highest street score. |
| Evaluation.StreetScoresMeaning | src/NYCZR8127DaylightEvaluation.cs:93-107 | The lowest score is some street's mean score, and no street's mean is lower. |
| Evaluation.VerdictRule | src/NYCZR8127DaylightEvaluation.cs:68-128 | No streets gives an error. A street without vantage points gives an error. Otherwise the result is PASS iff the lowest is at least 66 and the overall is at least 66 (East Midtown) or 75 (elsewhere). A NaN overall never fails the overall rule. |
| Evaluation.SubdistrictIsLenient | src/NYCZR8127DaylightEvaluation.cs:116-123 | Whatever passes outside the subdistrict passes in it, and some result passes only in it. |
| Evaluation.ScoreStreets | src/NYCZR8127DaylightEvaluation.cs:64-128 | The street loop and the pass flags yield the specified scores and verdict. |
| Evaluation.EvaluateSucceeds | src/NYCZR8127DaylightEvaluation.cs:35-128 | The evaluation succeeds iff all of these hold: there is a site, there is an envelope, every solid analyses, in East Midtown every crossing envelope has a profile and every piece analyses, and there are streets with vantage points. It then returns the street scores' outputs. |
| Evaluation.Execute | src/NYCZR8127DaylightEvaluation.cs:32-133 | The checks run in the source's order: site, envelopes, analysis, East Midtown split and its analysis, then streets. The result is the specified evaluation. |

## Left out

- Drawing and debug output are not modelled. This covers `drawGrid`, the grid lines, `ModelCurve`/`Panel` emission, the debug utilities, the projection drawing and `Console.WriteLine`.
- The debug `Model.AddElement` in the SolidAnalysisObject edge loop (src/ZR8127SolidAnalysisObject.cs:45) is not modelled. It dereferences the static `Model` (src/ZR8127SolidAnalysisObject.cs:20), which nothing shown ever sets. As written, the constructor therefore throws at the first edge whose two end keys are found. SolidAnalysis.Create, SolidAnalysis.MakeFromEnvelopes and Evaluation.EvaluateSucceeds describe the program with that debug call removed.
- The debug `model.AddElement` of each edge line in the older SolidAnalysisObject (src/ZR8127Utilities.cs.cs:39) is not modelled. It draws into the static `model` (src/ZR8127Utilities.cs.cs:12), which the older orchestrator sets before building (src/NYCZR8127AlternateHeightAndSetbackRegulationsDaylightEvaluation.cs:54).
- The stub `calculateUnblockedDaylight` is not modelled; it returns 0 on every path.
- The per-point blockage, credit and penalty summation over silhouettes is not modelled, because it is not in the shown files. For the same reason, each vantage point's daylight score enters `Evaluation` as a given number.
- `Diagram.Draw` is not modelled. The `GetVantagePoints(siteRect, street, model)` overload it is driven from is not part of this model.
- A street's length (`FrontLotLine.Length()`) is a given number.
- `MapCoordinate`, `GetPlanAngle` and `GetSectionAngle` are function parameters, because they are floating-point arctangent and tangent.
- The plan-angle function is a parameter, and no form of it is assumed beyond what each member requires. The `GetPlanAngle` at src/ZR8127VantagePoint.cs:54-57 is `atan(s/d)` in degrees. For d > 0 it grows with s, so the profile filter is the containment test of ChartGrids.KeptProfilesWhenAngleRises, not an overlap test. Over the plan samples it falls toward -90 as d approaches 0 from below and jumps to +90 at d = 0, so it does not meet ChartGrids.MakePlanGrid's strict-increase requirement. A plan angle that falls as s grows gives the overlap test of ChartGrids.KeptProfilesWhenAngleFalls.
- `Transform.OfVector` (src/ZR8127GeoUtilities.cs:25) is taken to be the full affine map on points: rotation and scale, then the origin's translation.
- `Settings.ProfileEncroachments` and `Settings.SectionCutoffLine` are not part of this model. They are parameters of the Square constructor (the encroachment table and the cutoff).
- Polygon construction and validity, `Area`, `UnionAll` and `Unitized` are library calls, passed in as parameters.
- `Grid1d.DivideByFixedLength` is passed in as the list of cell end points.
- The older orchestrator file, the generated DTOs and hosting code are glue, and are not modelled.
- `Settings.CenterlineDistances` (used at src/ZR8127VantageElementUtils.cs:24) is not part of this model. It is taken to be `Lookups.CenterlineDistances`, which the older `CenterlineSettings.Lookup` is proved to agree with.
- The site rectangle (`Perimeter.Bounds()`), its centroid and its segments are inputs. The bounding-box computation is not modelled.
- Envelope material, names and Guids are not modelled.
- The model-dependency lookup by name is an `Option` input for sites and for envelopes.
- Dictionary keys are unbounded integers; the 64-bit `long` range of `maxVertexKey + 1` is not modelled.
- Dictionary enumeration order is modelled as the order of the given key/value list.
- Floating-point rounding is not modelled. Division by zero is modelled only for the overall score.
- ChartGrids.CalculateBoundingMultipliers: the in-place splitting of `RelevantPlanGrid` and its `FindCellAtPosition` lookups are modelled by a function `relevantOf`. That function gives the relevant subcell of each original subcell. The range lemmas assume only that the relevant subcell lies inside its original; the exact cell the library finds is not modelled.
- ChartGrids.CalculateBoundingMultipliers: the multipliers are returned by base cell, not written into cell `Type` strings.
- ChartGrids.MakePlanGrid: this requires the 101 plan-angle samples to increase strictly, an assumption the plan grid relies on. Otherwise the library's split would skip positions.
- Diagram.Diagram.constructor: this makes the same strict-increase assumption. The vantage point's `CenterlineOffsetDist` and `DaylightBoundaries` are constructor inputs, because the shown VantagePoint class has no such members.
- Silhouettes.ViewOf: drawAndCalculateSilhouettes (src/ZR8127Diagram.cs:232-254) reads the lowercase `points`, `lines` and `surfaces` of the older class (src/ZR8127Utilities.cs.cs:14-16). It also uses each surface entry as a half-edge, which only the newer class's `Surfaces` holds (src/ZR8127SolidAnalysisObject.cs:17). The model reads the newer class, SolidAnalysis.SolidAnalysisObject.
- Silhouettes.CollectPolygons: the polygon-constructor exception is folded into the library's `accepts` test, together with the area test.
- SolidAnalysis.AnalysisFailsOnlyOnMissingVertex: only one direction is stated. An end key missing from the solid's vertices does not always fail, because the live dictionary also holds keys minted for earlier edges.
- SolidAnalysis.MakeFromEnvelopes: this requires distinct vertex and edge keys in every solid, which a dictionary guarantees in the source.
- Evaluation.Execute: this requires distinct keys in every solid, as above. It also requires every extrusion to produce keyed solids.
- Evaluation.Execute: the Malformed error does not record which solid failed.
- VantageStreets.CreateVantageStreet: the override's identity bookkeeping (`AddOverrideIdentity`) and the street name are not modelled.
- VantageStreets.CreateVantageStreet: distances are compared as squared distances, which give the same order.
- VantageStreets.CreateVantageStreet: the source gets the vantage points from a `GetVantagePoints(outputVantageStreet, model)` overload (src/ZR8127VantageElementUtils.cs:31), which is not part of this model. It is taken to delegate to `GetVantagePoints(centerline, frontLotLine, …)` (src/ZR8127VantagePoint.cs:83) with the street's centerline and front lot line.
