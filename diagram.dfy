/** The daylight diagram of one vantage point (ZR8127Diagram.cs): its section
    grid, its plan grid, and what CalculateProfileCurvesAndBoundingSquares and
    drawAndCalculateSilhouettes store on it. */
module Diagram {
  import opened Wrappers
  import opened Geometry
  import opened Grids
  import opened ChartGrids
  import opened Silhouettes
  import SolidAnalysis

  class Diagram {
    /** The vantage point's centerline offset, daylight boundaries and plan
        angle function (VantagePoint.GetPlanAngle). */
    const centerlineOffsetDist: real
    const daylightBoundaries: Domain1d
    const planAngle: (real, real) -> real

    var sectionBelow: seq<Cell>
    var sectionAbove: seq<Cell>
    var basePlanGrid: seq<Cell>
    var profileCurves: seq<seq<Vec2>>
    /** The multiplier recorded on each relevant plan cell, by base cell; None
        for base cells outside the daylight boundaries. */
    var relevantMultipliers: seq<Option<real>>
    var rawSilhouettes: seq<seq<Vec2>>
    var drawSilhouettes: seq<seq<Vec2>>

    /** The grids are the ones makeSectionGrid and makePlanGrid build. */
    ghost predicate Valid()
      reads this
    {
      && IsSectionGrid(sectionBelow, sectionAbove)
      && StrictlyIncreasing(PlanSamples(centerlineOffsetDist, planAngle))
      && IsPlanGrid(basePlanGrid, PlanSamples(centerlineOffsetDist, planAngle))
    }

    /** The Diagram constructor: the section grid initialiser, then the plan
        grid of the vantage point. */
    constructor (centerlineOffsetDist: real, daylightBoundaries: Domain1d, planAngle: (real, real) -> real)
      requires StrictlyIncreasing(PlanSamples(centerlineOffsetDist, planAngle))
      ensures Valid()
      ensures this.centerlineOffsetDist == centerlineOffsetDist && this.daylightBoundaries == daylightBoundaries
      ensures this.planAngle == planAngle
      ensures profileCurves == [] && relevantMultipliers == []
      ensures rawSilhouettes == [] && drawSilhouettes == []
    {
      this.centerlineOffsetDist := centerlineOffsetDist;
      this.daylightBoundaries := daylightBoundaries;
      this.planAngle := planAngle;
      profileCurves := [];
      relevantMultipliers := [];
      rawSilhouettes := [];
      drawSilhouettes := [];
      new;
      sectionBelow, sectionAbove := MakeSectionGrid();
      basePlanGrid := MakePlanGrid(centerlineOffsetDist, planAngle);
    }

    /** CalculateProfileCurvesAndBoundingSquares: keep the profile curves that
        reach the daylight boundaries and record the multiplier of every base
        plan cell that overlaps them. */
    method CalculateProfileCurvesAndBoundingSquares(relevantOf: Domain1d -> Domain1d)
      requires Valid()
      modifies this
      ensures Valid()
      ensures sectionBelow == old(sectionBelow) && sectionAbove == old(sectionAbove) && basePlanGrid == old(basePlanGrid)
      ensures rawSilhouettes == old(rawSilhouettes) && drawSilhouettes == old(drawSilhouettes)
      ensures profileCurves == KeptProfiles(ProfileCandidates(centerlineOffsetDist, planAngle), daylightBoundaries)
      ensures forall j :: 0 <= j < |basePlanGrid| ==> PositiveCells(basePlanGrid[j].cells)
      ensures relevantMultipliers == Multipliers(basePlanGrid, relevantOf, daylightBoundaries)
    {
      profileCurves := CalculateProfileCurves(centerlineOffsetDist, planAngle, daylightBoundaries);
      PlanGridShape(basePlanGrid, PlanSamples(centerlineOffsetDist, planAngle));
      relevantMultipliers := CalculateBoundingMultipliers(basePlanGrid, relevantOf, daylightBoundaries);
    }

    /** drawAndCalculateSilhouettes without the drawing: collect the face
        polygons of the analysis objects and union them. */
    method CalculateSilhouettes(analysisObjects: seq<SolidAnalysis.SolidAnalysisObject>,
                                analysisPointOf: Vec3 -> AnalysisPoint, useRawAngles: bool, lib: PolygonLibrary)
      requires Valid()
      requires forall i :: 0 <= i < |analysisObjects| ==> analysisObjects[i].Valid()
      modifies this
      ensures Valid()
      ensures sectionBelow == old(sectionBelow) && sectionAbove == old(sectionAbove) && basePlanGrid == old(basePlanGrid)
      ensures profileCurves == old(profileCurves) && relevantMultipliers == old(relevantMultipliers)
      ensures AllClosed(Views(analysisObjects))
      ensures var loops := AllLoops(Views(analysisObjects), analysisPointOf);
        && rawSilhouettes == lib.unionAll(RawPolygons(loops, lib))
        && drawSilhouettes == (if useRawAngles then rawSilhouettes else lib.unionAll(DrawPolygons(loops, useRawAngles, lib)))
    {
      var rawPolygons, drawPolygons := CollectPolygons(analysisObjects, analysisPointOf, useRawAngles, lib);
      var silhouettes := UnionSilhouettes(rawPolygons, drawPolygons, useRawAngles, lib);
      rawSilhouettes := silhouettes.0;
      drawSilhouettes := silhouettes.1;
    }
  }
}
