/** The scoring cells of a daylight chart (ZR8127Square.cs): a Square pairs
    one plan-angle cell with one section-angle cell and carries a potential
    score (blockage or credit weight) and a potential profile penalty. A cell
    whose plan id is not a whole number is a subsquare and weighs a tenth. */
module Squares {
  import opened Geometry

  /** A plan-angle cell: its id, its interval and its daylight-boundary
      multiplier. */
  datatype PlanGrid = PlanGrid(id: real, grid: Domain1d, multiplier: real)

  /** A section-angle cell: its id (the lower section angle) and its interval. */
  datatype SectionGrid = SectionGrid(id: real, grid: Domain1d)

  /** The PlanGrid constructor without a multiplier. */
  function NewPlanGrid(id: real, grid: Domain1d): (r: PlanGrid)
    ensures r.id == id && r.grid == grid && r.multiplier == 0.0
  {
    PlanGrid(id, grid, 0.0)
  }

  /** `id % 1.0 != 0.0`: the id has a fractional part. */
  predicate IsSubsquare(planId: real)
  {
    planId.Floor as real != planId
  }

  /** The key into the profile-encroachment table: the plan and section ids
      rounded down. */
  function EncroachmentKey(planId: real, sectionId: real): (int, int)
  {
    (planId.Floor, sectionId.Floor)
  }

  /** Polygon.Rectangle from a lower-left to an upper-right corner. */
  function Rectangle(min: Vec2, max: Vec2): seq<Vec2>
  {
    [min, Vec2(max.x, min.y), max, Vec2(min.x, max.y)]
  }

  /** The potential score as a decision table, in priority order: at or above
      the cutoff a blockage weight; below it a credit weight when street-wall
      continuity is off, the plan interval ends at or below the cutoff and the
      multiplier is the unclipped value (1.0, or 0.2 for a subsquare);
      otherwise nothing. */
  function ScoreRule(plan: PlanGrid, section: SectionGrid, streetWallContinuity: bool, cutoff: real): real
  {
    var sub := IsSubsquare(plan.id);
    if section.id >= cutoff then
      if sub then -0.1 else -1.0
    else if CreditEligible(plan, streetWallContinuity, cutoff) then
      if sub then 0.03 else 0.3
    else
      0.0
  }

  /** The credit test (the plan interval is compared with the section cutoff,
      as the source does). */
  predicate CreditEligible(plan: PlanGrid, streetWallContinuity: bool, cutoff: real)
  {
    && !streetWallContinuity
    && plan.grid.max <= cutoff
    && plan.multiplier == (if IsSubsquare(plan.id) then 0.2 else 1.0)
  }

  /** The profile penalty: minus the table value for a full square, minus a
      tenth of it for a subsquare, nothing when the key is absent. */
  function PenaltyRule(plan: PlanGrid, section: SectionGrid, encroachments: map<(int, int), real>): real
  {
    var key := EncroachmentKey(plan.id, section.id);
    if key !in encroachments then 0.0
    else if IsSubsquare(plan.id) then -(encroachments[key] / 10.0)
    else -encroachments[key]
  }

  class Square {
    var id: (real, real)
    var planGrid: PlanGrid
    var sectionGrid: SectionGrid
    var potentialScore: real
    var potentialProfilePenalty: real
    var polygon: seq<Vec2>
    var subSquares: seq<Square>

    /** The Square constructor, in the source's order: the penalty, then the
        credit, then the blockage weight, which overwrites any credit. */
    constructor (planGrid: PlanGrid, sectionGrid: SectionGrid, streetWallContinuity: bool,
                 encroachments: map<(int, int), real>, cutoff: real)
      ensures this.id == (planGrid.id, sectionGrid.id)
      ensures this.planGrid == planGrid && this.sectionGrid == sectionGrid
      ensures polygon == Rectangle(Vec2(planGrid.grid.min, sectionGrid.grid.min), Vec2(planGrid.grid.max, sectionGrid.grid.max))
      ensures potentialScore == ScoreRule(planGrid, sectionGrid, streetWallContinuity, cutoff)
      ensures potentialProfilePenalty == PenaltyRule(planGrid, sectionGrid, encroachments)
      ensures subSquares == []
    {
      this.id := (planGrid.id, sectionGrid.id);
      this.planGrid := planGrid;
      this.sectionGrid := sectionGrid;
      potentialScore := 0.0;
      potentialProfilePenalty := 0.0;
      subSquares := [];
      polygon := Rectangle(Vec2(planGrid.grid.min, sectionGrid.grid.min), Vec2(planGrid.grid.max, sectionGrid.grid.max));

      var isSubsquare := planGrid.id.Floor as real != planGrid.id;
      var key := (planGrid.id.Floor, sectionGrid.id.Floor);
      if key in encroachments {
        potentialProfilePenalty := -1.0 * (if !isSubsquare then encroachments[key] else encroachments[key] / 10.0);
      }
      if !streetWallContinuity && planGrid.grid.max <= cutoff && planGrid.multiplier == (if isSubsquare then 0.2 else 1.0) {
        potentialScore := if isSubsquare then 0.03 else 0.3;
      }
      if sectionGrid.id >= cutoff {
        potentialScore := -1.0 * (if isSubsquare then 0.1 else 1.0);
      }
    }
  }

  /** A whole plan id is a full square; an id strictly between two
      consecutive whole numbers is a subsquare. */
  lemma {:induction false} SubsquareIffFractional(n: int, planId: real)
    ensures !IsSubsquare(n as real)
    ensures n as real < planId < n as real + 1.0 ==> IsSubsquare(planId)
  {
    if n as real < planId < n as real + 1.0 {
      assert planId.Floor == n;
    }
  }

  /** A full square scores −1, 0 or 0.3; a subsquare −0.1, 0 or 0.03. */
  lemma {:induction false} ScoreValues(plan: PlanGrid, section: SectionGrid, streetWallContinuity: bool, cutoff: real)
    ensures var s := ScoreRule(plan, section, streetWallContinuity, cutoff);
      if IsSubsquare(plan.id) then s == -0.1 || s == 0.0 || s == 0.03
      else s == -1.0 || s == 0.0 || s == 0.3
  {
  }

  /** At or above the cutoff the score is the blockage weight, whatever the
      credit test says, and a negative score happens only there. */
  lemma {:induction false} ScoreBlockage(plan: PlanGrid, section: SectionGrid, streetWallContinuity: bool, cutoff: real)
    ensures var s := ScoreRule(plan, section, streetWallContinuity, cutoff);
      && (section.id >= cutoff ==> s == if IsSubsquare(plan.id) then -0.1 else -1.0)
      && (s < 0.0 <==> section.id >= cutoff)
  {
  }

  /** Credit is given exactly when street-wall continuity is off, the plan
      interval ends at or below the cutoff, the multiplier is the unclipped
      value and the section lies below the cutoff. */
  lemma {:induction false} ScoreCredit(plan: PlanGrid, section: SectionGrid, streetWallContinuity: bool, cutoff: real)
    ensures var s := ScoreRule(plan, section, streetWallContinuity, cutoff);
      s > 0.0 <==>
        && !streetWallContinuity
        && plan.grid.max <= cutoff
        && plan.multiplier == (if IsSubsquare(plan.id) then 0.2 else 1.0)
        && section.id < cutoff
  {
  }

  /** A subsquare's blockage weight is a tenth of a full square's. */
  lemma {:induction false} SubsquareBlockageIsTenth(sub: PlanGrid, full: PlanGrid, section: SectionGrid, streetWallContinuity: bool, cutoff: real)
    requires IsSubsquare(sub.id) && !IsSubsquare(full.id) && section.id >= cutoff
    ensures ScoreRule(sub, section, streetWallContinuity, cutoff) == ScoreRule(full, section, streetWallContinuity, cutoff) / 10.0
  {
  }

  /** An absent key gives no penalty; a present one gives minus its value for
      a full square and a tenth of that for a subsquare sharing its key, and a
      non-negative table value never gives a positive penalty. */
  lemma {:induction false} PenaltyFacts(sub: PlanGrid, full: PlanGrid, section: SectionGrid, encroachments: map<(int, int), real>)
    requires IsSubsquare(sub.id) && !IsSubsquare(full.id)
    requires EncroachmentKey(sub.id, section.id) == EncroachmentKey(full.id, section.id)
    ensures var key := EncroachmentKey(full.id, section.id);
      && (key !in encroachments ==> PenaltyRule(full, section, encroachments) == 0.0 == PenaltyRule(sub, section, encroachments))
      && (key in encroachments ==> PenaltyRule(full, section, encroachments) == -encroachments[key])
      && PenaltyRule(sub, section, encroachments) == PenaltyRule(full, section, encroachments) / 10.0
      && (key in encroachments && encroachments[key] >= 0.0 ==>
            PenaltyRule(full, section, encroachments) <= 0.0 && PenaltyRule(sub, section, encroachments) <= 0.0)
  {
  }

  /** The square's polygon spans exactly its plan interval across and its
      section interval up. */
  lemma {:induction false} RectangleSpans(plan: Domain1d, section: Domain1d)
    requires WellFormed(plan) && WellFormed(section)
    ensures var r := Rectangle(Vec2(plan.min, section.min), Vec2(plan.max, section.max));
      && |r| == 4
      && (forall i :: 0 <= i < 4 ==> InDomain(r[i].x, plan) && InDomain(r[i].y, section))
      && (exists i :: 0 <= i < 4 && r[i] == Vec2(plan.min, section.min))
      && (exists i :: 0 <= i < 4 && r[i] == Vec2(plan.max, section.max))
  {
    var r := Rectangle(Vec2(plan.min, section.min), Vec2(plan.max, section.max));
    assert r[0] == Vec2(plan.min, section.min);
    assert r[2] == Vec2(plan.max, section.max);
  }
}
