/** The street-width lookup table (ZR8127Lookups.cs): the nominal distance from
    the front lot line to the far side of the street, by width category. Half of
    it is the centerline offset. */
module Lookups {
  import opened Geometry

  /** The five vantage-street width categories, in their declared order. */
  datatype StreetWidth = W60ft | W75ft | W80ft | W100ft | W140ftParkAvenue

  /** Position of a category in the declared order. */
  function Rank(w: StreetWidth): nat
  {
    match w
    case W60ft => 0
    case W75ft => 1
    case W80ft => 2
    case W100ft => 3
    case W140ftParkAvenue => 4
  }

  /** Lookups.CenterlineDistances, a constant dictionary. */
  function CenterlineDistances(): map<StreetWidth, real>
  {
    map[
      W60ft := FeetToMeters(60.0),
      W75ft := FeetToMeters(80.0),
      W80ft := FeetToMeters(80.0),
      W100ft := FeetToMeters(100.0),
      W140ftParkAvenue := FeetToMeters(140.0)
    ]
  }

  /** The dictionary is defined for every width category and every distance is
      positive. */
  lemma {:induction false} CenterlineDistancesTotal()
    ensures forall w: StreetWidth :: w in CenterlineDistances() && CenterlineDistances()[w] > 0.0
  {
    forall w: StreetWidth
      ensures w in CenterlineDistances() && CenterlineDistances()[w] > 0.0
    {
      match w
      case W60ft =>
      case W75ft =>
      case W80ft =>
      case W100ft =>
      case W140ftParkAvenue =>
    }
  }

  /** A wider category never maps to a shorter distance. */
  lemma {:induction false} CenterlineDistancesMonotone(w1: StreetWidth, w2: StreetWidth)
    requires Rank(w1) <= Rank(w2)
    ensures w1 in CenterlineDistances() && w2 in CenterlineDistances()
    ensures CenterlineDistances()[w1] <= CenterlineDistances()[w2]
  {
    CenterlineDistancesTotal();
  }

  /** The 75 ft category uses the 80 ft distance; the other categories use their
      own nominal width, all in metres. */
  lemma {:induction false} CenterlineDistanceValues()
    ensures CenterlineDistances()[W60ft] == FeetToMeters(60.0)
    ensures CenterlineDistances()[W75ft] == CenterlineDistances()[W80ft] == FeetToMeters(80.0)
    ensures CenterlineDistances()[W100ft] == FeetToMeters(100.0)
    ensures CenterlineDistances()[W140ftParkAvenue] == FeetToMeters(140.0)
  {
  }
}

/** The older copy of the same table (ZR8127Settings.cs, CenterlineSettings.Lookup). */
module CenterlineSettings {
  import opened Geometry
  import opened Lookups

  /** CenterlineSettings.Lookup, a constant dictionary. */
  function Lookup(): map<StreetWidth, real>
  {
    map[
      W60ft := FeetToMeters(60.0),
      W75ft := FeetToMeters(80.0),
      W80ft := FeetToMeters(80.0),
      W100ft := FeetToMeters(100.0),
      W140ftParkAvenue := FeetToMeters(140.0)
    ]
  }

  /** The older table agrees entry for entry with Lookups.CenterlineDistances,
      so it is total, positive, maps 75 ft to 80 ft and is non-decreasing too. */
  lemma {:induction false} LookupAgreesWithCenterlineDistances()
    ensures forall w: StreetWidth :: w in Lookup() && Lookup()[w] == CenterlineDistances()[w]
    ensures Lookup()[W75ft] == FeetToMeters(80.0)
  {
    CenterlineDistancesTotal();
    assert Lookup() == CenterlineDistances();
  }
}
