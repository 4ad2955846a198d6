/**
 * The pilgrim dashboard (pilgrim/dashboard.tsx): the crowd level around the
 * pilgrim, counted over the density samples within reach, and the location
 * text of the SOS notice. Which samples are within reach is a Euclidean
 * distance test on coordinates; it is given as a predicate.
 */
module PilgrimDashboard {
  import opened Wrappers
  import opened Density

  datatype LocalLevel = LocalLow | LocalMedium | LocalHigh

  function LocalRank(l: LocalLevel): nat {
    match l
    case LocalLow => 0
    case LocalMedium => 1
    case LocalHigh => 2
  }

  /** `heatmapData.filter(point => near(point))`. */
  function Nearby(points: seq<DensityPoint>, near: DensityPoint -> bool): (r: seq<DensityPoint>)
    ensures |r| <= |points|
    ensures forall p :: p in r <==> p in points && near(p)
  {
    if points == [] then []
    else Nearby(points[..|points| - 1], near) + (if near(points[|points| - 1]) then [points[|points| - 1]] else [])
  }

  /** The rule over the nearby counts: more than two high is High; any high or over three medium is Medium. */
  function LevelOfNearby(high: nat, medium: nat): (r: LocalLevel)
    ensures r == LocalHigh <==> high > 2
    ensures r == LocalMedium <==> high <= 2 && (high > 0 || medium > 3)
    ensures r == LocalLow <==> high == 0 && medium <= 3
  {
    if high > 2 then LocalHigh
    else if high > 0 || medium > 3 then LocalMedium
    else LocalLow
  }

  /**
   * `getCurrentCrowdLevel`: Low without samples or without a (truthy)
   * latitude, otherwise the rule over the nearby samples.
   */
  function CurrentLevel(points: seq<DensityPoint>, lat: Option<real>, near: DensityPoint -> bool)
    : (r: LocalLevel)
    ensures points == [] || lat.None? || lat.value == 0.0 ==> r == LocalLow
    ensures points != [] && lat.Some? && lat.value != 0.0 ==>
      r == LevelOfNearby(Count(Nearby(points, near), High), Count(Nearby(points, near), Medium))
  {
    if points == [] || lat.None? || lat.value == 0.0 then LocalLow
    else
      var nearby := Nearby(points, near);
      LevelOfNearby(Count(nearby, High), Count(nearby, Medium))
  }

  /** The filter keeps each sample within reach exactly as often as it occurs, and no other. */
  lemma {:induction false} NearbyMultiplicity(points: seq<DensityPoint>, near: DensityPoint -> bool, p: DensityPoint)
    ensures multiset(Nearby(points, near))[p] == if near(p) then multiset(points)[p] else 0
  {
    if points != [] {
      assert points == points[..|points| - 1] + [points[|points| - 1]];
      NearbyMultiplicity(points[..|points| - 1], near, p);
    }
  }

  /** The positions holding a sample within reach with intensity `i`. */
  function NearIndices(points: seq<DensityPoint>, near: DensityPoint -> bool, i: Intensity): set<nat> {
    set j: nat | j < |points| && near(points[j]) && points[j].intensity == i
  }

  lemma NearIndicesAppend(points: seq<DensityPoint>, p: DensityPoint, near: DensityPoint -> bool, i: Intensity)
    ensures NearIndices(points + [p], near, i)
         == NearIndices(points, near, i) + (if near(p) && p.intensity == i then {|points|} else {})
  {
  }

  /** The nearby count of an intensity is the number of positions holding a sample within reach of it. */
  lemma {:induction false} NearbyCount(points: seq<DensityPoint>, near: DensityPoint -> bool, i: Intensity)
    ensures Count(Nearby(points, near), i) == |NearIndices(points, near, i)|
  {
    if points != [] {
      var m := |points| - 1;
      var pre, last := points[..m], points[m];
      assert points == pre + [last];
      NearbyCount(pre, near, i);
      NearIndicesAppend(pre, last, near, i);
      if near(last) {
        assert Nearby(points, near) == Nearby(pre, near) + [last];
        CountAppend(Nearby(pre, near), last, i);
      } else {
        assert Nearby(points, near) == Nearby(pre, near);
      }
    }
  }

  /** For fixed nearby counts, one more high or medium point never lowers the level. */
  lemma MoreCrowdNeverLowers(high: nat, medium: nat)
    ensures LocalRank(LevelOfNearby(high, medium)) <= LocalRank(LevelOfNearby(high + 1, medium))
    ensures LocalRank(LevelOfNearby(high, medium)) <= LocalRank(LevelOfNearby(high, medium + 1))
  {
  }

  /** Appending a nearby point of intensity `i` adds one to the count of `i` and nothing else. */
  lemma {:induction false} NearbyAppend(points: seq<DensityPoint>, p: DensityPoint, near: DensityPoint -> bool, i: Intensity)
    requires near(p)
    ensures Count(Nearby(points + [p], near), i)
         == Count(Nearby(points, near), i) + (if p.intensity == i then 1 else 0)
  {
    assert (points + [p])[..|points|] == points;
    var n := Nearby(points + [p], near);
    assert n == Nearby(points, near) + [p];
    assert n[..|n| - 1] == Nearby(points, near);
  }

  /** A new nearby high or medium sample never lowers the pilgrim's crowd level. */
  lemma NearbyCrowdNeverLowers(points: seq<DensityPoint>, p: DensityPoint, lat: real, near: DensityPoint -> bool)
    requires points != [] && lat != 0.0 && near(p) && p.intensity != Low
    ensures LocalRank(CurrentLevel(points, Some(lat), near)) <= LocalRank(CurrentLevel(points + [p], Some(lat), near))
  {
    NearbyAppend(points, p, near, High);
    NearbyAppend(points, p, near, Medium);
    MoreCrowdNeverLowers(Count(Nearby(points, near), High), Count(Nearby(points, near), Medium));
  }

  /** The location part of the SOS notice. */
  datatype SosLocation = Unavailable | Coordinates(lat: real, lng: Option<real>)

  const UnavailableText: string := "Location unavailable - Please enable GPS"

  /**
   * `handleSOS`: the location is unavailable exactly when there is a
   * location error or the latitude is absent or 0.
   */
  function SosLocationOf(locationError: Option<string>, lat: Option<real>, lng: Option<real>)
    : (r: SosLocation)
    ensures r == Unavailable <==>
      (locationError.Some? && locationError.value != "") || lat.None? || lat.value == 0.0
    ensures r.Coordinates? ==> r.lat == lat.value && r.lng == lng
  {
    if (locationError.Some? && locationError.value != "") || lat.None? || lat.value == 0.0 then Unavailable
    else Coordinates(lat.value, lng)
  }
}
