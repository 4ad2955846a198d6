/**
 * The simulated crowd-density samples that both dashboards draw around the
 * device's position (command/dashboard.tsx and pilgrim/dashboard.tsx):
 * generation, the periodic tick that redraws some populations and
 * reclassifies them, and the "time ago" / "next update in" read-outs.
 *
 * The two dashboards run the same algorithm with different constants, so it
 * is written once over a `Config`. `Math.random` is replaced by its integer
 * draws: the point count, each point's population offset and each tick's
 * coin. The position of a point and its generated intensity come from
 * trigonometry on random angles and are given as inputs.
 */
module Density {
  import opened Wrappers
  import opened Text

  datatype Intensity = Low | Medium | High

  function Rank(i: Intensity): nat {
    match i
    case Low => 0
    case Medium => 1
    case High => 2
  }

  /** The population `base + Math.floor(Math.random() * width)`. */
  datatype Band = Band(base: int, width: nat)

  datatype Config = Config(
    high: Band, medium: Band, low: Band,
    highAbove: int, mediumAbove: int,
    minPoints: nat, extraPoints: nat,
    cadence: nat, idPrefix: string, sectors: bool)

  /** The command dashboard: 25 to 39 points, thresholds 300/100, a 15-second tick, sectors of five. */
  const CommandConfig: Config := Config(
    Band(200, 400), Band(75, 125), Band(15, 60), 300, 100, 25, 15, 15, "cmd_point_", true)

  /** The pilgrim dashboard: 15 to 24 points, thresholds 200/75, a 30-second tick. */
  const PilgrimConfig: Config := Config(
    Band(150, 300), Band(50, 100), Band(10, 40), 200, 75, 15, 10, 30, "point_", false)

  function BandOf(cfg: Config, i: Intensity): Band {
    match i
    case High => cfg.high
    case Medium => cfg.medium
    case Low => cfg.low
  }

  predicate InBand(cfg: Config, i: Intensity, population: int) {
    BandOf(cfg, i).base <= population < BandOf(cfg, i).base + BandOf(cfg, i).width
  }

  /** The population bands of the command dashboard are [200,599], [75,199] and [15,74]. */
  lemma CommandBands(p: int)
    ensures InBand(CommandConfig, High, p) <==> 200 <= p <= 599
    ensures InBand(CommandConfig, Medium, p) <==> 75 <= p <= 199
    ensures InBand(CommandConfig, Low, p) <==> 15 <= p <= 74
  {
  }

  /** The population bands of the pilgrim dashboard are [150,449], [50,149] and [10,49]. */
  lemma PilgrimBands(p: int)
    ensures InBand(PilgrimConfig, High, p) <==> 150 <= p <= 449
    ensures InBand(PilgrimConfig, Medium, p) <==> 50 <= p <= 149
    ensures InBand(PilgrimConfig, Low, p) <==> 10 <= p <= 49
  {
  }

  /** The tick's reclassification: above `highAbove` is high, above `mediumAbove` medium, else low. */
  function Classify(cfg: Config, population: int): (r: Intensity)
    ensures r == High <==> population > cfg.highAbove
    ensures r == Medium <==> cfg.mediumAbove < population <= cfg.highAbove
    ensures r == Low <==> population <= cfg.mediumAbove && population <= cfg.highAbove
  {
    if population > cfg.highAbove then High
    else if population > cfg.mediumAbove then Medium
    else Low
  }

  /** A larger population is never classified lower. */
  lemma ClassifyMonotone(cfg: Config, p: int, q: int)
    requires cfg.mediumAbove <= cfg.highAbove && p <= q
    ensures Rank(Classify(cfg, p)) <= Rank(Classify(cfg, q))
  {
  }

  datatype DensityPoint = DensityPoint(
    id: string, lat: real, lng: real, intensity: Intensity, population: int,
    lastUpdated: int, sector: Option<string>)

  /** What generation draws for one point: its position, its intensity and its population offset. */
  datatype Draw = Draw(lat: real, lng: real, intensity: Intensity, offset: nat)

  predicate DrawFits(cfg: Config, d: Draw) {
    d.offset < BandOf(cfg, d.intensity).width
  }

  /** `${prefix}${i}`. */
  function PointId(cfg: Config, i: nat): string {
    cfg.idPrefix + NatToString(i)
  }

  /** `Sector ${Math.floor(i / 5) + 1}` on the command dashboard; the pilgrim's points have none. */
  function SectorOf(cfg: Config, i: nat): Option<string> {
    if cfg.sectors then Some("Sector " + NatToString(i / 5 + 1)) else None
  }

  /** Point `i` of a generation. */
  function GeneratedPoint(cfg: Config, i: nat, d: Draw, now: int): (p: DensityPoint)
    requires DrawFits(cfg, d)
    ensures p.id == PointId(cfg, i) && p.sector == SectorOf(cfg, i)
    ensures p.lat == d.lat && p.lng == d.lng && p.intensity == d.intensity && p.lastUpdated == now
    ensures InBand(cfg, p.intensity, p.population)
  {
    DensityPoint(PointId(cfg, i), d.lat, d.lng, d.intensity,
                 BandOf(cfg, d.intensity).base + d.offset, now, SectorOf(cfg, i))
  }

  /** How many of `points` have intensity `i` (`points.filter(p => p.intensity === i).length`). */
  function Count(points: seq<DensityPoint>, i: Intensity): (n: nat)
    ensures n <= |points|
    ensures n == |set j | 0 <= j < |points| && points[j].intensity == i|
  {
    if points == [] then 0
    else
      var m := |points| - 1;
      assert (set j | 0 <= j < |points| && points[j].intensity == i)
          == (set j | 0 <= j < m && points[..m][j].intensity == i) + (if points[m].intensity == i then {m} else {});
      Count(points[..m], i) + (if points[m].intensity == i then 1 else 0)
  }

  /** Appending a point adds one to the count of its own intensity only. */
  lemma CountAppend(points: seq<DensityPoint>, p: DensityPoint, i: Intensity)
    ensures Count(points + [p], i) == Count(points, i) + (if p.intensity == i then 1 else 0)
  {
    assert (points + [p])[..|points|] == points;
  }

  /** The count of a non-empty sequence is that of all but its last point, plus the last point's share. */
  lemma CountSnoc(points: seq<DensityPoint>, i: Intensity)
    requires points != []
    ensures Count(points, i) == Count(points[..|points| - 1], i) + (if points[|points| - 1].intensity == i then 1 else 0)
  {
  }

  /** Changing the point at `k` to `q` moves one from the old intensity's count to the new one's. */
  lemma {:induction false} CountUpdate(points: seq<DensityPoint>, k: nat, q: DensityPoint, i: Intensity)
    requires k < |points|
    ensures Count(points[k := q], i) + (if points[k].intensity == i then 1 else 0)
         == Count(points, i) + (if q.intensity == i then 1 else 0)
  {
    var m := |points| - 1;
    var u := points[k := q];
    CountSnoc(u, i);
    CountSnoc(points, i);
    if k < m {
      assert u[..m] == points[..m][k := q];
      assert u[m] == points[m];
      CountUpdate(points[..m], k, q, i);
    } else {
      assert u[..m] == points[..m];
    }
  }

  /** Generation runs only when both coordinates are truthy: absent or 0 disables it. */
  predicate GenerationEnabled(lat: Option<real>, lng: Option<real>) {
    lat.Some? && lat.value != 0.0 && lng.Some? && lng.value != 0.0
  }

  lemma ZeroCoordinateDisablesGeneration(lat: real, lng: Option<real>)
    ensures !GenerationEnabled(Some(0.0), lng) && !GenerationEnabled(Some(lat), Some(0.0))
  {
  }

  /**
   * `generateHeatmapData`: `minPoints + countDraw` points pushed one by one,
   * point `i` built from draw `i`.
   */
  method Generate(cfg: Config, countDraw: nat, draws: seq<Draw>, now: int) returns (points: seq<DensityPoint>)
    requires countDraw < cfg.extraPoints
    requires |draws| == cfg.minPoints + countDraw
    requires forall i :: 0 <= i < |draws| ==> DrawFits(cfg, draws[i])
    ensures cfg.minPoints <= |points| < cfg.minPoints + cfg.extraPoints
    ensures |points| == |draws|
    ensures forall i :: 0 <= i < |points| ==> points[i] == GeneratedPoint(cfg, i, draws[i], now)
    ensures forall i :: 0 <= i < |points| ==> InBand(cfg, points[i].intensity, points[i].population)
  {
    var numPoints := cfg.minPoints + countDraw;
    points := [];
    var i := 0;
    while i < numPoints
      invariant 0 <= i <= numPoints
      invariant |points| == i
      invariant forall j :: 0 <= j < i ==> points[j] == GeneratedPoint(cfg, j, draws[j], now)
    {
      points := points + [GeneratedPoint(cfg, i, draws[i], now)];
      i := i + 1;
    }
  }

  /** The command dashboard generates between 25 and 39 points, the pilgrim dashboard 15 to 24. */
  lemma PointCounts(countDraw: nat)
    ensures countDraw < CommandConfig.extraPoints ==> 25 <= CommandConfig.minPoints + countDraw <= 39
    ensures countDraw < PilgrimConfig.extraPoints ==> 15 <= PilgrimConfig.minPoints + countDraw <= 24
  {
  }

  /**
   * Generation does not apply the tick's thresholds: a command-dashboard
   * point generated high with population 250 is classified medium.
   */
  lemma GenerationDisagreesWithThresholds(now: int)
    ensures GeneratedPoint(CommandConfig, 0, Draw(0.0, 0.0, High, 50), now).population == 250
    ensures Classify(CommandConfig, 250) == Medium
  {
  }

  /** One point of a tick: with the coin, redraw from the old intensity's band and reclassify. */
  function TickPoint(cfg: Config, p: DensityPoint, coin: bool, offset: nat, now: int): (q: DensityPoint)
    requires offset < BandOf(cfg, p.intensity).width
    ensures q.id == p.id && q.lat == p.lat && q.lng == p.lng && q.sector == p.sector
    ensures !coin ==> q == p
    ensures coin ==> q.intensity == Classify(cfg, q.population) && q.lastUpdated == now
    ensures coin ==> InBand(cfg, p.intensity, q.population)
  {
    if coin then
      var population := BandOf(cfg, p.intensity).base + offset;
      p.(intensity := Classify(cfg, population), population := population, lastUpdated := now)
    else p
  }

  predicate TickFits(cfg: Config, points: seq<DensityPoint>, coins: seq<bool>, offsets: seq<nat>) {
    |coins| == |points| && |offsets| == |points|
    && forall i :: 0 <= i < |points| ==> offsets[i] < BandOf(cfg, points[i].intensity).width
  }

  /** The interval callback: `prevData.map(...)`, point `i` with coin `i` and offset `i`. */
  function TickAll(cfg: Config, points: seq<DensityPoint>, coins: seq<bool>, offsets: seq<nat>, now: int)
    : (r: seq<DensityPoint>)
    requires TickFits(cfg, points, coins, offsets)
    ensures |r| == |points|
    ensures forall i :: 0 <= i < |r| ==>
      r[i].id == points[i].id && r[i].lat == points[i].lat && r[i].lng == points[i].lng
      && r[i].sector == points[i].sector
    ensures forall i :: 0 <= i < |r| && !coins[i] ==> r[i] == points[i]
    ensures forall i :: 0 <= i < |r| && coins[i] ==>
      r[i].intensity == Classify(cfg, r[i].population) && r[i].lastUpdated == now
  {
    seq(|points|, i requires 0 <= i < |points| => TickPoint(cfg, points[i], coins[i], offsets[i], now))
  }

  /**
   * On both dashboards a tick never raises a point's intensity: every band
   * lies at or below the thresholds of its own level, so a low point stays
   * low and a medium point never becomes high.
   */
  lemma TickNeverRaises(cfg: Config, p: DensityPoint, coin: bool, offset: nat, now: int)
    requires cfg == CommandConfig || cfg == PilgrimConfig
    requires offset < BandOf(cfg, p.intensity).width
    ensures Rank(TickPoint(cfg, p, coin, offset, now).intensity) <= Rank(p.intensity)
  {
  }

  /**
   * Each point is either as generation left it (population in its
   * intensity's band) or as a tick left it (intensity its population's class).
   */
  predicate Explained(cfg: Config, p: DensityPoint) {
    InBand(cfg, p.intensity, p.population) || p.intensity == Classify(cfg, p.population)
  }

  /** Seconds since `at`, rounded down (`Math.floor(ms / 1000)`). */
  function ElapsedSeconds(at: int, now: int): int {
    (now - at) / 1000
  }

  /** `getSecondsUntilUpdate`: the cadence less the whole seconds since the last update, at least 0. */
  function SecondsUntilUpdate(cadence: nat, last: Option<int>, now: int): (r: int)
    ensures r >= 0
    ensures last.None? ==> r == cadence
    ensures last.Some? && now >= last.value ==> r <= cadence
    ensures last.Some? ==> (r == 0 <==> ElapsedSeconds(last.value, now) >= cadence)
    ensures last.Some? && r > 0 ==> r + ElapsedSeconds(last.value, now) == cadence
  {
    if last.None? then cadence
    else
      var elapsed := ElapsedSeconds(last.value, now);
      if cadence - elapsed > 0 then cadence - elapsed else 0
  }

  /** The read-outs of `getTimeAgo`. */
  datatype Ago = Never | SecondsAgo(seconds: int) | MinutesAgo(minutes: int) | HoursAgo(hours: int)

  /** `getTimeAgo`: seconds under a minute, whole minutes under an hour, else whole hours. */
  function TimeAgo(date: Option<int>, now: int): (r: Ago)
    ensures r.Never? <==> date.None?
    ensures r.SecondsAgo? ==> r.seconds == ElapsedSeconds(date.value, now) && r.seconds < 60
    ensures r.MinutesAgo? ==> (1 <= r.minutes <= 59
      && r.minutes * 60 <= ElapsedSeconds(date.value, now) < (r.minutes + 1) * 60)
    ensures r.HoursAgo? ==> (r.hours >= 1
      && r.hours * 3600 <= ElapsedSeconds(date.value, now) < (r.hours + 1) * 3600)
    ensures date.Some? ==> (r.SecondsAgo? <==> ElapsedSeconds(date.value, now) < 60)
    ensures date.Some? ==> (r.HoursAgo? <==> ElapsedSeconds(date.value, now) >= 3600)
  {
    if date.None? then Never
    else
      var seconds := ElapsedSeconds(date.value, now);
      if seconds < 60 then SecondsAgo(seconds)
      else if seconds < 3600 then MinutesAgo(seconds / 60)
      else HoursAgo(seconds / 3600)
  }

  /** The text `getTimeAgo` renders. */
  function AgoText(a: Ago): string {
    match a
    case Never => "Never"
    case SecondsAgo(s) => IntToString(s) + "s ago"
    case MinutesAgo(m) => IntToString(m) + "m ago"
    case HoursAgo(h) => IntToString(h) + "h ago"
  }

  /** Different read-outs of `getTimeAgo` render as different texts. */
  lemma AgoTextInjective(a: Ago, b: Ago)
    requires AgoText(a) == AgoText(b)
    ensures a == b
  {
    if !a.Never? && !b.Never? {
      AgoTextOfCount(a);
      AgoTextOfCount(b);
      AgoReadOutInjective(AgoNumber(a), AgoUnit(a), AgoNumber(b), AgoUnit(b));
    }
  }

  /** The number a read-out other than `Never` shows. */
  function AgoNumber(a: Ago): int
    requires !a.Never?
  {
    match a
    case SecondsAgo(s) => s
    case MinutesAgo(m) => m
    case HoursAgo(h) => h
  }

  /** The unit letter a read-out other than `Never` shows. */
  function AgoUnit(a: Ago): char
    requires !a.Never?
  {
    match a
    case SecondsAgo(_) => 's'
    case MinutesAgo(_) => 'm'
    case HoursAgo(_) => 'h'
  }

  /** Every read-out but `Never` is its number, its unit letter and " ago". */
  lemma AgoTextOfCount(a: Ago)
    ensures !a.Never? ==> AgoText(a) == IntToString(AgoNumber(a)) + [AgoUnit(a)] + " ago"
    ensures a.Never? ==> AgoText(a) == "Never"
  {
  }

  /**
   * The sample set of one dashboard and the time it was last regenerated or
   * ticked.
   */
  class DensityMonitor {
    const cfg: Config
    var points: seq<DensityPoint>
    var lastUpdate: Option<int>

    /** Ids and sectors follow the position in the list, and every point is explained. */
    ghost predicate Valid()
      reads this
    {
      && (points == [] || cfg.minPoints <= |points| < cfg.minPoints + cfg.extraPoints)
      && (forall i :: 0 <= i < |points| ==> points[i].id == PointId(cfg, i) && points[i].sector == SectorOf(cfg, i))
      && (forall i :: 0 <= i < |points| ==> Explained(cfg, points[i]))
    }

    /** The state before the position is known: no points, last update at mount time. */
    constructor (cfg: Config, now: int)
      ensures Valid()
      ensures this.cfg == cfg && points == [] && lastUpdate == Some(now)
    {
      this.cfg := cfg;
      points := [];
      lastUpdate := Some(now);
    }

    /** The effect run on a position change: regenerate when both coordinates are truthy. */
    method Refresh(lat: Option<real>, lng: Option<real>, countDraw: nat, draws: seq<Draw>, now: int)
      requires Valid()
      requires countDraw < cfg.extraPoints && |draws| == cfg.minPoints + countDraw
      requires forall i :: 0 <= i < |draws| ==> DrawFits(cfg, draws[i])
      modifies this
      ensures Valid()
      ensures GenerationEnabled(lat, lng) ==>
        (lastUpdate == Some(now) && |points| == |draws|
         && forall i :: 0 <= i < |points| ==> points[i] == GeneratedPoint(cfg, i, draws[i], now))
      ensures !GenerationEnabled(lat, lng) ==> points == old(points) && lastUpdate == old(lastUpdate)
    {
      if GenerationEnabled(lat, lng) {
        points := Generate(cfg, countDraw, draws, now);
        lastUpdate := Some(now);
      }
    }

    /** One interval callback: the tick applied to every point, and the update time. */
    method Tick(coins: seq<bool>, offsets: seq<nat>, now: int)
      requires Valid() && TickFits(cfg, points, coins, offsets)
      modifies this
      ensures Valid()
      ensures points == TickAll(cfg, old(points), coins, offsets, now)
      ensures lastUpdate == Some(now)
    {
      ghost var before := points;
      points := TickAll(cfg, points, coins, offsets, now);
      assert forall i :: 0 <= i < |points| ==> points[i] == TickPoint(cfg, before[i], coins[i], offsets[i], now);
      lastUpdate := Some(now);
    }

    /** The seconds shown until the next tick. */
    function SecondsUntilNext(now: int): (r: int)
      reads this
      ensures 0 <= r
      ensures lastUpdate.Some? && now >= lastUpdate.value ==> r <= cfg.cadence
    {
      SecondsUntilUpdate(cfg.cadence, lastUpdate, now)
    }
  }
}
