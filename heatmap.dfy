/**
 * The crowd heatmap component (components/heatmap.tsx): each snapshot of the
 * `heatmaps` node replaces the shown records, and every record becomes a
 * marker whose colour comes from its stored crowd level, whose size comes
 * from its occupancy, and whose position comes from its index in the list.
 */
module HeatmapView {
  import opened Wrappers
  import opened Schema
  import Server

  datatype MarkerSize = Small | MediumSize | Large

  function SizeRank(s: MarkerSize): nat {
    match s
    case Small => 0
    case MediumSize => 1
    case Large => 2
  }

  /** `(count / capacity) * 100 < bound` for a positive capacity is `100 * count < bound * capacity`. */
  lemma PercentBelow(count: int, capacity: int, bound: int)
    requires capacity > 0
    ensures (count as real / capacity as real) * 100.0 < bound as real <==> 100 * count < bound * capacity
  {
    var c := capacity as real;
    var q := count as real / c;
    assert q * c == count as real;
    assert (q * 100.0) * c == 100.0 * (count as real);
    if q * 100.0 < bound as real {
      assert (q * 100.0) * c < (bound as real) * c;
    } else {
      assert (q * 100.0) * c >= (bound as real) * c;
    }
  }

  /** With a negative capacity the comparison turns round: `100 * count > bound * capacity`. */
  lemma PercentBelowNegative(count: int, capacity: int, bound: int)
    requires capacity < 0
    ensures (count as real / capacity as real) * 100.0 < bound as real <==> 100 * count > bound * capacity
  {
    var c := capacity as real;
    assert count as real / c == (-count) as real / (-c);
    PercentBelow(-count, -capacity, bound);
  }

  /**
   * `getCrowdLevelSize`: small under 30% occupancy, medium under 70%, large
   * otherwise; the level argument is not used. With a zero capacity the
   * floating-point ratio is infinite or NaN, so only a negative count is
   * small; a negative capacity turns the integer comparisons round.
   */
  function Size(currentCount: int, capacity: int): (r: MarkerSize)
    ensures capacity != 0 ==>
      var pct := (currentCount as real / capacity as real) * 100.0;
      && (r == Small <==> pct < 30.0)
      && (r == MediumSize <==> 30.0 <= pct < 70.0)
      && (r == Large <==> pct >= 70.0)
    ensures capacity == 0 ==> (r == Small <==> currentCount < 0) && (r != Small ==> r == Large)
  {
    if capacity > 0 then
      PercentBelow(currentCount, capacity, 30);
      PercentBelow(currentCount, capacity, 70);
      if 100 * currentCount < 30 * capacity then Small
      else if 100 * currentCount < 70 * capacity then MediumSize
      else Large
    else if capacity == 0 then
      if currentCount < 0 then Small else Large
    else
      PercentBelowNegative(currentCount, capacity, 30);
      PercentBelowNegative(currentCount, capacity, 70);
      if 100 * currentCount > 30 * capacity then Small
      else if 100 * currentCount > 70 * capacity then MediumSize
      else Large
  }

  /** For a fixed positive capacity the marker never shrinks as the count grows. */
  lemma SizeMonotone(count: int, more: int, capacity: int)
    requires capacity > 0 && count <= more
    ensures SizeRank(Size(count, capacity)) <= SizeRank(Size(more, capacity))
  {
  }

  /** `getCrowdLevelColor`: green, orange and red for the three levels, gray for anything else. */
  function Color(level: string): (r: string)
    ensures level == "safe" ==> r == "bg-green-500"
    ensures level == "moderate" ==> r == "bg-orange-500"
    ensures level == "crowded" ==> r == "bg-red-500"
    ensures level !in {"safe", "moderate", "crowded"} ==> r == "bg-gray-500"
  {
    match level
    case "safe" => "bg-green-500"
    case "moderate" => "bg-orange-500"
    case "crowded" => "bg-red-500"
    case _ => "bg-gray-500"
  }

  /** The marker's top offset, in percent, for the record at `index`. */
  function Top(index: nat): (r: nat)
    ensures r in {20, 35, 50, 65}
  {
    20 + (index * 15) % 60
  }

  /** The marker's left offset, in percent, for the record at `index`. */
  function Left(index: nat): (r: nat)
    ensures r in {20, 40, 60}
  {
    20 + (index * 20) % 60
  }

  /** Markers repeat their vertical offset every four records and their horizontal one every three. */
  lemma PositionsRepeat(index: nat)
    ensures Top(index + 4) == Top(index)
    ensures Left(index + 3) == Left(index)
  {
    assert (index + 4) * 15 == index * 15 + 60;
    assert (index + 3) * 20 == index * 20 + 60;
  }

  /** One drawn marker. */
  datatype Marker = Marker(key: string, color: string, size: MarkerSize, top: nat, left: nat)

  function MarkerOf(h: Heatmap, index: nat): Marker {
    Marker(h.id, Color(CrowdLevelName(h.crowdLevel)), Size(h.currentCount, h.capacity), Top(index), Left(index))
  }

  /** The markers of the shown records, in order. */
  function Markers(shown: seq<Heatmap>): (r: seq<Marker>)
    ensures |r| == |shown|
    ensures forall i :: 0 <= i < |shown| ==>
      (&& r[i].key == shown[i].id
       && r[i].color == Color(CrowdLevelName(shown[i].crowdLevel))
       && r[i].size == Size(shown[i].currentCount, shown[i].capacity)
       && r[i].top == Top(i) && r[i].left == Left(i))
  {
    seq(|shown|, i requires 0 <= i < |shown| => MarkerOf(shown[i], i))
  }

  /** A marker's colour follows its stored level alone and is never the gray fallback. */
  lemma ColorFollowsStoredLevel(h: Heatmap, g: Heatmap, i: nat, j: nat)
    requires h.crowdLevel == g.crowdLevel
    ensures MarkerOf(h, i).color == MarkerOf(g, j).color
    ensures MarkerOf(h, i).color != "bg-gray-500"
  {
  }

  /**
   * The subscription callback: a null snapshot keeps the shown records,
   * any other replaces them wholesale (and moves the update time to now).
   */
  function OnSnapshot(shown: seq<Heatmap>, updated: int, snapshot: Option<seq<Heatmap>>, now: int)
    : (r: (seq<Heatmap>, int))
    ensures snapshot.None? ==> r == (shown, updated)
    ensures snapshot.Some? ==> r.0 == snapshot.value && r.1 == now
  {
    if snapshot.None? then (shown, updated) else (snapshot.value, now)
  }

  /**
   * A record like the Express store's seeded Bridge Junction (stored as
   * moderate, 600 of 800) would be drawn orange yet with the large marker,
   * while the component's legend puts moderate at 31-70%. The component
   * itself reads the Firebase `heatmaps` node, not that store.
   */
  lemma BridgeJunctionDrawnLarge()
    ensures Server.SampleHeatmaps[1].area == "Bridge Junction"
    ensures MarkerOf(Server.SampleHeatmaps[1], 1).color == "bg-orange-500"
    ensures MarkerOf(Server.SampleHeatmaps[1], 1).size == Large
  {
    var h := Server.SampleHeatmaps[1];
    assert h.capacity == 800 && h.currentCount == 600;
    assert Size(600, 800) == Large;
  }
}
