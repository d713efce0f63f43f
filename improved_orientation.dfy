/** The geometry of the address-to-nearest-road script: a compass bearing on
    the Web Mercator plane (x east, y north, metres), and the search for the
    road nearest to the house. Geocoding, the road query, the map projection
    and the point-to-line measurements are foreign services; they enter as
    the fields of `GeoOps`. */
module ImprovedOrientation {
  import opened Plane
  import opened Selection
  import HouseOrientation

  /** bearing_from_point_to_point: the compass bearing (0 = north, 90 = east)
      of q seen from p. `atan2Deg(y, x)` stands for degrees(atan2(y, x)),
      the angle from east, counter-clockwise. */
  function BearingFromPointToPoint(atan2Deg: (real, real) -> real,
                                   px: real, py: real, qx: real, qy: real): (b: real)
    ensures 0.0 <= b < 360.0
    ensures IsWhole((90.0 - atan2Deg(qy - py, qx - px) - b) / 360.0)
  {
    var dx, dy := qx - px, qy - py;
    var theta := atan2Deg(dy, dx);
    FloorMod(90.0 - theta, 360.0)
  }

  /** Only the offset q - p matters: moving both points together keeps the bearing. */
  lemma BearingFromPointToPointTranslation(atan2Deg: (real, real) -> real,
                                           px: real, py: real, qx: real, qy: real,
                                           ox: real, oy: real)
    ensures BearingFromPointToPoint(atan2Deg, px + ox, py + oy, qx + ox, qy + oy)
         == BearingFromPointToPoint(atan2Deg, px, py, qx, qy)
  {
    assert (qx + ox) - (px + ox) == qx - px;
    assert (qy + oy) - (py + oy) == qy - py;
  }

  /** With atan2 exact on the axes, a point due north, east, south or west
      of p has bearing 0, 90, 180 or 270. */
  lemma BearingFromPointToPointCardinals(atan2Deg: (real, real) -> real,
                                         px: real, py: real, c: real)
    requires Atan2OnAxes(atan2Deg)
    requires c > 0.0
    ensures BearingFromPointToPoint(atan2Deg, px, py, px, py + c) == 0.0
    ensures BearingFromPointToPoint(atan2Deg, px, py, px + c, py) == 90.0
    ensures BearingFromPointToPoint(atan2Deg, px, py, px, py - c) == 180.0
    ensures BearingFromPointToPoint(atan2Deg, px, py, px - c, py) == 270.0
  {
    assert px + c - px == c && py + c - py == c;
    assert px - c - px == -c && py - c - py == -c;
    assert atan2Deg(c, 0.0) == 90.0;
    assert atan2Deg(0.0, c) == 0.0;
    assert atan2Deg(-c, 0.0) == -90.0;
    assert atan2Deg(0.0, -c) == 180.0;
    FloorModOfResidue(0.0, 360.0);
    FloorModOfResidue(90.0, 360.0);
    FloorModOfResidue(180.0, 360.0);
    FloorModShift(-90.0, 360.0, 1);
    FloorModOfResidue(270.0, 360.0);
  }

  /** bearing_to_compass: the eight-sector table indexed by
      floor((b + 22.5) / 45) mod 8. */
  function BearingToCompass(bearingDeg: real): (dir: string)
    ensures dir in CompassPoints
  {
    var idx := ((bearingDeg + 22.5) / 45.0).Floor % 8;
    CompassPoints[idx]
  }

  /** The table and its sectors are those of the frontage script's compass_8. */
  lemma BearingToCompassAgrees(b: real)
    ensures BearingToCompass(b) == HouseOrientation.Compass8(b)
  {
  }

  /** The services the script calls and that are not part of the model:
      the EPSG:4326 to EPSG:3857 projection of (lon, lat), shapely's
      point-to-line distance, and the point of a line nearest to a point
      (`line.interpolate(line.project(p))`). A road is its list of vertices. */
  datatype GeoOps = GeoOps(
    toMercator: (real, real) -> Vec,
    distance: (Vec, seq<Vec>) -> real,
    nearestPoint: (Vec, seq<Vec>) -> Vec)

  /** A road given in (lon, lat) vertices, projected vertex by vertex. */
  function ProjectRoad(ops: GeoOps, road: seq<Vec>): seq<Vec> {
    seq(|road|, i requires 0 <= i < |road| => ops.toMercator(road[i].x, road[i].y))
  }

  /** Projection keeps the vertex order: projecting two joined stretches
      of road joins their projections. */
  lemma ProjectRoadAppend(ops: GeoOps, a: seq<Vec>, b: seq<Vec>)
    ensures ProjectRoad(ops, a + b) == ProjectRoad(ops, a) + ProjectRoad(ops, b)
  {
    var lhs, rhs := ProjectRoad(ops, a + b), ProjectRoad(ops, a) + ProjectRoad(ops, b);
    assert |lhs| == |rhs|;
    forall i | 0 <= i < |lhs| ensures lhs[i] == rhs[i] {
      if i < |a| {
        assert (a + b)[i] == a[i];
      } else {
        assert (a + b)[i] == b[i - |a|];
      }
    }
  }

  /** The distance from p to each projected road, in road order. */
  function RoadDistances(ops: GeoOps, p: Vec, roads: seq<seq<Vec>>): seq<real> {
    seq(|roads|, i requires 0 <= i < |roads| => ops.distance(p, ProjectRoad(ops, roads[i])))
  }

  /** The distances keep the road order: the distances of two joined road
      lists are the two lists of distances joined. */
  lemma RoadDistancesAppend(ops: GeoOps, p: Vec, a: seq<seq<Vec>>, b: seq<seq<Vec>>)
    ensures RoadDistances(ops, p, a + b) == RoadDistances(ops, p, a) + RoadDistances(ops, p, b)
  {
    var lhs, rhs := RoadDistances(ops, p, a + b), RoadDistances(ops, p, a) + RoadDistances(ops, p, b);
    assert |lhs| == |rhs|;
    forall i | 0 <= i < |lhs| ensures lhs[i] == rhs[i] {
      if i < |a| {
        assert (a + b)[i] == a[i];
      } else {
        assert (a + b)[i] == b[i - |a|];
      }
    }
  }

  /** The running-minimum loop. `None` for the best distance plays the part
      of float("inf"): every first distance replaces it. Replacement needs a
      strictly smaller distance, so among roads at the minimum the earliest
      is kept. */
  method NearestRoad(ops: GeoOps, p: Vec, roads: seq<seq<Vec>>)
    returns (best: Option<seq<Vec>>, bestDist: Option<real>)
    ensures best.None? <==> roads == []
    ensures bestDist.None? <==> roads == []
    ensures roads != [] ==>
      var ds := RoadDistances(ops, p, roads);
      var k := FirstArgMin(ds);
      && best == Some(ProjectRoad(ops, roads[k]))
      && bestDist == Some(ds[k])
      && (forall i :: 0 <= i < |roads| ==> bestDist.value <= ds[i])
      && (forall i :: 0 <= i < k ==> bestDist.value < ds[i])
  {
    best, bestDist := None, None;
    ghost var ds := RoadDistances(ops, p, roads);
    for i := 0 to |roads|
      invariant best.None? <==> i == 0
      invariant bestDist.None? <==> i == 0
      invariant i > 0 ==>
        var k := FirstArgMin(ds[..i]);
        best == Some(ProjectRoad(ops, roads[k])) && bestDist == Some(ds[k])
    {
      var roadXy := ProjectRoad(ops, roads[i]);
      var d := ops.distance(p, roadXy);
      assert ds[..i + 1][..i] == ds[..i];
      if bestDist.None? || d < bestDist.value {
        bestDist := Some(d);
        best := Some(roadXy);
      }
    }
    assert ds[..|roads|] == ds;
  }

  /** The dictionary the script returns: without roads, the house position
      and a note and no bearing; otherwise the bearing, its compass label
      and the distance to the nearest road. */
  datatype RoadReport =
    | NoRoadsNearby(lat: real, lon: real, note: string)
    | NearestRoadFound(lat: real, lon: real, bearingDeg: real, compass: string, distanceToRoadM: real)
  {
    /** The report's "bearing_deg" entry: None when no road was found. */
    function Bearing(): Option<real> {
      if NoRoadsNearby? then None else Some(bearingDeg)
    }
  }

  /** nearest_road_bearing_from_address after geocoding (lon, lat) and
      fetching `roads` (each in (lon, lat) vertices). */
  method NearestRoadBearing(ops: GeoOps, atan2Deg: (real, real) -> real,
                            lon: real, lat: real, roads: seq<seq<Vec>>)
    returns (report: RoadReport)
    ensures report.NoRoadsNearby? <==> roads == []
    ensures report.Bearing().None? <==> roads == []
    ensures roads == [] ==> report == NoRoadsNearby(lat, lon, "No roads found nearby")
    ensures report.lat == lat && report.lon == lon
    ensures report.NearestRoadFound? ==>
      var p := ops.toMercator(lon, lat);
      var ds := RoadDistances(ops, p, roads);
      var k := FirstArgMin(ds);
      var q := ops.nearestPoint(p, ProjectRoad(ops, roads[k]));
      && report.distanceToRoadM == ds[k]
      && (forall i :: 0 <= i < |roads| ==> report.distanceToRoadM <= ds[i])
      && report.bearingDeg == BearingFromPointToPoint(atan2Deg, p.x, p.y, q.x, q.y)
      && 0.0 <= report.bearingDeg < 360.0
      && report.compass == BearingToCompass(report.bearingDeg)
    ensures report.NearestRoadFound? && (forall a, r :: ops.distance(a, r) >= 0.0) ==>
      report.distanceToRoadM >= 0.0
  {
    if roads == [] {
      return NoRoadsNearby(lat, lon, "No roads found nearby");
    }
    var p := ops.toMercator(lon, lat);
    var best, bestDist := NearestRoad(ops, p, roads);
    var q := ops.nearestPoint(p, best.value);
    var bearing := BearingFromPointToPoint(atan2Deg, p.x, p.y, q.x, q.y);
    report := NearestRoadFound(lat, lon, bearing, BearingToCompass(bearing), bestDist.value);
  }
}
