/** Road and lane geometry of the simulation: the per-road-type lane table, the builders of
    horizontal and vertical two-direction road segments, the lane and spawn-point queries, and
    the `RoadConfig` object whose segment and intersection lists grow in place.

    Coordinates are screen pixels (x to the right, y downwards). Python's `//` is applied here
    only to positive divisors, where it agrees with Dafny's `/` on `int`. */
module Roads {
  import opened Common

  datatype RoadType = Highway | CityMain | CitySide | Rural | Expressway

  datatype LaneDirection = North | South | East | West

  /** One lane: its travel direction, width, speed limit (km/h), its start point and length. */
  datatype LaneConfig = LaneConfig(
    direction: LaneDirection,
    width: int,
    speedLimit: int,
    position: (int, int),
    length: int)

  /** A road segment: the corners of its bounding band and its lanes. */
  datatype RoadSegment = RoadSegment(
    startPos: (int, int),
    endPos: (int, int),
    lanes: seq<LaneConfig>,
    roadType: RoadType,
    hasDivider: bool,
    hasTrafficLight: bool,
    trafficLightPos: Option<(int, int)>)

  /** A vehicle entry point on the screen edge: x, y and the direction of travel. */
  datatype SpawnPoint = SpawnPoint(x: int, y: int, direction: LaneDirection)

  /** One row of the `lane_configs` table. */
  datatype LaneSpec = LaneSpec(laneWidth: int, lanesPerDirection: nat, speedLimit: int, hasDivider: bool)

  /** The lane table, one row per road type (road_config.py:67-98). Every row has positive
      width and at least one lane per direction, and exactly the multi-lane types are divided. */
  function LaneSpecFor(t: RoadType): (s: LaneSpec)
    ensures s.laneWidth > 0 && s.lanesPerDirection >= 1 && s.speedLimit > 0
    ensures s.hasDivider <==> s.lanesPerDirection >= 2
  {
    match t
    case Highway => LaneSpec(80, 3, 100, true)
    case CityMain => LaneSpec(60, 2, 60, true)
    case CitySide => LaneSpec(50, 1, 40, false)
    case Rural => LaneSpec(70, 1, 50, false)
    case Expressway => LaneSpec(90, 4, 120, true)
  }

  /** Offset of lane `i`'s centre from the near edge of its half of the road. */
  function LaneOffset(w: int, i: int): int
  {
    i * w + w / 2
  }

  /** A point given by its coordinate along the road and its coordinate across it. */
  function Place(horizontal: bool, along: int, across: int): (int, int)
  {
    if horizontal then (along, across) else (across, along)
  }

  /** The coordinate of a lane's start point across its road (y for a horizontal road). */
  function Across(lane: LaneConfig, horizontal: bool): int
  {
    if horizontal then lane.position.1 else lane.position.0
  }

  /** The coordinate of a lane's start point along its road (x for a horizontal road). */
  function Along(lane: LaneConfig, horizontal: bool): int
  {
    if horizontal then lane.position.0 else lane.position.1
  }

  /** One direction's half of a road, as one loop of `_create_horizontal_road` or
      `_create_vertical_road` builds it: `n` lanes whose centres sit at `base + i * w + w // 2`. */
  function LaneRun(d: LaneDirection, spec: LaneSpec, base: int, along: int, horizontal: bool, length: int)
    : (run: seq<LaneConfig>)
  {
    seq(spec.lanesPerDirection, i requires 0 <= i < spec.lanesPerDirection =>
      LaneConfig(d, spec.laneWidth, spec.speedLimit,
        Place(horizontal, along, base + LaneOffset(spec.laneWidth, i)), length))
  }

  /** A run of lanes all travelling in `d` with the table's width and speed limit, all starting
      at `along` on the road axis, with centres inside `[low, high)` across it and consecutive
      centres exactly one lane width apart. */
  predicate HalfRoadLaid(run: seq<LaneConfig>, d: LaneDirection, spec: LaneSpec, horizontal: bool,
    along: int, low: int, high: int, length: int)
  {
    && |run| == spec.lanesPerDirection
    && (forall i :: 0 <= i < |run| ==>
          && run[i].direction == d && run[i].width == spec.laneWidth
          && run[i].speedLimit == spec.speedLimit && run[i].length == length
          && Along(run[i], horizontal) == along
          && low <= Across(run[i], horizontal) < high)
    && (forall i :: 0 < i < |run| ==>
          Across(run[i], horizontal) == Across(run[i - 1], horizontal) + spec.laneWidth)
  }

  /** A run built from `base` is laid out inside `[base, base + n * w)`. */
  lemma LaneRunLaid(d: LaneDirection, spec: LaneSpec, base: int, along: int, horizontal: bool, length: int)
    requires spec.laneWidth > 0
    ensures HalfRoadLaid(LaneRun(d, spec, base, along, horizontal, length), d, spec, horizontal,
      along, base, base + spec.lanesPerDirection * spec.laneWidth, length)
  {
    var run := LaneRun(d, spec, base, along, horizontal, length);
    var w, n := spec.laneWidth, spec.lanesPerDirection;
    var high := base + n * w;
    forall i | 0 <= i < n
      ensures base <= Across(run[i], horizontal) < high
    {
      LaneRunAt(d, spec, base, along, horizontal, length, i);
    }
    forall i | 0 < i < n
      ensures Across(run[i], horizontal) == Across(run[i - 1], horizontal) + w
    {
      LaneRunAt(d, spec, base, along, horizontal, length, i - 1);
      LaneRunAt(d, spec, base, along, horizontal, length, i);
    }
  }

  /** Lane `i` of a run has its centre `LaneOffset(w, i)` past `base`, inside the run's band. */
  lemma LaneRunAt(d: LaneDirection, spec: LaneSpec, base: int, along: int, horizontal: bool, length: int, i: nat)
    requires spec.laneWidth > 0 && i < spec.lanesPerDirection
    ensures var lane := LaneRun(d, spec, base, along, horizontal, length)[i];
      && Across(lane, horizontal) == base + LaneOffset(spec.laneWidth, i)
      && base <= Across(lane, horizontal) < base + spec.lanesPerDirection * spec.laneWidth
      && LaneOffset(spec.laneWidth, i + 1) == LaneOffset(spec.laneWidth, i) + spec.laneWidth
  {
    LaneOffsetBounds(spec.laneWidth, spec.lanesPerDirection, i);
  }

  /** For a positive width, lane `i < n` of a half-road has its centre inside the half-road
      `[0, n * w)`, and consecutive lanes are one width apart. */
  lemma LaneOffsetBounds(w: int, n: nat, i: nat)
    requires w > 0 && i < n
    ensures 0 <= LaneOffset(w, i) < n * w
    ensures LaneOffset(w, i + 1) == LaneOffset(w, i) + w
  {
    assert (i + 1) * w == i * w + w;
    assert 0 <= w / 2 < w;
    MulLeq(i + 1, n, w);
  }

  lemma MulLeq(a: nat, b: nat, w: int)
    requires a <= b && w >= 0
    ensures a * w <= b * w
  {
    assert b * w - a * w == (b - a) * w;
  }

  /** Half the total width `w * n * 2` of a two-direction road, as `//` computes it. */
  lemma HalfTotalWidth(w: int, n: nat)
    ensures (w * n * 2) / 2 == n * w
  {
    assert w * n * 2 == (n * w) * 2;
  }

  /** `_create_horizontal_road` (road_config.py:125-165). */
  function HorizontalRoad(yCenter: int, roadType: RoadType, length: int): (seg: RoadSegment)
    ensures var spec := LaneSpecFor(roadType);
      && |seg.lanes| == 2 * spec.lanesPerDirection
      && (forall i :: 0 <= i < |seg.lanes| ==>
            && seg.lanes[i].direction == (if i < spec.lanesPerDirection then East else West)
            && seg.lanes[i].width == spec.laneWidth && seg.lanes[i].speedLimit == spec.speedLimit
            && seg.lanes[i].length == length)
      && seg.roadType == roadType && seg.hasDivider == spec.hasDivider
      && !seg.hasTrafficLight && seg.trafficLightPos == None
  {
    var spec := LaneSpecFor(roadType);
    var totalWidth := spec.laneWidth * spec.lanesPerDirection * 2;
    RoadSegment((0, yCenter - totalWidth / 2), (length, yCenter + totalWidth / 2),
      LaneRun(East, spec, yCenter - totalWidth / 2, 0, true, length)
        + LaneRun(West, spec, yCenter, length, true, length),
      roadType, spec.hasDivider, false, None)
  }

  /** `_create_vertical_road` (road_config.py:167-206). */
  function VerticalRoad(xCenter: int, roadType: RoadType, length: int): (seg: RoadSegment)
    ensures var spec := LaneSpecFor(roadType);
      && |seg.lanes| == 2 * spec.lanesPerDirection
      && (forall i :: 0 <= i < |seg.lanes| ==>
            && seg.lanes[i].direction == (if i < spec.lanesPerDirection then South else North)
            && seg.lanes[i].width == spec.laneWidth && seg.lanes[i].speedLimit == spec.speedLimit
            && seg.lanes[i].length == length)
      && seg.roadType == roadType && seg.hasDivider == spec.hasDivider
      && !seg.hasTrafficLight && seg.trafficLightPos == None
  {
    var spec := LaneSpecFor(roadType);
    var totalWidth := spec.laneWidth * spec.lanesPerDirection * 2;
    RoadSegment((xCenter - totalWidth / 2, 0), (xCenter + totalWidth / 2, length),
      LaneRun(South, spec, xCenter - totalWidth / 2, 0, false, length)
        + LaneRun(North, spec, xCenter, length, false, length),
      roadType, spec.hasDivider, false, None)
  }

  /** A horizontal road has `2 * n` lanes: the first `n` travel EAST from x = 0 with centres
      above `yCenter`, the last `n` travel WEST from x = `length` with centres at or below it;
      every lane has the table's width and speed limit, consecutive lanes of one direction are
      one lane width apart, and the band from `startPos` to `endPos` spans `n` lane widths on
      each side of `yCenter`, so it holds every lane centre. */
  lemma HorizontalRoadLayout(yCenter: int, roadType: RoadType, length: int)
    ensures var seg := HorizontalRoad(yCenter, roadType, length);
      var spec := LaneSpecFor(roadType);
      var n, w := spec.lanesPerDirection, spec.laneWidth;
      && |seg.lanes| == 2 * n
      && seg.startPos == (0, yCenter - n * w) && seg.endPos == (length, yCenter + n * w)
      && HalfRoadLaid(seg.lanes[..n], East, spec, true, 0, yCenter - n * w, yCenter, length)
      && HalfRoadLaid(seg.lanes[n..], West, spec, true, length, yCenter, yCenter + n * w, length)
      && seg.roadType == roadType && seg.hasDivider == spec.hasDivider && !seg.hasTrafficLight
  {
    var spec := LaneSpecFor(roadType);
    var n, w := spec.lanesPerDirection, spec.laneWidth;
    HalfTotalWidth(w, n);
    LaneRunLaid(East, spec, yCenter - n * w, 0, true, length);
    LaneRunLaid(West, spec, yCenter, length, true, length);
    var seg := HorizontalRoad(yCenter, roadType, length);
    assert seg.lanes[..n] == LaneRun(East, spec, yCenter - n * w, 0, true, length);
    assert seg.lanes[n..] == LaneRun(West, spec, yCenter, length, true, length);
  }

  /** A vertical road is the same construction across x: the first `n` lanes travel SOUTH
      from y = 0 with centres left of `xCenter`, the last `n` travel NORTH from y = `length`
      with centres at or right of it. */
  lemma VerticalRoadLayout(xCenter: int, roadType: RoadType, length: int)
    ensures var seg := VerticalRoad(xCenter, roadType, length);
      var spec := LaneSpecFor(roadType);
      var n, w := spec.lanesPerDirection, spec.laneWidth;
      && |seg.lanes| == 2 * n
      && seg.startPos == (xCenter - n * w, 0) && seg.endPos == (xCenter + n * w, length)
      && HalfRoadLaid(seg.lanes[..n], South, spec, false, 0, xCenter - n * w, xCenter, length)
      && HalfRoadLaid(seg.lanes[n..], North, spec, false, length, xCenter, xCenter + n * w, length)
      && seg.roadType == roadType && seg.hasDivider == spec.hasDivider && !seg.hasTrafficLight
  {
    var spec := LaneSpecFor(roadType);
    var n, w := spec.lanesPerDirection, spec.laneWidth;
    HalfTotalWidth(w, n);
    LaneRunLaid(South, spec, xCenter - n * w, 0, false, length);
    LaneRunLaid(North, spec, xCenter, length, false, length);
    var seg := VerticalRoad(xCenter, roadType, length);
    assert seg.lanes[..n] == LaneRun(South, spec, xCenter - n * w, 0, false, length);
    assert seg.lanes[n..] == LaneRun(North, spec, xCenter, length, false, length);
  }

  /** The lanes of a segment list, segment by segment, in lane order. */
  function AllLanes(segments: seq<RoadSegment>): seq<LaneConfig>
  {
    if segments == [] then [] else segments[0].lanes + AllLanes(segments[1..])
  }

  /** The lanes of `lanes` travelling in direction `d`, in order. */
  function LanesWithDirection(lanes: seq<LaneConfig>, d: LaneDirection): (r: seq<LaneConfig>)
    ensures |r| <= |lanes|
    ensures forall l :: l in r <==> l in lanes && l.direction == d
  {
    if lanes == [] then []
    else if lanes[0].direction == d then [lanes[0]] + LanesWithDirection(lanes[1..], d)
    else LanesWithDirection(lanes[1..], d)
  }

  /** `get_lane_by_direction` (road_config.py:216-223): scans the segments in order and, within
      each, its lanes in order, keeping those travelling in direction `d`. */
  function LanesByDirection(segments: seq<RoadSegment>, d: LaneDirection): (r: seq<LaneConfig>)
    ensures forall l :: l in r <==> l.direction == d && exists k :: 0 <= k < |segments| && l in segments[k].lanes
  {
    if segments == [] then []
    else LanesWithDirection(segments[0].lanes, d) + LanesByDirection(segments[1..], d)
  }

  /** The scan keeps exactly the lanes of direction `d`, in segment-then-lane order: it is the
      filter of the flattened lane list. Hence a lane is returned iff it belongs to some
      segment and travels in direction `d`. */
  lemma {:induction false} LanesByDirectionIsFilter(segments: seq<RoadSegment>, d: LaneDirection)
    ensures LanesByDirection(segments, d) == LanesWithDirection(AllLanes(segments), d)
    ensures forall l :: l in LanesByDirection(segments, d) <==> l in AllLanes(segments) && l.direction == d
  {
    if segments != [] {
      LanesByDirectionIsFilter(segments[1..], d);
      FilterDistributes(segments[0].lanes, AllLanes(segments[1..]), d);
    }
  }

  lemma {:induction false} FilterDistributes(a: seq<LaneConfig>, b: seq<LaneConfig>, d: LaneDirection)
    ensures LanesWithDirection(a + b, d) == LanesWithDirection(a, d) + LanesWithDirection(b, d)
  {
    if a != [] {
      assert (a + b)[0] == a[0];
      assert (a + b)[1..] == a[1..] + b;
      FilterDistributes(a[1..], b, d);
    } else {
      assert a + b == b;
    }
  }

  /** The spawn point of one lane: on the screen edge where its traffic enters. */
  function SpawnPointOf(lane: LaneConfig, screenWidth: int, screenHeight: int): (p: SpawnPoint)
    ensures p.direction == lane.direction
    ensures lane.direction in {East, West} ==> p.y == lane.position.1
    ensures lane.direction in {North, South} ==> p.x == lane.position.0
    ensures p.x == 0 || p.x == screenWidth || p.y == 0 || p.y == screenHeight
  {
    match lane.direction
    case East => SpawnPoint(0, lane.position.1, East)
    case West => SpawnPoint(screenWidth, lane.position.1, West)
    case South => SpawnPoint(lane.position.0, 0, South)
    case North => SpawnPoint(lane.position.0, screenHeight, North)
  }

  /** `get_spawn_points` (road_config.py:308-323), one point per lane of `lanes`. */
  function SpawnPointsOf(lanes: seq<LaneConfig>, screenWidth: int, screenHeight: int): (r: seq<SpawnPoint>)
    ensures |r| == |lanes|
    ensures forall k :: 0 <= k < |lanes| ==> r[k] == SpawnPointOf(lanes[k], screenWidth, screenHeight)
  {
    if lanes == [] then []
    else [SpawnPointOf(lanes[0], screenWidth, screenHeight)] + SpawnPointsOf(lanes[1..], screenWidth, screenHeight)
  }

  /** `get_spawn_points` over the segments: segment by segment, lane by lane. */
  function SpawnPoints(segments: seq<RoadSegment>, screenWidth: int, screenHeight: int): (r: seq<SpawnPoint>)
    ensures |r| == |AllLanes(segments)|
  {
    if segments == [] then [] else
      SpawnPointsOf(segments[0].lanes, screenWidth, screenHeight)
        + SpawnPoints(segments[1..], screenWidth, screenHeight)
  }

  /** Spawn point `k` belongs to lane `k`: it carries that lane's direction and lies on the
      edge where that direction enters the screen, at the lane's centre line. */
  predicate SpawnPointForLane(p: SpawnPoint, lane: LaneConfig, screenWidth: int, screenHeight: int)
  {
    && p.direction == lane.direction
    && (lane.direction == East ==> p.x == 0 && p.y == lane.position.1)
    && (lane.direction == West ==> p.x == screenWidth && p.y == lane.position.1)
    && (lane.direction == South ==> p.x == lane.position.0 && p.y == 0)
    && (lane.direction == North ==> p.x == lane.position.0 && p.y == screenHeight)
  }

  lemma {:induction false} SpawnPointsOfMatchLanes(lanes: seq<LaneConfig>, screenWidth: int, screenHeight: int)
    ensures |SpawnPointsOf(lanes, screenWidth, screenHeight)| == |lanes|
    ensures forall k :: 0 <= k < |lanes| ==>
      SpawnPointForLane(SpawnPointsOf(lanes, screenWidth, screenHeight)[k], lanes[k], screenWidth, screenHeight)
  {
    if lanes != [] {
      SpawnPointsOfMatchLanes(lanes[1..], screenWidth, screenHeight);
      var rest := SpawnPointsOf(lanes[1..], screenWidth, screenHeight);
      assert SpawnPointsOf(lanes, screenWidth, screenHeight) == [SpawnPointOf(lanes[0], screenWidth, screenHeight)] + rest;
      forall k | 1 <= k < |lanes|
        ensures SpawnPointForLane(SpawnPointsOf(lanes, screenWidth, screenHeight)[k], lanes[k], screenWidth, screenHeight)
      {
        assert lanes[k] == lanes[1..][k - 1];
      }
    }
  }

  /** The spawn points are one per lane of the segments, in segment-then-lane order, each on
      the screen edge matching its lane's direction: EAST at x = 0, WEST at x = screen width,
      SOUTH at y = 0 and NORTH at y = screen height. */
  lemma {:induction false} SpawnPointsMatchLanes(segments: seq<RoadSegment>, screenWidth: int, screenHeight: int)
    ensures |SpawnPoints(segments, screenWidth, screenHeight)| == |AllLanes(segments)|
    ensures forall k :: 0 <= k < |AllLanes(segments)| ==>
      SpawnPointForLane(SpawnPoints(segments, screenWidth, screenHeight)[k], AllLanes(segments)[k], screenWidth, screenHeight)
  {
    if segments != [] {
      SpawnPointsOfMatchLanes(segments[0].lanes, screenWidth, screenHeight);
      SpawnPointsMatchLanes(segments[1..], screenWidth, screenHeight);
      var head := SpawnPointsOf(segments[0].lanes, screenWidth, screenHeight);
      var m := |segments[0].lanes|;
      forall k | m <= k < |AllLanes(segments)|
        ensures SpawnPointForLane(SpawnPoints(segments, screenWidth, screenHeight)[k], AllLanes(segments)[k], screenWidth, screenHeight)
      {
        assert AllLanes(segments)[k] == AllLanes(segments[1..])[k - m];
        assert SpawnPoints(segments, screenWidth, screenHeight)[k] == SpawnPoints(segments[1..], screenWidth, screenHeight)[k - m];
      }
    }
  }

  /** The main road of the default layout: a CITY_MAIN horizontal road across the screen
      through its vertical middle, carrying a traffic light at the screen centre. */
  function DefaultMainRoad(screenWidth: int, screenHeight: int): RoadSegment
  {
    HorizontalRoad(screenHeight / 2, CityMain, screenWidth)
      .(hasTrafficLight := true, trafficLightPos := Some((screenWidth / 2, screenHeight / 2)))
  }

  /** The cross road of the default layout: a CITY_SIDE vertical road through the screen's
      horizontal middle. */
  function DefaultSideRoad(screenWidth: int, screenHeight: int): RoadSegment
  {
    VerticalRoad(screenWidth / 2, CitySide, screenHeight)
  }

  /** The default layout's roads: the main road has two lanes each way (EAST above the centre
      line, WEST at or below it), the side road one each way (SOUTH left of the centre, NORTH right),
      and only the main road carries the traffic light, at the screen centre. */
  lemma DefaultLayoutShape(screenWidth: int, screenHeight: int)
    ensures var main := DefaultMainRoad(screenWidth, screenHeight);
      && |main.lanes| == 4 && main.roadType == CityMain && main.hasDivider
      && [main.lanes[0].direction, main.lanes[1].direction, main.lanes[2].direction, main.lanes[3].direction]
         == [East, East, West, West]
      && main.lanes[0].position.1 < main.lanes[1].position.1 < screenHeight / 2
      && screenHeight / 2 <= main.lanes[2].position.1 < main.lanes[3].position.1
      && main.hasTrafficLight && main.trafficLightPos == Some((screenWidth / 2, screenHeight / 2))
    ensures var side := DefaultSideRoad(screenWidth, screenHeight);
      && |side.lanes| == 2 && side.roadType == CitySide && !side.hasDivider
      && side.lanes[0].direction == South && side.lanes[1].direction == North
      && side.lanes[0].position.0 < screenWidth / 2 <= side.lanes[1].position.0
      && !side.hasTrafficLight
  {
    HorizontalRoadLayout(screenHeight / 2, CityMain, screenWidth);
    VerticalRoadLayout(screenWidth / 2, CitySide, screenHeight);
    var main := HorizontalRoad(screenHeight / 2, CityMain, screenWidth);
    assert main.lanes[0] == main.lanes[..2][0] && main.lanes[1] == main.lanes[..2][1];
    assert main.lanes[2] == main.lanes[2..][0] && main.lanes[3] == main.lanes[2..][1];
    var side := VerticalRoad(screenWidth / 2, CitySide, screenHeight);
    assert side.lanes[0] == side.lanes[..1][0] && side.lanes[1] == side.lanes[1..][0];
  }

  /** The road layout of the screen (`RoadConfig`): its size, and the road segments and
      intersections, which only ever grow by appending. */
  class RoadConfig {
    const screenWidth: int
    const screenHeight: int
    var roadSegments: seq<RoadSegment>
    var intersections: seq<(int, int)>

    /** `RoadConfig.__init__` (road_config.py:51-55): an empty layout for the given screen. */
    constructor (screenWidth: int, screenHeight: int)
      ensures this.screenWidth == screenWidth && this.screenHeight == screenHeight
      ensures roadSegments == [] && intersections == []
    {
      this.screenWidth := screenWidth;
      this.screenHeight := screenHeight;
      roadSegments := [];
      intersections := [];
    }

    /** `create_default_indian_road_layout` (road_config.py:100-123): appends the main road
        (carrying the light) and the side road, and one intersection at the screen centre. */
    method CreateDefaultIndianRoadLayout()
      modifies this
      ensures roadSegments == old(roadSegments)
        + [DefaultMainRoad(screenWidth, screenHeight), DefaultSideRoad(screenWidth, screenHeight)]
      ensures intersections == old(intersections) + [(screenWidth / 2, screenHeight / 2)]
    {
      var mainRoad := HorizontalRoad(screenHeight / 2, CityMain, screenWidth);
      roadSegments := roadSegments + [mainRoad];
      var intersectionRoad := VerticalRoad(screenWidth / 2, CitySide, screenHeight);
      roadSegments := roadSegments + [intersectionRoad];
      intersections := intersections + [(screenWidth / 2, screenHeight / 2)];
      // The source sets the light on the segment object already in the list.
      var mainIndex := |roadSegments| - 2;
      roadSegments := roadSegments[mainIndex := roadSegments[mainIndex]
        .(hasTrafficLight := true, trafficLightPos := Some((screenWidth / 2, screenHeight / 2)))];
    }

    /** `add_custom_road_segment` (road_config.py:208-210): appends; nothing else changes. */
    method AddCustomRoadSegment(segment: RoadSegment)
      modifies this
      ensures roadSegments == old(roadSegments) + [segment]
      ensures intersections == old(intersections)
    {
      roadSegments := roadSegments + [segment];
    }

    /** `add_intersection` (road_config.py:212-214): appends; nothing else changes. */
    method AddIntersection(position: (int, int))
      modifies this
      ensures intersections == old(intersections) + [position]
      ensures roadSegments == old(roadSegments)
    {
      intersections := intersections + [position];
    }

    /** `get_lane_by_direction` (road_config.py:216-223): the lanes travelling in `d`. */
    function GetLaneByDirection(d: LaneDirection): (r: seq<LaneConfig>)
      reads this
      ensures r == LanesWithDirection(AllLanes(roadSegments), d)
      ensures forall l :: l in r <==> l in AllLanes(roadSegments) && l.direction == d
    {
      LanesByDirectionIsFilter(roadSegments, d);
      LanesByDirection(roadSegments, d)
    }

    /** `get_spawn_points` (road_config.py:308-323): one point per lane, in order, on the
        screen edge where the lane's traffic enters. */
    function GetSpawnPoints(): (r: seq<SpawnPoint>)
      reads this
      ensures |r| == |AllLanes(roadSegments)|
      ensures forall k :: 0 <= k < |r| ==>
        SpawnPointForLane(r[k], AllLanes(roadSegments)[k], screenWidth, screenHeight)
    {
      SpawnPointsMatchLanes(roadSegments, screenWidth, screenHeight);
      SpawnPoints(roadSegments, screenWidth, screenHeight)
    }
  }
}
