/** The traffic-signal state machine: one `TrafficLight` per intersection, holding a RED/GREEN
    state per approach name, and the `TrafficLightManager` that owns the lights.

    Wall-clock time (`time.time()`) is the parameter `now`, in seconds. The road configuration
    is the record the configuration panel publishes (config_gui.py:140-149). */
module Signals {
  import opened Common

  datatype LightState = Red | Green

  /** The configuration record: junction type ("cross" or "t"), the approach angles in degrees,
      the road type, the lane count and the signal mode. */
  datatype JunctionConfig = JunctionConfig(
    junctionType: string,
    tAngle: int,
    topAngle: int,
    rightAngle: int,
    bottomAngle: int,
    roadType: string,
    laneCount: int,
    trafficLightMode: string)

  /** One approach of the junction: its angle in degrees and its name. */
  datatype RoadDirection = RoadDirection(angle: int, name: string)

  /** The four approach names of a cross junction. */
  const CrossApproaches: set<string> := {"top", "right", "bottom", "left"}

  /** `_get_road_directions_from_config` (traffic_lights.py:39-49). A cross junction has exactly
      the approaches top, right, bottom and left, each named by its key, the first three at the
      configured angles and left opposite right, at `(right + 180) mod 360`; a T junction, or
      any other junction type, has none. */
  function RoadDirectionsFrom(cfg: JunctionConfig): (dirs: map<string, RoadDirection>)
    ensures cfg.junctionType == "cross" ==>
      && dirs.Keys == CrossApproaches
      && (forall k :: k in dirs ==> dirs[k].name == k)
      && dirs["top"].angle == cfg.topAngle && dirs["right"].angle == cfg.rightAngle
      && dirs["bottom"].angle == cfg.bottomAngle
      && 0 <= dirs["left"].angle < 360
      && (dirs["left"].angle - cfg.rightAngle - 180) % 360 == 0
    ensures cfg.junctionType != "cross" ==> dirs == map[]
  {
    if cfg.junctionType == "cross" then
      map[
        "top" := RoadDirection(cfg.topAngle, "top"),
        "right" := RoadDirection(cfg.rightAngle, "right"),
        "bottom" := RoadDirection(cfg.bottomAngle, "bottom"),
        "left" := RoadDirection((cfg.rightAngle + 180) % 360, "left")]
    else
      map[]
  }

  /** The states `_initialize_light_states` (traffic_lights.py:51-57) leaves behind: every
      current approach is set RED, then top and bottom are set GREEN if the state map holds
      them at all, current or not. Nothing is ever removed, so stale approaches keep their
      old state (stale top and bottom turn GREEN). */
  function InitialLightStates(prev: map<string, LightState>, names: set<string>)
    : (states: map<string, LightState>)
    ensures states.Keys == prev.Keys + names
    ensures forall k :: k in states ==>
      states[k] == (if k == "top" || k == "bottom" then Green
                    else if k in names then Red
                    else prev[k])
  {
    var reds := prev + map n | n in names :: Red;
    var withTop := if "top" in reds then reds["top" := Green] else reds;
    if "bottom" in withTop then withTop["bottom" := Green] else withTop
  }

  /** On a cross junction the lights form two pairs: top agrees with bottom, left with right,
      and the two pairs disagree, so exactly one pair is GREEN. */
  predicate PairConsistent(states: map<string, LightState>)
  {
    && CrossApproaches <= states.Keys
    && states["top"] == states["bottom"]
    && states["left"] == states["right"]
    && states["top"] != states["left"]
  }

  /** `_switch_light_phases` (traffic_lights.py:64-70). On a cross junction, if top is GREEN
      then top/bottom turn RED and left/right GREEN, otherwise (top RED or absent) the reverse;
      on any other junction type nothing changes. Only the four approach keys are touched. */
  function SwitchedPhases(cfg: JunctionConfig, states: map<string, LightState>)
    : (next: map<string, LightState>)
    ensures cfg.junctionType == "cross" ==>
      && PairConsistent(next)
      && next.Keys == states.Keys + CrossApproaches
      && (next["top"] == Green <==> !("top" in states && states["top"] == Green))
    ensures cfg.junctionType != "cross" ==> next == states
    ensures forall k :: k in states && k !in CrossApproaches ==> k in next && next[k] == states[k]
  {
    if cfg.junctionType == "cross" then
      if "top" in states && states["top"] == Green then
        states["top" := Red]["bottom" := Red]["left" := Green]["right" := Green]
      else
        states["top" := Green]["bottom" := Green]["left" := Red]["right" := Red]
    else
      states
  }

  /** Switching a consistent cross junction twice restores every light: the phases alternate
      between the two pairs. */
  lemma SwitchTwiceRestores(cfg: JunctionConfig, states: map<string, LightState>)
    requires cfg.junctionType == "cross" && PairConsistent(states)
    ensures SwitchedPhases(cfg, SwitchedPhases(cfg, states)) == states
    ensures SwitchedPhases(cfg, states)["top"] != states["top"]
  {
    var twice := SwitchedPhases(cfg, SwitchedPhases(cfg, states));
    assert twice.Keys == states.Keys;
    forall k | k in states
      ensures twice[k] == states[k]
    {
      if k !in CrossApproaches {
      } else if states["top"] == Green {
        assert states["left"] == Red;
      } else {
        assert states["top"] == Red && states["left"] == Green;
      }
    }
  }

  /** Freshly initialised lights of a cross junction start consistent, with top/bottom GREEN
      and left/right RED, whatever states were there before. */
  lemma InitialCrossLightsConsistent(cfg: JunctionConfig, prev: map<string, LightState>)
    requires cfg.junctionType == "cross"
    ensures var states := InitialLightStates(prev, RoadDirectionsFrom(cfg).Keys);
      PairConsistent(states) && states["top"] == Green && states["left"] == Red
  {
  }

  /** The loop of `_initialize_light_states` that sets each current approach RED in place. */
  method MarkRed(states: map<string, LightState>, names: set<string>) returns (r: map<string, LightState>)
    ensures r.Keys == states.Keys + names
    ensures forall k :: k in r ==> r[k] == if k in names then Red else states[k]
  {
    r := states;
    var todo := names;
    while todo != {}
      invariant todo <= names
      invariant r.Keys == states.Keys + (names - todo)
      invariant forall k :: k in names && k !in todo ==> r[k] == Red
      invariant forall k :: k in states && (k !in names || k in todo) ==> r[k] == states[k]
      decreases todo
    {
      var name :| name in todo;
      r := r[name := Red];
      todo := todo - {name};
    }
  }

  /** A traffic light at one intersection (`TrafficLight`). */
  class TrafficLight {
    const centerX: real
    const centerY: real
    const intersectionSize: int
    var roadConfig: JunctionConfig
    var roadDirections: map<string, RoadDirection>
    var lightStates: map<string, LightState>
    var greenDuration: real
    var cycleStartTime: real

    /** The directions follow the configuration, every current approach has a state, and on a
        cross junction the two pairs of approaches are never GREEN together. */
    ghost predicate Valid()
      reads this
    {
      && roadDirections == RoadDirectionsFrom(roadConfig)
      && roadDirections.Keys <= lightStates.Keys
      && (roadConfig.junctionType == "cross" ==> PairConsistent(lightStates))
    }

    /** `TrafficLight.__init__` (traffic_lights.py:20-32): green for 15 seconds per phase, the
        cycle starting at `now`, top/bottom GREEN and the other approaches RED. */
    constructor (centerX: real, centerY: real, roadConfig: JunctionConfig, intersectionSize: int, now: real)
      ensures Valid()
      ensures this.centerX == centerX && this.centerY == centerY
      ensures this.intersectionSize == intersectionSize && this.roadConfig == roadConfig
      ensures lightStates == InitialLightStates(map[], RoadDirectionsFrom(roadConfig).Keys)
      ensures greenDuration == 15.0 && cycleStartTime == now
    {
      this.centerX := centerX;
      this.centerY := centerY;
      this.intersectionSize := intersectionSize;
      this.roadConfig := roadConfig;
      roadDirections := RoadDirectionsFrom(roadConfig);
      lightStates := map[];
      greenDuration := 15.0;
      cycleStartTime := now;
      new;
      InitializeLightStates();
    }

    /** `_initialize_light_states` (traffic_lights.py:51-57): updates `lightStates` in place. */
    method InitializeLightStates()
      modifies this
      ensures lightStates == InitialLightStates(old(lightStates), roadDirections.Keys)
      ensures roadConfig == old(roadConfig) && roadDirections == old(roadDirections)
      ensures greenDuration == old(greenDuration) && cycleStartTime == old(cycleStartTime)
    {
      var states := MarkRed(lightStates, roadDirections.Keys);
      if "top" in states {
        states := states["top" := Green];
      }
      if "bottom" in states {
        states := states["bottom" := Green];
      }
      ghost var spec := InitialLightStates(lightStates, roadDirections.Keys);
      assert states.Keys == spec.Keys;
      forall k | k in states
        ensures states[k] == spec[k]
      {
        if k == "top" || k == "bottom" {
          assert states[k] == Green;
        } else if k in roadDirections.Keys {
          assert states[k] == Red;
        } else {
          assert states[k] == lightStates[k];
        }
      }
      assert states == spec;
      lightStates := states;
    }

    /** The state `update_timing` leaves at time `now`: when a full green period has elapsed
        since the cycle started, the phases are switched and the cycle restarts at `now`;
        otherwise the lights and the cycle start are as before. The configuration and the
        green period never change. */
    twostate predicate TimingUpdatedAt(now: real)
      reads this
    {
      var due := now - old(cycleStartTime) >= old(greenDuration);
      && lightStates == (if due then SwitchedPhases(roadConfig, old(lightStates)) else old(lightStates))
      && cycleStartTime == (if due then now else old(cycleStartTime))
      && roadConfig == old(roadConfig) && roadDirections == old(roadDirections)
      && greenDuration == old(greenDuration)
    }

    /** `update_timing` (traffic_lights.py:59-62): once a full green period has elapsed since
        the cycle started, the phases switch and the cycle restarts at `now`; otherwise nothing
        changes. */
    method UpdateTiming(now: real)
      requires Valid()
      modifies this
      ensures Valid() && TimingUpdatedAt(now)
    {
      if now - cycleStartTime >= greenDuration {
        SwitchLightPhases();
        cycleStartTime := now;
      }
    }

    /** `_switch_light_phases` (traffic_lights.py:64-70). */
    method SwitchLightPhases()
      requires Valid()
      modifies this
      ensures Valid()
      ensures lightStates == SwitchedPhases(roadConfig, old(lightStates))
      ensures roadConfig == old(roadConfig) && roadDirections == old(roadDirections)
      ensures greenDuration == old(greenDuration) && cycleStartTime == old(cycleStartTime)
    {
      if roadConfig.junctionType == "cross" {
        if "top" in lightStates && lightStates["top"] == Green {
          lightStates := lightStates["top" := Red]["bottom" := Red]["left" := Green]["right" := Green];
        } else {
          lightStates := lightStates["top" := Green]["bottom" := Green]["left" := Red]["right" := Red];
        }
      }
    }

    /** `get_light_state_for_road` (traffic_lights.py:73-75): the state of an approach, or
        nothing for a name that has no state. */
    function GetLightStateForRoad(roadName: string): (r: Option<LightState>)
      reads this
      ensures r.Some? <==> roadName in lightStates
      ensures r.Some? ==> r.value == lightStates[roadName]
    {
      if roadName in lightStates then Some(lightStates[roadName]) else None
    }

    /** `is_red_light` (traffic_lights.py:77-79). */
    predicate IsRedLight(roadName: string)
      reads this
      ensures IsRedLight(roadName) <==> roadName in lightStates && lightStates[roadName] == Red
    {
      GetLightStateForRoad(roadName) == Some(Red)
    }

    /** `is_green_light` (traffic_lights.py:81-83). */
    predicate IsGreenLight(roadName: string)
      reads this
      ensures IsGreenLight(roadName) <==> roadName in lightStates && lightStates[roadName] == Green
    {
      GetLightStateForRoad(roadName) == Some(Green)
    }

    /** No approach is RED and GREEN at once, and an approach without a state (an unknown name,
        or any name on a T junction's fresh light) is neither. */
    lemma RedGreenExclusive(roadName: string)
      ensures !(IsRedLight(roadName) && IsGreenLight(roadName))
      ensures roadName !in lightStates ==> !IsRedLight(roadName) && !IsGreenLight(roadName)
      ensures roadName in lightStates ==> IsRedLight(roadName) != IsGreenLight(roadName)
    {
    }

    /** On a valid cross-junction light, crossing approaches are never GREEN together: exactly
        one of the pairs top/bottom and left/right is GREEN, the other RED. */
    lemma CrossingApproachesNeverBothGreen()
      requires Valid() && roadConfig.junctionType == "cross"
      ensures IsGreenLight("top") == IsGreenLight("bottom")
      ensures IsGreenLight("left") == IsGreenLight("right")
      ensures IsGreenLight("top") <==> IsRedLight("left")
      ensures IsGreenLight("left") <==> IsRedLight("top")
    {
    }

    /** `update_road_config` (traffic_lights.py:85-88): takes the new configuration and its
        approaches and re-initialises the states in place; the cycle timer and the green
        duration are left as they were. */
    method UpdateRoadConfig(newRoadConfig: JunctionConfig)
      modifies this
      ensures Valid()
      ensures roadConfig == newRoadConfig && roadDirections == RoadDirectionsFrom(newRoadConfig)
      ensures lightStates == InitialLightStates(old(lightStates), RoadDirectionsFrom(newRoadConfig).Keys)
      ensures greenDuration == old(greenDuration) && cycleStartTime == old(cycleStartTime)
    {
      roadConfig := newRoadConfig;
      roadDirections := RoadDirectionsFrom(newRoadConfig);
      InitializeLightStates();
      if roadConfig.junctionType == "cross" {
        InitialCrossLightsConsistent(roadConfig, old(lightStates));
      }
    }
  }

  /** Squared distance from a light's centre to the point (x, y). */
  function LightSqDist(light: TrafficLight, x: real, y: real): real
  {
    SqDist(light.centerX, light.centerY, x, y)
  }

  /** The lights of the simulation (`TrafficLightManager`). */
  class TrafficLightManager {
    var trafficLights: seq<TrafficLight>

    /** Each light appears once and is itself valid. */
    ghost predicate Valid()
      reads this, trafficLights
    {
      && (forall i, j :: 0 <= i < j < |trafficLights| ==> trafficLights[i] != trafficLights[j])
      && (forall l :: l in trafficLights ==> l.Valid())
    }

    /** `TrafficLightManager.__init__` (traffic_lights.py:102-103): no lights. */
    constructor ()
      ensures Valid() && trafficLights == []
    {
      trafficLights := [];
    }

    /** `add_traffic_light` (traffic_lights.py:105-108): creates one light, appends it and
        returns it. */
    method AddTrafficLight(x: real, y: real, roadConfig: JunctionConfig, intersectionSize: int, now: real)
      returns (light: TrafficLight)
      requires Valid()
      modifies this
      ensures Valid() && fresh(light)
      ensures trafficLights == old(trafficLights) + [light]
      ensures light.centerX == x && light.centerY == y && light.roadConfig == roadConfig
      ensures light.lightStates == InitialLightStates(map[], RoadDirectionsFrom(roadConfig).Keys)
      ensures light.greenDuration == 15.0 && light.cycleStartTime == now
    {
      light := new TrafficLight(x, y, roadConfig, intersectionSize, now);
      trafficLights := trafficLights + [light];
    }

    /** `update_all` (traffic_lights.py:110-112): runs `update_timing` on every light. */
    method UpdateAll(now: real)
      requires Valid()
      modifies trafficLights
      ensures Valid()
      ensures forall l :: l in trafficLights ==> l.TimingUpdatedAt(now)
    {
      var i := 0;
      while i < |trafficLights|
        invariant 0 <= i <= |trafficLights|
        invariant Valid()
        invariant forall j :: 0 <= j < i ==> trafficLights[j].TimingUpdatedAt(now)
        invariant forall j :: i <= j < |trafficLights| ==> unchanged(trafficLights[j])
      {
        trafficLights[i].UpdateTiming(now);
        i := i + 1;
      }
    }

    /** `get_nearest_traffic_light` (traffic_lights.py:118-126): the first light at minimal
        distance from (x, y), provided that distance is at most `maxDistance`; nothing when
        there are no lights or the nearest is farther away. */
    method GetNearestTrafficLight(x: real, y: real, maxDistance: real) returns (r: Option<TrafficLight>)
      ensures r.Some? ==> exists k :: (
        && 0 <= k < |trafficLights| && r.value == trafficLights[k]
        && DistAtMost(LightSqDist(trafficLights[k], x, y), maxDistance)
        && (forall j :: 0 <= j < |trafficLights| ==>
              LightSqDist(trafficLights[k], x, y) <= LightSqDist(trafficLights[j], x, y))
        && (forall j :: 0 <= j < k ==>
              LightSqDist(trafficLights[j], x, y) > LightSqDist(trafficLights[k], x, y)))
      ensures r.None? <==> forall j :: 0 <= j < |trafficLights| ==>
        !DistAtMost(LightSqDist(trafficLights[j], x, y), maxDistance)
    {
      var nearest: Option<TrafficLight> := None;
      var best := 0;
      var minDist := 0.0;
      var i := 0;
      while i < |trafficLights|
        invariant 0 <= i <= |trafficLights|
        invariant nearest.None? <==> i == 0
        invariant nearest.Some? ==>
          && 0 <= best < i && nearest.value == trafficLights[best]
          && minDist == LightSqDist(trafficLights[best], x, y)
          && (forall j :: 0 <= j < i ==> minDist <= LightSqDist(trafficLights[j], x, y))
          && (forall j :: 0 <= j < best ==> LightSqDist(trafficLights[j], x, y) > minDist)
      {
        var d := LightSqDist(trafficLights[i], x, y);
        if nearest.None? || d < minDist {
          nearest, best, minDist := Some(trafficLights[i]), i, d;
        }
        i := i + 1;
      }
      if nearest.Some? && DistAtMost(minDist, maxDistance) {
        r := nearest;
      } else {
        r := None;
      }
    }

    /** `update_road_config` (traffic_lights.py:128-130): reconfigures every light. */
    method UpdateRoadConfig(newRoadConfig: JunctionConfig)
      requires Valid()
      modifies trafficLights
      ensures Valid()
      ensures forall l :: l in trafficLights ==>
        && l.roadConfig == newRoadConfig
        && l.lightStates == InitialLightStates(old(l.lightStates), RoadDirectionsFrom(newRoadConfig).Keys)
        && l.cycleStartTime == old(l.cycleStartTime) && l.greenDuration == old(l.greenDuration)
    {
      var i := 0;
      while i < |trafficLights|
        invariant 0 <= i <= |trafficLights|
        invariant Valid()
        invariant forall j :: 0 <= j < i ==>
          var l := trafficLights[j];
          && l.roadConfig == newRoadConfig
          && l.lightStates == InitialLightStates(old(l.lightStates), RoadDirectionsFrom(newRoadConfig).Keys)
          && l.cycleStartTime == old(l.cycleStartTime) && l.greenDuration == old(l.greenDuration)
        invariant forall j :: i <= j < |trafficLights| ==>
          var l := trafficLights[j];
          && l.lightStates == old(l.lightStates) && l.roadConfig == old(l.roadConfig)
          && l.cycleStartTime == old(l.cycleStartTime) && l.greenDuration == old(l.greenDuration)
      {
        trafficLights[i].UpdateRoadConfig(newRoadConfig);
        i := i + 1;
      }
    }
  }
}
