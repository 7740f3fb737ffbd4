/** The vehicle manager (`VehicleSpawnConfig`): it owns the list of vehicles, spawns new ones
    on a jittered timer at the road layout's spawn points, advances them one frame at a time
    and retires those that have left the screen.

    Every random draw of the source is a parameter of the operation that makes it: the timer
    jitter `randomFactor` (from `uniform(0.7, 1.3)`), the spawn-point index `pick` (for
    `choice`), and the draws `typeDraw` and `speedDraw` (from `random()`, in `[0, 1)`). */
module VehicleSpawn {
  import opened Common
  import opened Roads
  import opened Vehicles

  /** What `set_custom_spawn_probabilities` can raise. */
  datatype SpawnConfigError = ZeroDivisionError

  /** The dictionary `get_traffic_stats` returns; vehicle types and the density are keyed by
      their enumeration members rather than by their string values. */
  datatype TrafficStats = TrafficStats(
    totalVehicles: nat,
    vehicleTypes: map<VehicleType, nat>,
    averageSpeed: real,
    trafficDensity: TrafficDensity)

  predicate SpeedsNonNegative(vs: seq<Vehicle>)
  {
    forall v :: v in vs ==> v.speed >= 0.0
  }

  /** `_is_spawn_point_clear` (vehicle_spawnconfig.py:197-207): no vehicle travelling the
      point's direction is less than 100 away from it. */
  predicate SpawnPointClear(vs: seq<Vehicle>, p: SpawnPoint)
  {
    forall j :: 0 <= j < |vs| && vs[j].direction == p.direction ==>
      !DistLess(SqDist(vs[j].x, vs[j].y, p.x as real, p.y as real), 100.0)
  }

  /** Whether `set_custom_spawn_probabilities` rescales: the total is more than 0.01 off 1. */
  predicate NeedsRescaling(probs: map<VehicleType, real>)
  {
    Abs(ProbTotal(probs) - 1.0) > 0.01
  }

  /** `set_custom_spawn_probabilities` divides by zero exactly when it must rescale a
      non-empty map whose total is 0. */
  predicate RescalingFails(probs: map<VehicleType, real>)
  {
    NeedsRescaling(probs) && ProbTotal(probs) == 0.0 && |probs| > 0
  }

  /** The probabilities after the rescaling step of `set_custom_spawn_probabilities`
      (vehicle_spawnconfig.py:396-400), which the source does in the caller's dictionary. */
  function Rescaled(probs: map<VehicleType, real>): (r: map<VehicleType, real>)
    requires !RescalingFails(probs)
    ensures r.Keys == probs.Keys
  {
    if NeedsRescaling(probs) && |probs| > 0 then Divided(probs, ProbTotal(probs)) else probs
  }

  /** After a successful call the given probabilities sum to 1 within 0.01 — exactly 1 when
      they were rescaled — unless no probability was given at all. */
  lemma RescaledSumsNearOne(probs: map<VehicleType, real>)
    requires !RescalingFails(probs) && |probs| > 0
    ensures Abs(ProbTotal(Rescaled(probs)) - 1.0) <= 0.01
    ensures NeedsRescaling(probs) ==> ProbTotal(Rescaled(probs)) == 1.0
  {
    if NeedsRescaling(probs) {
      NormalisedSumsToOne(probs);
    }
  }

  /** A spawn interval drawn with a factor in `[0.7, 1.3]` is positive and lies between 70%
      (less the truncation) and 130% of the density's rate. */
  lemma SpawnIntervalBounds(density: TrafficDensity, randomFactor: real)
    requires 0.7 <= randomFactor <= 1.3
    ensures var rate := DensityConfigFor(density).spawnRate as real;
      && 0 < AdjustedSpawnRate(density, randomFactor)
      && rate * 0.7 - 1.0 < AdjustedSpawnRate(density, randomFactor) as real <= rate * 1.3
  {
    var rate := DensityConfigFor(density).spawnRate as real;
    assert rate * 0.7 <= rate * randomFactor <= rate * 1.3;
  }

  class VehicleSpawnConfig {
    const roadConfig: RoadConfig
    var vehicles: seq<Vehicle>
    var spawnTimer: nat
    var currentDensity: TrafficDensity
    /** The spawn-probability column of the vehicle-type table. */
    var spawnProbability: map<VehicleType, real>

    /** Every type has a spawn probability, and no vehicle has a negative speed. */
    ghost predicate Valid()
      reads this
    {
      && (forall t: VehicleType :: t in spawnProbability)
      && SpeedsNonNegative(vehicles)
    }

    /** `VehicleSpawnConfig.__init__` (vehicle_spawnconfig.py:60-120): no vehicles, timer at
        0, MEDIUM density, the default probability column. */
    constructor (roadConfig: RoadConfig)
      ensures this.roadConfig == roadConfig
      ensures vehicles == [] && spawnTimer == 0 && currentDensity == Medium
      ensures spawnProbability == DefaultSpawnProbabilities
      ensures Valid()
    {
      this.roadConfig := roadConfig;
      vehicles := [];
      spawnTimer := 0;
      currentDensity := Medium;
      spawnProbability := DefaultSpawnProbabilities;
      forall t: VehicleType
        ensures t in DefaultSpawnProbabilities
      {
        match t
        case Car =>
        case Bus =>
        case Truck =>
        case Motorcycle =>
        case AutoRickshaw =>
        case Bicycle =>
        case Tempo =>
      }
    }

    /** `set_traffic_density` (vehicle_spawnconfig.py:122-124). */
    method SetTrafficDensity(density: TrafficDensity)
      modifies this`currentDensity
      ensures currentDensity == density
    {
      currentDensity := density;
    }

    /** `get_vehicle_type_to_spawn` (vehicle_spawnconfig.py:126-136) for the draw `draw`: the
        running-total scan over the table, as `TypeForDraw` defines it. */
    method GetVehicleTypeToSpawn(draw: real) returns (t: VehicleType)
      requires Valid()
      ensures t == TypeForDraw(spawnProbability, draw)
    {
      var cumulative := 0.0;
      var i := 0;
      while i < |TypeOrder|
        invariant 0 <= i <= |TypeOrder|
        invariant cumulative == Cumulative(spawnProbability, i)
        invariant FirstReached(spawnProbability, draw, i) == FirstReached(spawnProbability, draw, 0)
      {
        cumulative := cumulative + spawnProbability[TypeOrder[i]];
        if draw <= cumulative {
          return TypeOrder[i];
        }
        i := i + 1;
      }
      return Car;
    }

    /** `should_spawn_vehicle` (vehicle_spawnconfig.py:161-173): the timer ticks; when it
        reaches the jittered interval it is reset and a spawn is due. */
    method ShouldSpawnVehicle(randomFactor: real) returns (due: bool)
      modifies this`spawnTimer
      ensures due <==> old(spawnTimer) + 1 >= AdjustedSpawnRate(currentDensity, randomFactor)
      ensures spawnTimer == if due then 0 else old(spawnTimer) + 1
    {
      spawnTimer := spawnTimer + 1;
      var adjustedSpawnRate := AdjustedSpawnRate(currentDensity, randomFactor);
      if spawnTimer >= adjustedSpawnRate {
        spawnTimer := 0;
        return true;
      }
      return false;
    }

    /** `_is_spawn_point_clear` (vehicle_spawnconfig.py:197-207). */
    method IsSpawnPointClear(point: SpawnPoint) returns (clear: bool)
      ensures clear <==> SpawnPointClear(vehicles, point)
    {
      var i := 0;
      while i < |vehicles|
        invariant 0 <= i <= |vehicles|
        invariant forall j :: 0 <= j < i && vehicles[j].direction == point.direction ==>
          !DistLess(SqDist(vehicles[j].x, vehicles[j].y, point.x as real, point.y as real), 100.0)
      {
        var v := vehicles[i];
        if v.direction == point.direction {
          if DistLess(SqDist(v.x, v.y, point.x as real, point.y as real), 100.0) {
            return false;
          }
        }
        i := i + 1;
      }
      return true;
    }

    /** `spawn_vehicle` (vehicle_spawnconfig.py:175-195): when a spawn is due and the layout
        has spawn points, the picked point, if clear, receives a new vehicle of the drawn
        type at the end of the list; otherwise the list is unchanged. */
    method SpawnVehicle(randomFactor: real, pick: nat, typeDraw: real, speedDraw: real)
      requires Valid()
      modifies this`vehicles, this`spawnTimer
      ensures Valid()
      ensures var due := old(spawnTimer) + 1 >= AdjustedSpawnRate(currentDensity, randomFactor);
        var points := roadConfig.GetSpawnPoints();
        && spawnTimer == (if due then 0 else old(spawnTimer) + 1)
        && if due && |points| > 0 && SpawnPointClear(old(vehicles), points[pick % |points|]) then
             vehicles == old(vehicles) + [CreateVehicle(TypeForDraw(spawnProbability, typeDraw),
               points[pick % |points|], currentDensity, speedDraw)]
           else vehicles == old(vehicles)
    {
      var due := ShouldSpawnVehicle(randomFactor);
      if !due {
        return;
      }
      var spawnPoints := roadConfig.GetSpawnPoints();
      if |spawnPoints| == 0 {
        return;
      }
      var spawnPoint := spawnPoints[pick % |spawnPoints|];
      var clear := IsSpawnPointClear(spawnPoint);
      if !clear {
        return;
      }
      var vehicleType := GetVehicleTypeToSpawn(typeDraw);
      var newVehicle := CreateVehicle(vehicleType, spawnPoint, currentDensity, speedDraw);
      vehicles := vehicles + [newVehicle];
    }

    /** `_find_vehicle_in_front` (vehicle_spawnconfig.py:276-303): the first candidate at
        minimal distance (a later one replaces it only when strictly nearer), or nothing. */
    method FindVehicleInFront(v: Vehicle) returns (front: Option<Vehicle>)
      ensures front.None? <==> forall j :: 0 <= j < |vehicles| ==> !FrontCandidate(v, vehicles[j])
      ensures front.Some? ==> exists k :: NearestAheadAt(v, vehicles, k) && front.value == vehicles[k]
    {
      front := None;
      var closest := 0;
      var minDistance := 0.0;
      var i := 0;
      while i < |vehicles|
        invariant 0 <= i <= |vehicles|
        invariant front.None? ==> forall j :: 0 <= j < i ==> !FrontCandidate(v, vehicles[j])
        invariant front.Some? ==> 0 <= closest < i && front.value == vehicles[closest]
        invariant front.Some? ==> FrontCandidate(v, vehicles[closest]) && minDistance == VehicleSqDist(v, vehicles[closest])
        invariant front.Some? ==> forall j :: 0 <= j < i && FrontCandidate(v, vehicles[j]) ==> minDistance <= VehicleSqDist(v, vehicles[j])
        invariant front.Some? ==> forall j :: 0 <= j < closest && FrontCandidate(v, vehicles[j]) ==> VehicleSqDist(v, vehicles[j]) > minDistance
      {
        var other := vehicles[i];
        if other != v && other.direction == v.direction && Abs(other.y - v.y) < 30.0 {
          if IsInFront(v, other) {
            var distance := VehicleSqDist(v, other);
            if front.None? || distance < minDistance {
              front := Some(other);
              closest := i;
              minDistance := distance;
            }
          }
        }
        i := i + 1;
      }
      if front.Some? {
        assert NearestAheadAt(v, vehicles, closest);
      }
    }

    /** `update_vehicles` (vehicle_spawnconfig.py:209-226): each vehicle in turn is moved and
        its target adjusted against the list as it stands (the `StepFrom` sequence); then the
        ones off screen are removed one by one, by value, leaving exactly the `Kept` ones. */
    method UpdateVehicles(dt: real)
      requires Valid()
      modifies this`vehicles
      ensures Valid()
      ensures vehicles == Kept(StepFrom(old(vehicles), 0, dt, DensityConfigFor(currentDensity).speedVariation),
                               roadConfig.screenWidth, roadConfig.screenHeight)
      ensures forall v :: v in vehicles ==> !ShouldRemove(v, roadConfig.screenWidth, roadConfig.screenHeight)
    {
      var speedVariation := DensityConfigFor(currentDensity).speedVariation;
      var w, h := roadConfig.screenWidth, roadConfig.screenHeight;
      var toRemove := ProcessAll(dt);
      RemovingGoneLeavesKept(old(vehicles), vehicles, toRemove, dt, speedVariation, w, h);
      RemoveEachOf(toRemove);
    }

    /** The first loop of `update_vehicles` (vehicle_spawnconfig.py:213-222): every vehicle in
        turn is moved and adjusted to the vehicle ahead, and the vehicles then off screen are
        collected, in order. */
    method ProcessAll(dt: real) returns (toRemove: seq<Vehicle>)
      modifies this`vehicles
      ensures vehicles == StepFrom(old(vehicles), 0, dt, DensityConfigFor(currentDensity).speedVariation)
      ensures toRemove == Gone(vehicles, roadConfig.screenWidth, roadConfig.screenHeight)
    {
      var speedVariation := DensityConfigFor(currentDensity).speedVariation;
      var w, h := roadConfig.screenWidth, roadConfig.screenHeight;
      toRemove := [];
      var i := 0;
      while i < |vehicles|
        invariant 0 <= i <= |vehicles| == |old(vehicles)|
        invariant StepFrom(vehicles, i, dt, speedVariation) == StepFrom(old(vehicles), 0, dt, speedVariation)
        invariant toRemove == Gone(vehicles[..i], w, h)
      {
        ghost var before := vehicles;
        UpdateVehiclePosition(i, dt);
        ghost var moved := vehicles;
        ApplyTrafficBehavior(i);
        ProcessedPrefix(before, moved, vehicles, i, dt, speedVariation, w, h);
        if ShouldRemove(vehicles[i], w, h) {
          toRemove := toRemove + [vehicles[i]];
        }
        i := i + 1;
      }
      assert vehicles[..i] == vehicles;
    }

    /** `_update_vehicle_position` (vehicle_spawnconfig.py:228-250) on the vehicle at
        position `i`, as `Moved` states it; no other vehicle changes. */
    method UpdateVehiclePosition(i: nat, dt: real)
      requires i < |vehicles|
      modifies this`vehicles
      ensures vehicles == old(vehicles)[i := Moved(old(vehicles)[i], dt)]
    {
      vehicles := vehicles[i := Moved(vehicles[i], dt)];
    }

    /** `_apply_traffic_behavior` (vehicle_spawnconfig.py:252-274) on the vehicle at position
        `i`: its target is adjusted against the vehicle ahead in the current list, as
        `Behaved` states it; no other vehicle changes. */
    method ApplyTrafficBehavior(i: nat)
      requires i < |vehicles|
      modifies this`vehicles
      ensures var v := old(vehicles)[i];
        vehicles == old(vehicles)[i := Behaved(v, FrontOf(v, old(vehicles)), DensityConfigFor(currentDensity).speedVariation)]
    {
      var v := vehicles[i];
      var front := FindVehicleInFront(v);
      SameFront(v, vehicles, front);
      vehicles := vehicles[i := Behaved(v, front, DensityConfigFor(currentDensity).speedVariation)];
    }

    /** The removal loop of `update_vehicles` (vehicle_spawnconfig.py:224-226): `list.remove`
        of each given vehicle in turn. */
    method RemoveEachOf(toRemove: seq<Vehicle>)
      modifies this`vehicles
      ensures vehicles == RemoveEach(old(vehicles), toRemove)
    {
      var j := 0;
      while j < |toRemove|
        invariant 0 <= j <= |toRemove|
        invariant RemoveEach(vehicles, toRemove[j..]) == RemoveEach(old(vehicles), toRemove)
      {
        assert toRemove[j..][1..] == toRemove[j + 1..];
        vehicles := RemoveFirst(vehicles, toRemove[j]);
        j := j + 1;
      }
    }

    /** `get_traffic_stats` (vehicle_spawnconfig.py:370-388): the number of vehicles, the
        count of each type present (absent types have no entry), the mean speed (0 with no
        vehicles) and the density; the per-type counts add up to the number of vehicles. */
    method GetTrafficStats() returns (stats: TrafficStats)
      ensures stats.totalVehicles == |vehicles| && stats.trafficDensity == currentDensity
      ensures forall t :: t in stats.vehicleTypes <==> CountOf(vehicles, t) > 0
      ensures forall t :: t in stats.vehicleTypes ==> stats.vehicleTypes[t] == CountOf(vehicles, t)
      ensures stats.averageSpeed == if |vehicles| == 0 then 0.0 else SumSpeeds(vehicles) / |vehicles| as real
      ensures MapTotalFrom(stats.vehicleTypes, 0) == stats.totalVehicles
    {
      var counts: map<VehicleType, nat> := map[];
      var totalSpeed := 0.0;
      var i := 0;
      while i < |vehicles|
        invariant 0 <= i <= |vehicles|
        invariant forall t :: t in counts <==> CountOf(vehicles[..i], t) > 0
        invariant forall t :: t in counts ==> counts[t] == CountOf(vehicles[..i], t)
        invariant totalSpeed == SumSpeeds(vehicles[..i])
      {
        var t := vehicles[i].vehicleType;
        counts := counts[t := (if t in counts then counts[t] else 0) + 1];
        totalSpeed := totalSpeed + vehicles[i].speed;
        assert vehicles[..i + 1][..i] == vehicles[..i];
        i := i + 1;
      }
      assert vehicles[..i] == vehicles;
      var averageSpeed := if |vehicles| == 0 then 0.0 else totalSpeed / |vehicles| as real;
      stats := TrafficStats(|vehicles|, counts, averageSpeed, currentDensity);
      MapTotalIsCount(counts, vehicles, 0);
      CountsSumToTotal(vehicles);
    }

    /** `clear_all_vehicles` (vehicle_spawnconfig.py:390-392). */
    method ClearAllVehicles()
      modifies this`vehicles
      ensures vehicles == []
    {
      vehicles := [];
    }

    /** `set_custom_spawn_probabilities` (vehicle_spawnconfig.py:394-404): the probabilities,
        rescaled when their total is more than 0.01 off 1, overwrite the table's column for
        the types given, others keeping theirs; the rescaled map is returned since the source
        rescales the caller's dictionary. A non-empty map totalling 0 raises a division by
        zero and changes nothing. */
    method SetCustomSpawnProbabilities(probabilities: map<VehicleType, real>)
      returns (r: Result<map<VehicleType, real>, SpawnConfigError>)
      requires Valid()
      modifies this`spawnProbability
      ensures Valid()
      ensures RescalingFails(probabilities) ==> r == Err(ZeroDivisionError) && spawnProbability == old(spawnProbability)
      ensures !RescalingFails(probabilities) ==>
        r == Ok(Rescaled(probabilities)) && spawnProbability == old(spawnProbability) + Rescaled(probabilities)
    {
      if RescalingFails(probabilities) {
        return Err(ZeroDivisionError);
      }
      var given := Rescaled(probabilities);
      spawnProbability := spawnProbability + given;
      return Ok(given);
    }
  }

  /** The vehicle `FindVehicleInFront` reports is the one `FrontOf` defines. */
  lemma SameFront(v: Vehicle, vs: seq<Vehicle>, front: Option<Vehicle>)
    requires front.None? <==> forall j :: 0 <= j < |vs| ==> !FrontCandidate(v, vs[j])
    requires front.Some? ==> exists k :: NearestAheadAt(v, vs, k) && front.value == vs[k]
    ensures front == FrontOf(v, vs)
  {
    FrontOfIsNearestAhead(v, vs);
    if front.Some? {
      var k1 :| NearestAheadAt(v, vs, k1) && front.value == vs[k1];
      var k2 :| NearestAheadAt(v, vs, k2) && FrontOf(v, vs).value == vs[k2];
      NearestAheadUnique(v, vs, k1, k2);
    }
  }

  /** One iteration of `update_vehicles`' loop (moving the vehicle at `i`, giving `moved`,
      then adjusting its target, giving `after`) advances the `StepFrom` sequence by one
      position and extends the list of vehicles to retire by the processed one, if due. */
  lemma ProcessedPrefix(before: seq<Vehicle>, moved: seq<Vehicle>, after: seq<Vehicle>, i: nat,
                        dt: real, speedVariation: real, w: int, h: int)
    requires i < |before|
    requires moved == before[i := Moved(before[i], dt)]
    requires after == moved[i := Behaved(moved[i], FrontOf(moved[i], moved), speedVariation)]
    ensures StepFrom(after, i + 1, dt, speedVariation) == StepFrom(before, i, dt, speedVariation)
    ensures Gone(after[..i + 1], w, h)
      == Gone(before[..i], w, h) + (if ShouldRemove(after[i], w, h) then [after[i]] else [])
  {
    assert after == ProcessAt(before, i, dt, speedVariation);
    assert after[..i + 1] == before[..i] + [after[i]];
    GoneAppend(before[..i], after[i], w, h);
  }

  /** After the loop of `update_vehicles` has processed every position, removing the
      collected vehicles leaves the `Kept` part of the stepped list, all with non-negative
      speeds. */
  lemma RemovingGoneLeavesKept(original: seq<Vehicle>, stepped: seq<Vehicle>, toRemove: seq<Vehicle>,
                               dt: real, speedVariation: real, w: int, h: int)
    requires SpeedsNonNegative(original)
    requires stepped == StepFrom(original, 0, dt, speedVariation)
    requires toRemove == Gone(stepped, w, h)
    ensures RemoveEach(stepped, toRemove) == Kept(StepFrom(original, 0, dt, speedVariation), w, h)
    ensures SpeedsNonNegative(Kept(StepFrom(original, 0, dt, speedVariation), w, h))
  {
    RemoveEachGoneIsKept(stepped, w, h);
    StepFromKeepsSpeeds(original, 0, dt, speedVariation);
  }
}
