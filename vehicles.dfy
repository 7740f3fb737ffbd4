/** Vehicles of the simulation: the vehicle-type and traffic-density tables, the `Vehicle`
    record, and the per-frame rules that `VehicleSpawnConfig` applies to it (speed and position
    update, car-following, retirement), each stated as a function with its properties.

    A `Vehicle` is a value: the source's record is a dataclass, so `!=` and `list.remove`
    compare vehicles field by field. Its `properties` field always refers to the one shared
    table entry of its type, so comparing it is comparing the type, and the model looks the
    properties up by type instead of storing them. Speeds and coordinates are `real`; square
    roots are replaced by comparisons of squared distances (`Common.DistLess` and friends). */
module Vehicles {
  import opened Common
  import opened Roads

  datatype VehicleType = Car | Bus | Truck | Motorcycle | AutoRickshaw | Bicycle | Tempo

  /** The order of the vehicle-type table, in which the cumulative draw scans it. */
  const TypeOrder: seq<VehicleType> := [Car, Bus, Truck, Motorcycle, AutoRickshaw, Bicycle, Tempo]

  /** The fixed columns of a vehicle-type table entry (the spawn probability is kept apart,
      because it is the one column that changes). */
  datatype VehicleProperties = VehicleProperties(
    length: int,
    width: int,
    maxSpeed: int,
    acceleration: real,
    deceleration: real,
    color: (int, int, int))

  /** The vehicle-type table (vehicle_spawnconfig.py:67-96), without the probability column. */
  function PropertiesOf(t: VehicleType): (p: VehicleProperties)
    ensures p.maxSpeed > 0 && p.acceleration > 0.0 && p.deceleration > 0.0
  {
    match t
    case Car => VehicleProperties(40, 20, 80, 2.0, 3.5, (255, 100, 100))
    case Bus => VehicleProperties(80, 25, 60, 1.0, 2.5, (100, 255, 100))
    case Truck => VehicleProperties(60, 22, 70, 1.2, 2.8, (100, 100, 255))
    case Motorcycle => VehicleProperties(25, 12, 90, 3.0, 4.0, (255, 255, 100))
    case AutoRickshaw => VehicleProperties(30, 15, 50, 1.8, 3.0, (255, 150, 0))
    case Bicycle => VehicleProperties(20, 8, 25, 1.0, 2.0, (150, 75, 0))
    case Tempo => VehicleProperties(45, 18, 55, 1.5, 3.0, (200, 100, 200))
  }

  /** The initial spawn-probability column of the table. */
  const DefaultSpawnProbabilities: map<VehicleType, real> :=
    map[Car := 0.35, Bus := 0.15, Truck := 0.20, Motorcycle := 0.15, AutoRickshaw := 0.10, Bicycle := 0.03, Tempo := 0.02]

  datatype TrafficDensity = Low | Medium | High | PeakHour

  /** One row of the density table: frames between spawns, the share of the maximum speed a
      vehicle aims for, and the per-frame lane-change probability. */
  datatype DensityConfig = DensityConfig(spawnRate: int, speedVariation: real, laneChangeProbability: real)

  /** The density table (vehicle_spawnconfig.py:99-120): denser traffic spawns more often and
      drives slower. */
  function DensityConfigFor(d: TrafficDensity): (c: DensityConfig)
    ensures c.spawnRate > 0 && 0.0 < c.speedVariation < 1.0
  {
    match d
    case Low => DensityConfig(180, 0.8, 0.02)
    case Medium => DensityConfig(120, 0.7, 0.05)
    case High => DensityConfig(80, 0.6, 0.08)
    case PeakHour => DensityConfig(40, 0.4, 0.12)
  }

  /** One simulated vehicle (`Vehicle`). */
  datatype Vehicle = Vehicle(
    vehicleType: VehicleType,
    x: real,
    y: real,
    speed: real,
    direction: LaneDirection,
    lanePosition: int,
    targetSpeed: real,
    followingDistance: real)

  // ---------------------------------------------------------------------------------------
  // Weighted choice of the vehicle type

  /** The probability of `t` in `probs`, 0 when absent. */
  function Prob(probs: map<VehicleType, real>, t: VehicleType): real
  {
    if t in probs then probs[t] else 0.0
  }

  /** The sum of the first `k` probabilities of the table, in table order. */
  function Cumulative(probs: map<VehicleType, real>, k: nat): real
    requires k <= |TypeOrder|
  {
    if k == 0 then 0.0 else Cumulative(probs, k - 1) + Prob(probs, TypeOrder[k - 1])
  }

  /** The first index `k >= i` whose running total reaches the draw, or `|TypeOrder|` if none. */
  function FirstReached(probs: map<VehicleType, real>, draw: real, i: nat): (k: nat)
    requires i <= |TypeOrder|
    ensures i <= k <= |TypeOrder|
    decreases |TypeOrder| - i
  {
    if i == |TypeOrder| then |TypeOrder|
    else if draw <= Cumulative(probs, i + 1) then i
    else FirstReached(probs, draw, i + 1)
  }

  /** `get_vehicle_type_to_spawn` (vehicle_spawnconfig.py:126-136) for the draw `draw`: the
      type at the first position whose running total reaches the draw (every earlier running
      total is below it), or CAR when no running total reaches it. */
  function TypeForDraw(probs: map<VehicleType, real>, draw: real): (t: VehicleType)
    ensures var k := FirstReached(probs, draw, 0);
      && (k < |TypeOrder| ==> t == TypeOrder[k] && draw <= Cumulative(probs, k + 1))
      && (forall j :: 0 < j <= k ==> draw > Cumulative(probs, j))
      && (k == |TypeOrder| ==> t == Car)
  {
    FirstReachedFrom(probs, draw, 0);
    var k := FirstReached(probs, draw, 0);
    if k < |TypeOrder| then TypeOrder[k] else Car
  }

  lemma {:induction false} FirstReachedFrom(probs: map<VehicleType, real>, draw: real, i: nat)
    requires i <= |TypeOrder|
    ensures var k := FirstReached(probs, draw, i);
      && (k < |TypeOrder| ==> draw <= Cumulative(probs, k + 1))
      && (forall j :: i < j <= k ==> draw > Cumulative(probs, j))
    decreases |TypeOrder| - i
  {
    if i < |TypeOrder| && draw > Cumulative(probs, i + 1) {
      FirstReachedFrom(probs, draw, i + 1);
      var k := FirstReached(probs, draw, i + 1);
      assert FirstReached(probs, draw, i) == k;
      assert forall j :: i + 1 < j <= k ==> draw > Cumulative(probs, j);
    }
  }

  /** With no negative probability, the running totals never decrease. */
  lemma {:induction false} CumulativeMonotone(probs: map<VehicleType, real>, a: nat, b: nat)
    requires a <= b <= |TypeOrder|
    requires forall t :: Prob(probs, t) >= 0.0
    ensures Cumulative(probs, a) <= Cumulative(probs, b)
    decreases b - a
  {
    if a < b {
      CumulativeMonotone(probs, a, b - 1);
    }
  }

  /** With no negative probability, each type owns the band of draws above the running total
      before it and up to its own; the fallback CAR is returned exactly for draws above the
      grand total. */
  lemma TypeForDrawBands(probs: map<VehicleType, real>, draw: real, k: nat)
    requires forall t :: Prob(probs, t) >= 0.0
    requires k < |TypeOrder|
    ensures Cumulative(probs, k) < draw <= Cumulative(probs, k + 1) ==> TypeForDraw(probs, draw) == TypeOrder[k]
    ensures FirstReached(probs, draw, 0) < |TypeOrder| <==> draw <= Cumulative(probs, |TypeOrder|)
  {
    var found := FirstReached(probs, draw, 0);
    if Cumulative(probs, k) < draw <= Cumulative(probs, k + 1) {
      if found < k {
        CumulativeMonotone(probs, found + 1, k);
      }
    }
    if found < |TypeOrder| {
      CumulativeMonotone(probs, found + 1, |TypeOrder|);
    }
  }

  /** With the default table the running totals are 0.35, 0.5, 0.7, 0.85, 0.95, 0.98 and 1.0,
      so each type is drawn for the band of draws below; as the total is 1, no draw of
      `random()` (which is below 1) falls through to the fallback. */
  lemma DefaultTableBands(draw: real)
    ensures draw <= 0.35 ==> TypeForDraw(DefaultSpawnProbabilities, draw) == Car
    ensures 0.35 < draw <= 0.5 ==> TypeForDraw(DefaultSpawnProbabilities, draw) == Bus
    ensures 0.5 < draw <= 0.7 ==> TypeForDraw(DefaultSpawnProbabilities, draw) == Truck
    ensures 0.7 < draw <= 0.85 ==> TypeForDraw(DefaultSpawnProbabilities, draw) == Motorcycle
    ensures 0.85 < draw <= 0.95 ==> TypeForDraw(DefaultSpawnProbabilities, draw) == AutoRickshaw
    ensures 0.95 < draw <= 0.98 ==> TypeForDraw(DefaultSpawnProbabilities, draw) == Bicycle
    ensures 0.98 < draw <= 1.0 ==> TypeForDraw(DefaultSpawnProbabilities, draw) == Tempo
    ensures draw <= 1.0 <==> FirstReached(DefaultSpawnProbabilities, draw, 0) < |TypeOrder|
  {
    var p := DefaultSpawnProbabilities;
    assert Cumulative(p, 1) == 0.35;
    assert Cumulative(p, 2) == 0.5;
    assert Cumulative(p, 3) == 0.7;
    assert Cumulative(p, 4) == 0.85;
    assert Cumulative(p, 5) == 0.95;
    assert Cumulative(p, 6) == 0.98;
    assert Cumulative(p, 7) == 1.0;
    forall k: nat | k < |TypeOrder|
      ensures Cumulative(p, k) < draw <= Cumulative(p, k + 1) ==> TypeForDraw(p, draw) == TypeOrder[k]
    {
      TypeForDrawBands(p, draw, k);
    }
    TypeForDrawBands(p, draw, 0);
  }

  // ---------------------------------------------------------------------------------------
  // Creation

  /** `create_vehicle` (vehicle_spawnconfig.py:138-159) for the type `t`, the spawn point and
      the draw `draw` of `random()`: at rest at the spawn point, travelling the point's
      direction, aiming for the density's share of the type's maximum speed, varied by a
      factor of 0.8 to 1.2 (upper bound excluded). */
  function CreateVehicle(t: VehicleType, point: SpawnPoint, density: TrafficDensity, draw: real): (v: Vehicle)
    ensures v.vehicleType == t && v.speed == 0.0 && v.lanePosition == 0
    ensures v.x == point.x as real && v.y == point.y as real && v.direction == point.direction
    ensures v.followingDistance == 50.0
    ensures var base := PropertiesOf(t).maxSpeed as real * DensityConfigFor(density).speedVariation;
      0.0 <= draw < 1.0 ==> 0.8 * base <= v.targetSpeed < 1.2 * base
  {
    var base := PropertiesOf(t).maxSpeed as real * DensityConfigFor(density).speedVariation;
    ScaledBetween(base, draw);
    Vehicle(t, point.x as real, point.y as real, 0.0, point.direction, 0, base * (0.8 + draw * 0.4), 50.0)
  }

  lemma ScaledBetween(base: real, draw: real)
    requires base > 0.0
    ensures 0.0 <= draw < 1.0 ==> 0.8 * base <= base * (0.8 + draw * 0.4) < 1.2 * base
  {
    if 0.0 <= draw < 1.0 {
      assert base * (0.8 + draw * 0.4) == 0.8 * base + 0.4 * (base * draw);
      assert 0.0 <= base * draw < base;
    }
  }

  // ---------------------------------------------------------------------------------------
  // Spawn gate

  /** Python's `int()` on a float: truncation toward zero. */
  function Trunc(r: real): (t: int)
    ensures r >= 0.0 ==> 0 <= t && t as real <= r < t as real + 1.0
    ensures r < 0.0 ==> t <= 0 && t as real - 1.0 < r <= t as real
  {
    if r >= 0.0 then r.Floor else -((-r).Floor)
  }

  /** The spawn interval of one frame: the density's rate scaled by the draw of
      `uniform(0.7, 1.3)` and truncated (vehicle_spawnconfig.py:164-168). */
  function AdjustedSpawnRate(density: TrafficDensity, randomFactor: real): (n: int)
    ensures var scaled := DensityConfigFor(density).spawnRate as real * randomFactor;
      randomFactor >= 0.0 ==> 0 <= n && n as real <= scaled < n as real + 1.0
  {
    Trunc(DensityConfigFor(density).spawnRate as real * randomFactor)
  }

  // ---------------------------------------------------------------------------------------
  // Speed and position

  /** km/h to pixels per frame, as the source scales it (vehicle_spawnconfig.py:231). */
  const SpeedMultiplier: real := 1.0 / 3.6 / 60.0 * 100.0

  function Abs(r: real): real
  {
    if r < 0.0 then -r else r
  }

  /** How far `w` lies ahead of `v` along `v`'s direction of travel. */
  function Progress(v: Vehicle, w: Vehicle): real
  {
    match v.direction
    case East => w.x - v.x
    case West => v.x - w.x
    case South => w.y - v.y
    case North => v.y - w.y
  }

  /** `w` is `v` with only the coordinate on `v`'s axis of travel changed. */
  predicate OnAxis(v: Vehicle, w: Vehicle)
  {
    if v.direction == East || v.direction == West then w.y == v.y else w.x == v.x
  }

  /** The speed rule of `_update_vehicle_position` (vehicle_spawnconfig.py:233-238) for a
      time step `dt`. When the speed is more than 0.1 off its target, it moves toward the
      target at the type's acceleration or deceleration and is clamped to `[0, target]`, so
      it never ends above the target and never below 0; otherwise it is kept. Speeding up
      over a non-negative step never slows the vehicle down. */
  function NewSpeed(v: Vehicle, dt: real): (s: real)
    ensures Abs(v.targetSpeed - v.speed) > 0.1 ==>
      0.0 <= s && (v.targetSpeed >= 0.0 ==> s <= v.targetSpeed)
    ensures Abs(v.targetSpeed - v.speed) <= 0.1 ==> s == v.speed
    ensures v.targetSpeed - v.speed > 0.1 && dt >= 0.0 ==> v.speed <= s
    ensures v.speed >= 0.0 ==> s >= 0.0
  {
    var props := PropertiesOf(v.vehicleType);
    var speedDiff := v.targetSpeed - v.speed;
    if Abs(speedDiff) > 0.1 then
      var acceleration := if speedDiff > 0.0 then props.acceleration else -props.deceleration;
      assert speedDiff > 0.0 && dt >= 0.0 ==> acceleration * dt >= 0.0;
      var raised := v.speed + acceleration * dt;
      var capped := if raised < v.targetSpeed then raised else v.targetSpeed;
      if 0.0 > capped then 0.0 else capped
    else v.speed
  }

  /** The distance covered in a step `dt` at `speed`. */
  function Travel(speed: real, dt: real): real
  {
    speed * SpeedMultiplier * dt
  }

  /** `_update_vehicle_position` (vehicle_spawnconfig.py:228-250): the speed is updated as
      `NewSpeed` says, then the vehicle advances along its own axis only, by the new speed
      times the scale times `dt`; nothing but the speed and that coordinate changes. */
  function Moved(v: Vehicle, dt: real): (w: Vehicle)
    ensures w == v.(speed := NewSpeed(v, dt), x := w.x, y := w.y)
    ensures OnAxis(v, w) && Progress(v, w) == Travel(w.speed, dt)
  {
    var speed := NewSpeed(v, dt);
    var movement := Travel(speed, dt);
    match v.direction
    case East => v.(speed := speed, x := v.x + movement)
    case West => v.(speed := speed, x := v.x - movement)
    case South => v.(speed := speed, y := v.y + movement)
    case North => v.(speed := speed, y := v.y - movement)
  }

  // ---------------------------------------------------------------------------------------
  // Car-following

  /** Squared distance between two vehicles. */
  function VehicleSqDist(a: Vehicle, b: Vehicle): real
  {
    SqDist(a.x, a.y, b.x, b.y)
  }

  /** `o` is strictly ahead of `v` along `v`'s direction. */
  predicate IsInFront(v: Vehicle, o: Vehicle)
  {
    Progress(v, o) > 0.0
  }

  /** `o` is a car-following candidate for `v` (vehicle_spawnconfig.py:282-295): a different
      vehicle (compared field by field), travelling the same direction, less than 30 apart in
      y — whatever the direction, vertical ones included — and strictly ahead. */
  predicate FrontCandidate(v: Vehicle, o: Vehicle)
  {
    && o != v
    && o.direction == v.direction
    && Abs(o.y - v.y) < 30.0
    && IsInFront(v, o)
  }

  /** Position `k` of `vs` holds the vehicle `_find_vehicle_in_front` returns: a candidate at
      minimal distance, and the first such in the list. */
  predicate NearestAheadAt(v: Vehicle, vs: seq<Vehicle>, k: int)
  {
    && 0 <= k < |vs|
    && FrontCandidate(v, vs[k])
    && (forall j :: 0 <= j < |vs| && FrontCandidate(v, vs[j]) ==> VehicleSqDist(v, vs[k]) <= VehicleSqDist(v, vs[j]))
    && (forall j :: 0 <= j < k && FrontCandidate(v, vs[j]) ==> VehicleSqDist(v, vs[j]) > VehicleSqDist(v, vs[k]))
  }

  /** The position of the nearest candidate ahead is unique. */
  lemma NearestAheadUnique(v: Vehicle, vs: seq<Vehicle>, k1: int, k2: int)
    requires NearestAheadAt(v, vs, k1) && NearestAheadAt(v, vs, k2)
    ensures k1 == k2
  {
  }

  /** The vehicle ahead of `v` in `vs`, as a reference definition: scanning from the back, a
      candidate replaces the best one found so far when it is at least as near. */
  function FrontOf(v: Vehicle, vs: seq<Vehicle>): Option<Vehicle>
  {
    if vs == [] then None
    else
      var rest := FrontOf(v, vs[1..]);
      if FrontCandidate(v, vs[0]) && (rest.None? || VehicleSqDist(v, vs[0]) <= VehicleSqDist(v, rest.value))
      then Some(vs[0])
      else rest
  }

  /** `FrontOf` returns nothing exactly when there is no candidate, and otherwise the first
      candidate at minimal distance. */
  lemma {:induction false} FrontOfIsNearestAhead(v: Vehicle, vs: seq<Vehicle>)
    ensures FrontOf(v, vs).None? <==> forall j :: 0 <= j < |vs| ==> !FrontCandidate(v, vs[j])
    ensures FrontOf(v, vs).Some? ==> exists k :: NearestAheadAt(v, vs, k) && FrontOf(v, vs).value == vs[k]
  {
    if vs != [] {
      var tail := vs[1..];
      FrontOfIsNearestAhead(v, tail);
      var rest := FrontOf(v, tail);
      assert forall j :: 0 < j < |vs| ==> vs[j] == tail[j - 1];
      if FrontCandidate(v, vs[0]) && (rest.None? || VehicleSqDist(v, vs[0]) <= VehicleSqDist(v, rest.value)) {
        if rest.Some? {
          var k' :| NearestAheadAt(v, tail, k') && rest.value == tail[k'];
          forall j | 0 <= j < |vs| && FrontCandidate(v, vs[j])
            ensures VehicleSqDist(v, vs[0]) <= VehicleSqDist(v, vs[j])
          {
            if j > 0 {
              assert FrontCandidate(v, tail[j - 1]);
            }
          }
        }
        assert NearestAheadAt(v, vs, 0);
      } else if rest.Some? {
        var k' :| NearestAheadAt(v, tail, k') && rest.value == tail[k'];
        assert NearestAheadAt(v, vs, k' + 1) by {
          forall j | 0 <= j < |vs| && FrontCandidate(v, vs[j])
            ensures VehicleSqDist(v, vs[k' + 1]) <= VehicleSqDist(v, vs[j])
          {
            if j > 0 {
              assert FrontCandidate(v, tail[j - 1]);
            }
          }
          forall j | 0 <= j < k' + 1 && FrontCandidate(v, vs[j])
            ensures VehicleSqDist(v, vs[j]) > VehicleSqDist(v, vs[k' + 1])
          {
            if j > 0 {
              assert FrontCandidate(v, tail[j - 1]);
            }
          }
        }
      }
    }
  }

  /** The target-speed rule of `_apply_traffic_behavior` (vehicle_spawnconfig.py:252-269) for
      the vehicle `front` ahead, if any, at density share `speedVariation`. Closer than the
      following distance, the target drops to at most 80% of the leader's speed and never
      rises; farther than twice that distance, it becomes the cruising speed
      `min(maxSpeed * speedVariation, maxSpeed)`; otherwise, or with no vehicle ahead, it is
      kept. Only the target speed ever changes. */
  function Behaved(v: Vehicle, front: Option<Vehicle>, speedVariation: real): (w: Vehicle)
    ensures w == v.(targetSpeed := w.targetSpeed)
    ensures front.None? ==> w == v
    ensures front.Some? && DistLess(VehicleSqDist(v, front.value), v.followingDistance) ==>
      && w.targetSpeed <= v.targetSpeed && w.targetSpeed <= front.value.speed * 0.8
      && (w.targetSpeed == v.targetSpeed || w.targetSpeed == front.value.speed * 0.8)
    ensures (front.Some? && !DistLess(VehicleSqDist(v, front.value), v.followingDistance)
             && DistGreater(VehicleSqDist(v, front.value), v.followingDistance * 2.0)) ==>
      var maxSpeed := PropertiesOf(v.vehicleType).maxSpeed as real;
      && w.targetSpeed <= maxSpeed && w.targetSpeed <= maxSpeed * speedVariation
      && (w.targetSpeed == maxSpeed || w.targetSpeed == maxSpeed * speedVariation)
    ensures (front.Some? && !DistLess(VehicleSqDist(v, front.value), v.followingDistance)
             && !DistGreater(VehicleSqDist(v, front.value), v.followingDistance * 2.0)) ==> w == v
  {
    match front
    case None => v
    case Some(f) =>
      var d2 := VehicleSqDist(v, f);
      if DistLess(d2, v.followingDistance) then
        var slow := f.speed * 0.8;
        v.(targetSpeed := if v.targetSpeed < slow then v.targetSpeed else slow)
      else if DistGreater(d2, v.followingDistance * 2.0) then
        var maxSpeed := PropertiesOf(v.vehicleType).maxSpeed as real;
        var cruise := maxSpeed * speedVariation;
        v.(targetSpeed := if cruise < maxSpeed then cruise else maxSpeed)
      else v
  }

  // ---------------------------------------------------------------------------------------
  // One frame over the whole list

  /** The work `update_vehicles` does for the vehicle at position `i`: move it, then adjust
      its target against the vehicle ahead in the list as it stands at that moment (earlier
      vehicles already moved this frame, later ones not yet). */
  function ProcessAt(vs: seq<Vehicle>, i: nat, dt: real, speedVariation: real): (r: seq<Vehicle>)
    requires i < |vs|
    ensures |r| == |vs|
    ensures forall j :: 0 <= j < |vs| && j != i ==> r[j] == vs[j]
  {
    var moved := Moved(vs[i], dt);
    var withMoved := vs[i := moved];
    withMoved[i := Behaved(moved, FrontOf(moved, withMoved), speedVariation)]
  }

  /** The vehicles after `update_vehicles` has processed positions `i` onwards, in order. */
  function StepFrom(vs: seq<Vehicle>, i: nat, dt: real, speedVariation: real): (r: seq<Vehicle>)
    requires i <= |vs|
    ensures |r| == |vs|
    ensures forall j :: 0 <= j < i ==> r[j] == vs[j]
    decreases |vs| - i
  {
    if i == |vs| then vs else StepFrom(ProcessAt(vs, i, dt, speedVariation), i + 1, dt, speedVariation)
  }

  /** Processing a vehicle keeps every speed non-negative. */
  lemma {:induction false} StepFromKeepsSpeeds(vs: seq<Vehicle>, i: nat, dt: real, speedVariation: real)
    requires i <= |vs|
    requires forall v :: v in vs ==> v.speed >= 0.0
    ensures forall v :: v in StepFrom(vs, i, dt, speedVariation) ==> v.speed >= 0.0
    decreases |vs| - i
  {
    if i < |vs| {
      var next := ProcessAt(vs, i, dt, speedVariation);
      forall v | v in next
        ensures v.speed >= 0.0
      {
        var j :| 0 <= j < |next| && next[j] == v;
        if j != i {
          assert next[j] in vs;
        } else {
          assert next[i].speed == Moved(vs[i], dt).speed;
          assert vs[i] in vs;
        }
      }
      StepFromKeepsSpeeds(next, i + 1, dt, speedVariation);
    }
  }

  // ---------------------------------------------------------------------------------------
  // Retirement

  /** `_should_remove_vehicle` (vehicle_spawnconfig.py:315-322): more than 100 outside the
      screen on some side. */
  predicate ShouldRemove(v: Vehicle, screenWidth: int, screenHeight: int)
    ensures ShouldRemove(v, screenWidth, screenHeight) ==>
      v.x < 0.0 || v.x > screenWidth as real || v.y < 0.0 || v.y > screenHeight as real
    ensures (-100.0 <= v.x <= screenWidth as real + 100.0 && -100.0 <= v.y <= screenHeight as real + 100.0)
      ==> !ShouldRemove(v, screenWidth, screenHeight)
  {
    v.x < -100.0 || v.x > screenWidth as real + 100.0 || v.y < -100.0 || v.y > screenHeight as real + 100.0
  }

  /** The vehicles of `vs` to retire, in order. */
  function Gone(vs: seq<Vehicle>, w: int, h: int): (r: seq<Vehicle>)
    ensures forall v :: v in r <==> v in vs && ShouldRemove(v, w, h)
  {
    if vs == [] then []
    else (if ShouldRemove(vs[0], w, h) then [vs[0]] else []) + Gone(vs[1..], w, h)
  }

  /** The vehicles of `vs` that stay, in order. */
  function Kept(vs: seq<Vehicle>, w: int, h: int): (r: seq<Vehicle>)
    ensures forall v :: v in r <==> v in vs && !ShouldRemove(v, w, h)
  {
    if vs == [] then []
    else (if ShouldRemove(vs[0], w, h) then [] else [vs[0]]) + Kept(vs[1..], w, h)
  }

  lemma {:induction false} GoneAppend(vs: seq<Vehicle>, v: Vehicle, w: int, h: int)
    ensures Gone(vs + [v], w, h) == Gone(vs, w, h) + (if ShouldRemove(v, w, h) then [v] else [])
  {
    if vs == [] {
      assert vs + [v] == [v];
    } else {
      assert (vs + [v])[1..] == vs[1..] + [v];
      GoneAppend(vs[1..], v, w, h);
    }
  }

  /** Python's `list.remove`: drops the first element equal to `x`. */
  function RemoveFirst(vs: seq<Vehicle>, x: Vehicle): (r: seq<Vehicle>)
    ensures multiset(r) == multiset(vs) - multiset{x}
    ensures x !in vs ==> r == vs
  {
    if vs == [] then []
    else
      assert vs == [vs[0]] + vs[1..];
      if vs[0] == x then vs[1..]
      else [vs[0]] + RemoveFirst(vs[1..], x)
  }

  /** `list.remove` applied to each element of `xs` in turn. */
  function RemoveEach(vs: seq<Vehicle>, xs: seq<Vehicle>): seq<Vehicle>
    decreases |xs|
  {
    if xs == [] then vs else RemoveEach(RemoveFirst(vs, xs[0]), xs[1..])
  }

  /** `r` is `vs` without position `k`, the first position holding `x`. */
  predicate DropsFirstAt(vs: seq<Vehicle>, x: Vehicle, k: int, r: seq<Vehicle>)
  {
    0 <= k < |vs| && vs[k] == x && x !in vs[..k] && r == vs[..k] + vs[k + 1..]
  }

  /** `list.remove` drops the first element equal to `x` and keeps the others in order. */
  lemma {:induction false} RemoveFirstDropsFirstOccurrence(vs: seq<Vehicle>, x: Vehicle)
    ensures x in vs ==> exists k :: DropsFirstAt(vs, x, k, RemoveFirst(vs, x))
  {
    if x in vs {
      if vs[0] == x {
        assert vs[..0] == [];
        assert DropsFirstAt(vs, x, 0, RemoveFirst(vs, x));
      } else {
        var tail := vs[1..];
        assert vs == [vs[0]] + tail;
        assert x in tail;
        RemoveFirstDropsFirstOccurrence(tail, x);
        var k :| DropsFirstAt(tail, x, k, RemoveFirst(tail, x));
        DropsFirstShifted(vs, x, k);
        assert DropsFirstAt(vs, x, k + 1, RemoveFirst(vs, x));
      }
    }
  }

  /** One step of the induction: a first occurrence at `k` in the tail is a first occurrence at
      `k + 1` in the whole list, whose head differs from `x`. */
  lemma DropsFirstShifted(vs: seq<Vehicle>, x: Vehicle, k: int)
    requires vs != [] && vs[0] != x
    requires DropsFirstAt(vs[1..], x, k, RemoveFirst(vs[1..], x))
    ensures DropsFirstAt(vs, x, k + 1, RemoveFirst(vs, x))
  {
    var tail := vs[1..];
    assert vs[..k + 1] == [vs[0]] + tail[..k];
    assert vs[k + 2..] == tail[k + 1..];
    assert RemoveFirst(vs, x) == [vs[0]] + RemoveFirst(tail, x);
  }

  /** Removing the first vehicle to retire, by value, removes exactly it: an equal vehicle
      earlier in the list would be equally off-screen, hence retired earlier. */
  lemma {:induction false} RemoveFirstGone(vs: seq<Vehicle>, w: int, h: int)
    requires Gone(vs, w, h) != []
    ensures var x := Gone(vs, w, h)[0];
      && Gone(RemoveFirst(vs, x), w, h) == Gone(vs, w, h)[1..]
      && Kept(RemoveFirst(vs, x), w, h) == Kept(vs, w, h)
  {
    var x := Gone(vs, w, h)[0];
    var tail := vs[1..];
    if ShouldRemove(vs[0], w, h) {
      assert Gone(vs, w, h) == [vs[0]] + Gone(tail, w, h);
      assert RemoveFirst(vs, x) == tail;
    } else {
      assert Gone(vs, w, h) == Gone(tail, w, h);
      assert Kept(vs, w, h) == [vs[0]] + Kept(tail, w, h);
      assert x in Gone(tail, w, h);
      assert vs[0] != x;
      RemoveFirstGone(tail, w, h);
      var rest := RemoveFirst(tail, x);
      assert RemoveFirst(vs, x) == [vs[0]] + rest;
      assert ([vs[0]] + rest)[1..] == rest;
    }
  }

  /** `update_vehicles`' removal loop (vehicle_spawnconfig.py:224-226): removing the retired
      vehicles one by one, each by value, leaves exactly the vehicles that stay, in their
      original relative order. */
  lemma {:induction false} RemoveEachGoneIsKept(vs: seq<Vehicle>, w: int, h: int)
    ensures RemoveEach(vs, Gone(vs, w, h)) == Kept(vs, w, h)
    decreases |Gone(vs, w, h)|
  {
    var gone := Gone(vs, w, h);
    if gone == [] {
      KeptAllWhenNoneGone(vs, w, h);
    } else {
      RemoveFirstGone(vs, w, h);
      RemoveEachGoneIsKept(RemoveFirst(vs, gone[0]), w, h);
    }
  }

  lemma {:induction false} KeptAllWhenNoneGone(vs: seq<Vehicle>, w: int, h: int)
    requires Gone(vs, w, h) == []
    ensures Kept(vs, w, h) == vs
  {
    if vs != [] {
      assert !ShouldRemove(vs[0], w, h);
      KeptAllWhenNoneGone(vs[1..], w, h);
    }
  }

  /** `pos` lists, in strictly increasing order, positions of `vs` holding the elements of
      `sub` one by one: `sub` is `vs` with some elements dropped and the rest kept in order. */
  predicate Embeds(pos: seq<nat>, vs: seq<Vehicle>, sub: seq<Vehicle>)
  {
    && |pos| == |sub|
    && (forall i :: 0 <= i < |pos| ==> pos[i] < |vs| && vs[pos[i]] == sub[i])
    && (forall i, j :: 0 <= i < j < |pos| ==> pos[i] < pos[j])
  }

  /** An embedding into `vs[1..]` shifted by one is an embedding into `vs`; with position 0
      in front it embeds `[vs[0]] + sub`. */
  lemma EmbedsShifted(pos: seq<nat>, vs: seq<Vehicle>, sub: seq<Vehicle>) returns (shifted: seq<nat>)
    requires vs != [] && Embeds(pos, vs[1..], sub)
    ensures Embeds(shifted, vs, sub) && Embeds([0] + shifted, vs, [vs[0]] + sub)
  {
    shifted := seq(|pos|, i requires 0 <= i < |pos| => pos[i] + 1);
    forall i | 0 <= i < |pos|
      ensures shifted[i] < |vs| && vs[shifted[i]] == sub[i]
    {
      assert vs[1..][pos[i]] == sub[i];
    }
    var cons := [0] + shifted;
    forall i | 0 <= i < |cons|
      ensures cons[i] < |vs| && vs[cons[i]] == ([vs[0]] + sub)[i]
    {
      if i > 0 {
        assert cons[i] == shifted[i - 1];
      }
    }
  }

  /** Retirement splits the list: every vehicle is either kept or retired. */
  lemma {:induction false} KeptAndGoneSplit(vs: seq<Vehicle>, w: int, h: int)
    ensures |Kept(vs, w, h)| + |Gone(vs, w, h)| == |vs|
  {
    if vs != [] {
      KeptAndGoneSplit(vs[1..], w, h);
    }
  }

  /** The kept vehicles appear in their original relative order. */
  lemma {:induction false} KeptIsOrderedSubsequence(vs: seq<Vehicle>, w: int, h: int)
    ensures exists pos :: Embeds(pos, vs, Kept(vs, w, h))
  {
    if vs == [] {
      assert Embeds([], vs, Kept(vs, w, h));
    } else {
      KeptIsOrderedSubsequence(vs[1..], w, h);
      var pos :| Embeds(pos, vs[1..], Kept(vs[1..], w, h));
      var embedding := KeptEmbedsStep(vs, w, h, pos);
    }
  }

  /** The inductive step of `KeptIsOrderedSubsequence`. */
  lemma KeptEmbedsStep(vs: seq<Vehicle>, w: int, h: int, pos: seq<nat>) returns (embedding: seq<nat>)
    requires vs != [] && Embeds(pos, vs[1..], Kept(vs[1..], w, h))
    ensures Embeds(embedding, vs, Kept(vs, w, h))
  {
    var rest := Kept(vs[1..], w, h);
    var shifted := EmbedsShifted(pos, vs, rest);
    if ShouldRemove(vs[0], w, h) {
      assert Kept(vs, w, h) == rest;
      embedding := shifted;
    } else {
      assert Kept(vs, w, h) == [vs[0]] + rest;
      embedding := [0] + shifted;
    }
  }

  // ---------------------------------------------------------------------------------------
  // Statistics

  /** The number of vehicles of type `t` in `vs`. */
  function CountOf(vs: seq<Vehicle>, t: VehicleType): (c: nat)
    ensures c <= |vs|
  {
    if vs == [] then 0
    else CountOf(vs[..|vs| - 1], t) + (if vs[|vs| - 1].vehicleType == t then 1 else 0)
  }

  /** A type has a positive count exactly when some vehicle is of that type. */
  lemma {:induction false} CountPositiveIffPresent(vs: seq<Vehicle>, t: VehicleType)
    ensures CountOf(vs, t) > 0 <==> exists j :: 0 <= j < |vs| && vs[j].vehicleType == t
  {
    if vs != [] {
      var init := vs[..|vs| - 1];
      CountPositiveIffPresent(init, t);
      assert forall j :: 0 <= j < |init| ==> init[j] == vs[j];
    }
  }

  /** The sum of the speeds in `vs`. */
  function SumSpeeds(vs: seq<Vehicle>): real
  {
    if vs == [] then 0.0 else SumSpeeds(vs[..|vs| - 1]) + vs[|vs| - 1].speed
  }

  /** The sum of the per-type counts of `vs` over the types from position `k` of the table. */
  function CountsFrom(vs: seq<Vehicle>, k: nat): nat
    requires k <= |TypeOrder|
    decreases |TypeOrder| - k
  {
    if k == |TypeOrder| then 0 else CountOf(vs, TypeOrder[k]) + CountsFrom(vs, k + 1)
  }

  /** The sum of the values of a per-type count map, absent types counting 0. */
  function MapTotalFrom(counts: map<VehicleType, nat>, k: nat): nat
    requires k <= |TypeOrder|
    decreases |TypeOrder| - k
  {
    if k == |TypeOrder| then 0
    else (if TypeOrder[k] in counts then counts[TypeOrder[k]] else 0) + MapTotalFrom(counts, k + 1)
  }

  /** How often `t` occurs in the table order from position `k` on. */
  function Occurrences(t: VehicleType, k: nat): nat
    requires k <= |TypeOrder|
    decreases |TypeOrder| - k
  {
    if k == |TypeOrder| then 0 else (if TypeOrder[k] == t then 1 else 0) + Occurrences(t, k + 1)
  }

  /** Every vehicle is counted under exactly one type, so the per-type counts sum to the
      number of vehicles. */
  lemma {:induction false} CountsSumToTotal(vs: seq<Vehicle>)
    ensures CountsFrom(vs, 0) == |vs|
  {
    if vs != [] {
      var init, last := vs[..|vs| - 1], vs[|vs| - 1];
      CountsSumToTotal(init);
      CountsStep(init, vs, last.vehicleType, 0);
      OccursOnce(last.vehicleType);
    }
  }

  /** Each type appears exactly once in the table order. */
  lemma OccursOnce(t: VehicleType)
    ensures Occurrences(t, 0) == 1
  {
    match t
    case Car =>
    case Bus =>
    case Truck =>
    case Motorcycle =>
    case AutoRickshaw =>
    case Bicycle =>
    case Tempo =>
  }

  /** Adding one vehicle of type `t` at the end adds one to the count of `t` only. */
  lemma {:induction false} CountsStep(init: seq<Vehicle>, vs: seq<Vehicle>, t: VehicleType, k: nat)
    requires vs != [] && init == vs[..|vs| - 1] && vs[|vs| - 1].vehicleType == t
    requires k <= |TypeOrder|
    ensures CountsFrom(vs, k) == CountsFrom(init, k) + Occurrences(t, k)
    decreases |TypeOrder| - k
  {
    if k < |TypeOrder| {
      CountsStep(init, vs, t, k + 1);
    }
  }

  /** A count map that holds, for each type present, its count, and nothing for absent types,
      sums to the number of vehicles. */
  lemma {:induction false} MapTotalIsCount(counts: map<VehicleType, nat>, vs: seq<Vehicle>, k: nat)
    requires k <= |TypeOrder|
    requires forall t :: t in counts <==> CountOf(vs, t) > 0
    requires forall t :: t in counts ==> counts[t] == CountOf(vs, t)
    ensures MapTotalFrom(counts, k) == CountsFrom(vs, k)
    decreases |TypeOrder| - k
  {
    if k < |TypeOrder| {
      MapTotalIsCount(counts, vs, k + 1);
    }
  }

  // ---------------------------------------------------------------------------------------
  // Custom spawn probabilities

  /** The sum of the probabilities over the types from position `k` of the table. */
  function ProbTotalFrom(probs: map<VehicleType, real>, k: nat): real
    requires k <= |TypeOrder|
    decreases |TypeOrder| - k
  {
    if k == |TypeOrder| then 0.0 else Prob(probs, TypeOrder[k]) + ProbTotalFrom(probs, k + 1)
  }

  /** `sum(probabilities.values())`. */
  function ProbTotal(probs: map<VehicleType, real>): real
  {
    ProbTotalFrom(probs, 0)
  }

  /** Each probability divided by `total`. */
  function Divided(probs: map<VehicleType, real>, total: real): map<VehicleType, real>
    requires total != 0.0
  {
    map t | t in probs :: probs[t] / total
  }

  lemma {:induction false} DividedTotalFrom(probs: map<VehicleType, real>, total: real, k: nat)
    requires total != 0.0 && k <= |TypeOrder|
    ensures ProbTotalFrom(Divided(probs, total), k) == ProbTotalFrom(probs, k) / total
    decreases |TypeOrder| - k
  {
    if k < |TypeOrder| {
      DividedTotalFrom(probs, total, k + 1);
      var a, b := Prob(probs, TypeOrder[k]), ProbTotalFrom(probs, k + 1);
      assert Prob(Divided(probs, total), TypeOrder[k]) == a / total;
      DivisionAdds(a, b, total);
    }
  }

  lemma DivisionAdds(a: real, b: real, d: real)
    requires d != 0.0
    ensures a / d + b / d == (a + b) / d
  {
    var x, y := a / d, b / d;
    assert x * d == a && y * d == b;
    assert (x + y) * d == a + b;
  }

  /** Dividing every probability by their (non-zero) total makes them sum to exactly 1. */
  lemma NormalisedSumsToOne(probs: map<VehicleType, real>)
    requires ProbTotal(probs) != 0.0
    ensures ProbTotal(Divided(probs, ProbTotal(probs))) == 1.0
  {
    var total := ProbTotal(probs);
    DividedTotalFrom(probs, total, 0);
    assert total / total == 1.0;
  }
}
