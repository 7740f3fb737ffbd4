# Indian traffic simulation — simulation core in Dafny

This project models the simulation logic of a small pygame traffic simulator for Indian
roads and proves properties of it. Three parts are modelled:

- **Road and lane geometry** (`RoadConfig`, module `Roads`, `road_config.dfy`). A per-road-type
  table gives the lane width, the lanes per direction, the speed limit and whether there is a
  divider. Horizontal and vertical two-way segments are built from it with integer arithmetic:
  EAST/SOUTH lanes on one side of the centre line, WEST/NORTH lanes on the other. The layout
  also gives lanes filtered by direction and one spawn point per lane on the screen edge where
  its traffic enters. The segment and intersection lists are fields that the layout methods
  extend by appending.
- **Traffic signals** (`TrafficLight`, `TrafficLightManager`, module `Signals`,
  `traffic_lights.dfy`). A junction record yields its approaches: four for a `cross` junction,
  with the left angle derived from the right angle, and none otherwise. Each approach has a RED
  or GREEN light. The lights start with top and bottom GREEN and switch pairwise between
  {top, bottom} and {left, right} once a green period has elapsed. The manager keeps a list of
  lights, updates them all, and finds the nearest light within a cut-off distance.
- **Vehicles** (`VehicleSpawnConfig`, modules `Vehicles` and `VehicleSpawn`, `vehicles.dfy` and
  `vehicle_spawnconfig.dfy`). These are the vehicle-type and density tables, weighted choice of
  the type to spawn, a jittered frame-counter spawn gate, and a clearance check at the spawn
  point. Each frame, every vehicle's speed moves toward its target and is clamped, the vehicle
  advances along its own axis, and its target is adjusted against the nearest vehicle ahead
  (car-following). Vehicles that have left the screen are retired. The part also covers
  traffic statistics and custom spawn probabilities, rescaled to sum to 1.

`common.dfy` (module `Common`) holds `Option`, `Result`, the squared distance and
square-root-free distance comparisons.

The imperative parts of the source are classes here: `Roads.RoadConfig`,
`Signals.TrafficLight`, `Signals.TrafficLightManager` and `VehicleSpawn.VehicleSpawnConfig`.
Their methods change fields and loop where the source loops, with one exception:
`SetCustomSpawnProbabilities` states the source's two loops over the given map
(vehicle_spawnconfig.py:399-404) as the map comprehension `Divided` and a map union. Each
method is proved against a specification function, such as `TypeForDraw`, `FrontOf`, `StepFrom` and `Kept`,
`InitialLightStates`, `SwitchedPhases`, `Rescaled`. Lemmas then state what the source promises
about those functions. Builders with no side effects (road construction, lane filtering,
spawn points, junction directions) are functions.

A vehicle is a value (`Vehicles.Vehicle`), because the source's record is a dataclass: `!=`
and `list.remove` compare vehicles field by field. Its `properties` field always refers to the
one shared table entry for its type, so the model looks properties up by type instead.

The lights switch pairs of approaches, {top, bottom} against {left, right}, not one approach at
a time, as traffic_lights.py:64-70 does.

## Model

| member | source | states |
|---|---|---|
| `Roads.LaneSpecFor` | road_config.py:67-98 | The lane table: for every road type the lane width, lanes per direction and speed limit are positive, and there is a divider exactly when there are at least two lanes per direction. |
| `Roads.HorizontalRoad` | road_config.py:125-165 | A horizontal segment has two lanes per table lane count: the first half travel EAST, the second WEST. Every lane has the table's width and speed limit and the road's length. The segment has the table's divider and no light. |
| `Roads.VerticalRoad` | road_config.py:167-206 | The same for a vertical segment: the first half of the lanes travel SOUTH, the second NORTH. |
| `Roads.HorizontalRoadLayout` | road_config.py:125-165 | A horizontal segment has 2n lanes. The first n travel EAST with centres in `[y − n·w, y)`, and the last n travel WEST with centres in `[y, y + n·w)`. Consecutive lanes of a direction are exactly one lane width apart. Every lane has the table's width, speed limit and the road length, and EAST lanes start at x = 0 and WEST lanes at x = length. The band runs from `y − total//2` to `y + total//2`. The segment has the table's divider and no light. |
| `Roads.VerticalRoadLayout` | road_config.py:167-206 | The same construction across x. The first n lanes travel SOUTH, left of the centre, starting at y = 0. The last n travel NORTH, right of it, starting at y = length. |
| `Roads.LanesByDirectionIsFilter` | road_config.py:216-223 | Collecting lanes segment by segment equals filtering the concatenation of all lanes, so the lanes come in segment-then-lane order, and it holds exactly the lanes of that direction. |
| `Roads.FilterDistributes` | road_config.py:218-223 | Filtering by direction distributes over concatenation. |
| `Roads.LanesByDirection` | road_config.py:216-223 | The scan over segments holds a lane exactly when the lane has the requested direction and belongs to some segment. |
| `Roads.RoadConfig.GetLaneByDirection` | road_config.py:216-223 | The result is the order-preserving filter of all lanes by direction, and contains a lane exactly when the layout has it with that direction. |
| `Roads.SpawnPointOf` | road_config.py:314-321 | A lane's spawn point has the lane's direction, lies on a screen edge, and keeps the lane's y (EAST/WEST) or x (NORTH/SOUTH). |
| `Roads.SpawnPointsOf` | road_config.py:312-321 | One spawn point per lane of a segment, each the lane's own spawn point, in lane order. |
| `Roads.SpawnPoints` | road_config.py:308-323 | One spawn point per lane of the whole layout. |
| `Roads.SpawnPointsMatchLanes` | road_config.py:308-323 | There is one spawn point per lane, in lane order. It carries the lane's direction and sits on the matching edge: EAST at x = 0, WEST at x = screen width (both with the lane's y), SOUTH at y = 0, NORTH at y = screen height (both with the lane's x). |
| `Roads.RoadConfig.GetSpawnPoints` | road_config.py:308-323 | As `SpawnPointsMatchLanes`, for the layout's current segments. |
| `Roads.DefaultLayoutShape` | road_config.py:100-123 | The default main road has 4 lanes (EAST, EAST above the centre line, WEST, WEST at or below it, each pair in increasing y), a divider and a light at the screen centre. The side road has 2 lanes (SOUTH left of the centre, NORTH right of it), no divider and no light. |
| `Roads.RoadConfig.CreateDefaultIndianRoadLayout` | road_config.py:100-123 | Appends the main road, which carries the light, then the side road, and one intersection at the screen centre. The earlier segments and intersections are kept. |
| `Roads.RoadConfig.constructor` | road_config.py:51-55 | An empty layout for the given screen size. |
| `Roads.RoadConfig.AddCustomRoadSegment` | road_config.py:208-210 | Appends the segment; the intersections are unchanged. |
| `Roads.RoadConfig.AddIntersection` | road_config.py:212-214 | Appends the intersection; the segments are unchanged. |
| `Signals.RoadDirectionsFrom` | traffic_lights.py:39-49 | A `cross` record yields exactly top, right, bottom and left, each named by its key. Top, right and bottom take the record's angles. Left lies in [0, 360) and differs from right + 180 by a multiple of 360. Any other junction type yields no approach. |
| `Signals.InitialLightStates` | traffic_lights.py:51-57 | Keys are the old keys plus the approaches. Top and bottom are GREEN if present, the other approaches RED, and stale keys keep their old state. |
| `Signals.MarkRed` | traffic_lights.py:52-53 | The loop sets every given name RED and leaves every other key as it was. |
| `Signals.SwitchedPhases` | traffic_lights.py:64-70 | On a cross junction the result has top = bottom, left = right and top ≠ left, with top GREEN exactly when it was not GREEN before. Keys other than the four approaches are unchanged. Any other junction is left as it is. |
| `Signals.SwitchTwiceRestores` | traffic_lights.py:64-70 | On a pair-consistent cross junction, one switch flips top and two switches restore the states. |
| `Signals.InitialCrossLightsConsistent` | traffic_lights.py:51-57 | Initial lights on a cross junction are pair-consistent. |
| `Signals.TrafficLight.constructor` | traffic_lights.py:20-32 | Records the centre, size and record, and derives the approaches. The initial lights are set as `InitialLightStates` says, the green period is 15 and the cycle starts at `now`. |
| `Signals.TrafficLight.InitializeLightStates` | traffic_lights.py:51-57 | The lights become `InitialLightStates` of the old lights, updated in place and never cleared. Nothing else changes. |
| `Signals.TrafficLight.UpdateTiming` | traffic_lights.py:59-62 | When `now − cycle start ≥ green period`, the phases switch and the cycle restarts at `now`. Otherwise nothing changes. The invariant (approaches match the record; pair-consistent on a cross junction) is kept. |
| `Signals.TrafficLight.SwitchLightPhases` | traffic_lights.py:64-70 | The lights become `SwitchedPhases` of the old ones. Nothing else changes and the invariant is kept. |
| `Signals.TrafficLight.GetLightStateForRoad` | traffic_lights.py:73-75 | The state for a name is present exactly when the name has a light, and then it is that light's state. |
| `Signals.TrafficLight.IsRedLight` | traffic_lights.py:77-79 | True exactly when the name has a light and it is RED. |
| `Signals.TrafficLight.IsGreenLight` | traffic_lights.py:81-83 | True exactly when the name has a light and it is GREEN. |
| `Signals.TrafficLight.RedGreenExclusive` | traffic_lights.py:77-83 | `is_red_light` and `is_green_light` are never both true. Both are false for a name without a light, and exactly one is true for a name with a light. |
| `Signals.TrafficLight.CrossingApproachesNeverBothGreen` | traffic_lights.py:64-70 | Under the invariant on a cross junction, top and bottom agree, left and right agree, and top is green exactly when left is red. |
| `Signals.TrafficLight.UpdateRoadConfig` | traffic_lights.py:85-88 | Replaces the record and approaches and re-initialises the lights without clearing stale keys. The cycle start and green period are kept. |
| `Signals.TrafficLightManager.constructor` | traffic_lights.py:102-103 | No lights. |
| `Signals.TrafficLightManager.AddTrafficLight` | traffic_lights.py:105-108 | Appends exactly one new light, initialised as the constructor says, and returns it. |
| `Signals.TrafficLightManager.UpdateAll` | traffic_lights.py:110-112 | Every light has had `update_timing` applied at `now`. |
| `Signals.TrafficLightManager.GetNearestTrafficLight` | traffic_lights.py:118-126 | Returns the first light at minimal distance, and only when that distance is at most the cut-off. Returns nothing exactly when no light is within the cut-off, which includes an empty list. |
| `Signals.TrafficLightManager.UpdateRoadConfig` | traffic_lights.py:128-130 | Every light has had `update_road_config` applied. |
| `Vehicles.PropertiesOf` | vehicle_spawnconfig.py:67-96 | The vehicle-type table; every maximum speed, acceleration and deceleration is positive. |
| `Vehicles.DensityConfigFor` | vehicle_spawnconfig.py:99-120 | The density table; every spawn rate is positive and every speed share lies strictly between 0 and 1. |
| `Vehicles.TypeForDraw` | vehicle_spawnconfig.py:126-136 | The draw selects the first type, in table order, whose running total is at least the draw. Every earlier running total is below the draw. CAR is returned when no running total reaches it. |
| `Vehicles.CumulativeMonotone` | vehicle_spawnconfig.py:131-132 | With no negative probability, running totals never decrease. |
| `Vehicles.TypeForDrawBands` | vehicle_spawnconfig.py:126-136 | With no negative probability, each type is chosen for the draws between the previous running total (excluded) and its own (included). The fallback is used exactly for draws above the grand total. |
| `Vehicles.DefaultTableBands` | vehicle_spawnconfig.py:126-136 | With the default table, the band boundaries are 0.35, 0.5, 0.7, 0.85, 0.95, 0.98 and 1.0, with one type per band. A draw falls through to the fallback exactly when it is above 1, so no draw in [0, 1) does. |
| `Vehicles.Trunc` | vehicle_spawnconfig.py:168 | Python's `int()` on a real truncates toward zero: a non-negative value loses less than 1 and stays non-negative, and a negative value gains less than 1 and stays non-positive. |
| `Vehicles.AdjustedSpawnRate` | vehicle_spawnconfig.py:164-168 | With a non-negative jitter, the spawn interval is the whole part of the density's rate times the jitter. |
| `Vehicles.CreateVehicle` | vehicle_spawnconfig.py:138-159 | The new vehicle is at rest at the spawn point, with the point's direction, lane position 0 and following distance 50. Its target lies in [0.8, 1.2) × max speed × speed share for a draw in [0, 1). |
| `Vehicles.NewSpeed` | vehicle_spawnconfig.py:233-238 | When the speed is more than 0.1 off its target, the new speed is non-negative and at most a non-negative target. Speeding up over a non-negative step never lowers it. Otherwise the speed is unchanged. A non-negative speed stays non-negative. |
| `Vehicles.Moved` | vehicle_spawnconfig.py:228-250 | Only the speed and the coordinate on the vehicle's axis of travel change. The progress along its direction equals the new speed × scale × dt. |
| `Vehicles.FrontOfIsNearestAhead` | vehicle_spawnconfig.py:276-303 | The vehicle ahead is absent exactly when there is no candidate. A candidate is a different vehicle (by value) with the same direction, `abs(dy) < 30` and strictly ahead. When present, the vehicle ahead is the first candidate at minimal distance. |
| `Vehicles.NearestAheadUnique` | vehicle_spawnconfig.py:297-301 | Only one position can hold the first candidate at minimal distance. |
| `Vehicles.Behaved` | vehicle_spawnconfig.py:252-269 | Only the target speed changes. Closer than the following distance, the target never rises and ends at most 0.8 × the leader's speed. Farther than twice that distance, it becomes `min(max speed × share, max speed)`. Otherwise, or with nothing ahead, it is kept. |
| `Vehicles.ProcessAt` | vehicle_spawnconfig.py:213-219 | Processing the vehicle at one position leaves the list's length and every other vehicle unchanged. |
| `Vehicles.StepFrom` | vehicle_spawnconfig.py:213-219 | Processing positions i onwards keeps the list's length and leaves the vehicles before i unchanged. |
| `Vehicles.StepFromKeepsSpeeds` | vehicle_spawnconfig.py:209-219 | A frame over the whole list keeps every speed non-negative. |
| `Vehicles.Gone` | vehicle_spawnconfig.py:220-222 | The vehicles collected for removal are exactly those more than 100 outside the screen. |
| `Vehicles.Kept` | vehicle_spawnconfig.py:315-322 | The vehicles that stay are exactly those within 100 of the screen on every side. |
| `Vehicles.GoneAppend` | vehicle_spawnconfig.py:220-222 | Collecting one more processed vehicle adds it at the end exactly when it is off screen. |
| `Vehicles.ShouldRemove` | vehicle_spawnconfig.py:315-322 | A vehicle to retire is off screen, and a vehicle within 100 of the screen on every side is never retired. |
| `Vehicles.RemoveFirst` | vehicle_spawnconfig.py:226 | `list.remove` takes away one occurrence of the value: the result's multiset is the old one minus that value. A value not in the list leaves it unchanged, where Python raises `ValueError` (see "## Left out"). |
| `Vehicles.RemoveFirstDropsFirstOccurrence` | vehicle_spawnconfig.py:226 | When the value occurs, `list.remove` drops exactly its first occurrence. The result is the list without that position, and the other elements keep their order. |
| `Vehicles.RemoveFirstGone` | vehicle_spawnconfig.py:226 | `list.remove` of the first vehicle to retire, by value, removes that vehicle and keeps the others. |
| `Vehicles.RemoveEachGoneIsKept` | vehicle_spawnconfig.py:224-226 | Removing the collected vehicles one by one, each by value, leaves exactly the vehicles that stay. |
| `Vehicles.KeptAndGoneSplit` | vehicle_spawnconfig.py:209-226 | Every vehicle is either kept or retired. |
| `Vehicles.KeptIsOrderedSubsequence` | vehicle_spawnconfig.py:224-226 | The vehicles that stay keep their original relative order: they embed into the original list at strictly increasing positions. |
| `Vehicles.CountPositiveIffPresent` | vehicle_spawnconfig.py:381-383 | A type has a positive count exactly when some vehicle is of that type. |
| `Vehicles.CountsSumToTotal` | vehicle_spawnconfig.py:370-388 | The per-type counts add up to the number of vehicles. |
| `Vehicles.MapTotalIsCount` | vehicle_spawnconfig.py:381-383 | A map holding each present type's count sums to the per-type counts. |
| `Vehicles.NormalisedSumsToOne` | vehicle_spawnconfig.py:396-400 | Dividing every probability by a non-zero total makes them sum to exactly 1. |
| `VehicleSpawn.Rescaled` | vehicle_spawnconfig.py:396-400 | Rescaling keeps the set of given types. |
| `VehicleSpawn.RescaledSumsNearOne` | vehicle_spawnconfig.py:394-404 | After a successful call, a non-empty set of given probabilities sums to 1 within 0.01, and to exactly 1 when it was rescaled. |
| `VehicleSpawn.SpawnIntervalBounds` | vehicle_spawnconfig.py:164-168 | With a jitter in [0.7, 1.3], the spawn interval is positive and lies between 70% of the rate, less the truncation, and 130% of it. |
| `VehicleSpawn.SameFront` | vehicle_spawnconfig.py:276-303 | The vehicle the search reports is the one `FrontOf` defines. |
| `VehicleSpawn.ProcessedPrefix` | vehicle_spawnconfig.py:213-222 | One iteration of the update loop advances the frame by one position and collects the processed vehicle when it is off screen. |
| `VehicleSpawn.RemovingGoneLeavesKept` | vehicle_spawnconfig.py:224-226 | After the loop, removing the collected vehicles leaves the vehicles that stay, all with non-negative speeds. |
| `VehicleSpawn.VehicleSpawnConfig.constructor` | vehicle_spawnconfig.py:60-120 | No vehicles, timer 0, MEDIUM density and the default probability column. Every type has a probability. |
| `VehicleSpawn.VehicleSpawnConfig.SetTrafficDensity` | vehicle_spawnconfig.py:122-124 | Sets the density. |
| `VehicleSpawn.VehicleSpawnConfig.GetVehicleTypeToSpawn` | vehicle_spawnconfig.py:126-136 | The running-total loop returns `TypeForDraw` of the current probabilities. |
| `VehicleSpawn.VehicleSpawnConfig.ShouldSpawnVehicle` | vehicle_spawnconfig.py:161-173 | The timer ticks by one. A spawn is due exactly when the ticked timer reaches the jittered, truncated interval, and then the timer is reset to 0. |
| `VehicleSpawn.VehicleSpawnConfig.IsSpawnPointClear` | vehicle_spawnconfig.py:197-207 | True exactly when no vehicle with the point's direction is less than 100 from it. Other directions are ignored. |
| `VehicleSpawn.VehicleSpawnConfig.SpawnVehicle` | vehicle_spawnconfig.py:175-195 | The timer always ticks. The list grows by exactly one vehicle, appended at the end, when a spawn is due, there are spawn points and the picked one is clear. That vehicle is `CreateVehicle` of the drawn type. Otherwise the list is unchanged. |
| `VehicleSpawn.VehicleSpawnConfig.FindVehicleInFront` | vehicle_spawnconfig.py:276-303 | The running-minimum loop returns nothing exactly when there is no candidate. Otherwise it returns the first candidate at minimal distance. |
| `VehicleSpawn.VehicleSpawnConfig.UpdateVehicles` | vehicle_spawnconfig.py:209-226 | The list becomes the vehicles that stay out of the frame-stepped list, in order. No remaining vehicle is off screen, and speeds stay non-negative. |
| `VehicleSpawn.VehicleSpawnConfig.ProcessAll` | vehicle_spawnconfig.py:213-222 | The first loop moves and adjusts every vehicle in turn. The list becomes `StepFrom` of the old list, and the collected vehicles are exactly its off-screen ones, in order. |
| `VehicleSpawn.VehicleSpawnConfig.UpdateVehiclePosition` | vehicle_spawnconfig.py:228-250 | The vehicle at the position is replaced by `Moved`; no other vehicle changes. |
| `VehicleSpawn.VehicleSpawnConfig.ApplyTrafficBehavior` | vehicle_spawnconfig.py:252-274 | The vehicle's target is adjusted against the vehicle ahead in the current list, as `Behaved` says; no other vehicle changes. |
| `VehicleSpawn.VehicleSpawnConfig.RemoveEachOf` | vehicle_spawnconfig.py:224-226 | Applies `list.remove` for each given vehicle in turn, each as `RemoveFirst` states it. |
| `VehicleSpawn.VehicleSpawnConfig.GetTrafficStats` | vehicle_spawnconfig.py:370-388 | Gives the total, each present type with its count (absent types have no entry), the mean speed (0 with no vehicles) and the density. The counts add up to the total. |
| `VehicleSpawn.VehicleSpawnConfig.ClearAllVehicles` | vehicle_spawnconfig.py:390-392 | The list becomes empty. |
| `VehicleSpawn.VehicleSpawnConfig.SetCustomSpawnProbabilities` | vehicle_spawnconfig.py:394-404 | A non-empty map with total 0, when rescaling is needed, raises division by zero and changes nothing. Otherwise the map is rescaled when its total is more than 0.01 off 1, and overwrites the column for the given types; the others keep theirs. |

## Left out

- Rendering: every `draw*` method, the colour tables, the light radius and segment width, and
  the direction arrows. None of them affect the simulation state.
- The pygame main loop and the tkinter configuration panel, which runs on its own thread. Only
  the shape of the junction record the panel builds (config_gui.py:140-149) is kept, as
  `Signals.JunctionConfig`. Its `t_angle`, `road_type`, `lane_count` and `traffic_light_mode`
  fields are carried but unused, as in the signals code.
- Randomness and wall-clock time are parameters:
  - the spawn-timer jitter is `randomFactor`;
  - `random.choice` is the index `pick`, taken modulo the number of spawn points;
  - the two `random()` draws are `typeDraw` and `speedDraw`;
  - `time.time()` is `now`.
- `Signals.TrafficLight.UpdateTiming`: the source reads the clock twice, once for the test and
  once for the new cycle start. The model reads it once, as `now`.
- Floating point: speeds, coordinates and probabilities are exact reals, so rounding in sums
  and divisions is not modelled. `sqrt`/`hypot` comparisons are replaced by comparisons of
  squared distances. The km/h-to-pixel scale is the exact rational 1/3.6/60·100.
- `_attempt_lane_change` is an empty stub. The lane-change draw in `_apply_traffic_behavior`
  therefore has no effect and is not a parameter.
- `VehicleSpawn.VehicleSpawnConfig.SetCustomSpawnProbabilities`: the source rescales the
  caller's dictionary in place. The model returns the rescaled map instead. Keys are vehicle
  types, so the membership test against the table is always true.
- `Vehicles.RemoveFirst`: when no element equals the value, Python's `list.remove` raises
  `ValueError` (vehicle_spawnconfig.py:226). The model returns the list unchanged instead.
  `update_vehicles` never reaches that case, because every collected vehicle is still present
  when it is removed (`Vehicles.RemoveFirstGone`, `Vehicles.RemoveEachGoneIsKept`).
- `VehicleSpawn.VehicleSpawnConfig.RemoveEachOf`: for the same reason, a vehicle no longer in
  the list is skipped instead of raising `ValueError`. This case never arises from
  `UpdateVehicles`.
- `VehicleSpawn.VehicleSpawnConfig.GetTrafficStats`: the statistics are keyed by the type and
  density enumeration members instead of their string values.
- Vehicles are values, and the `properties` field is looked up by type. Aliasing of vehicle
  objects held outside the manager's list is not modelled. The shared table entries' other
  columns never change, and the spawn-probability column is the `spawnProbability` map.
- The light-state dictionary's insertion order is not modelled; nothing iterates it (drawing iterates the approaches and looks their states up).
- Default arguments (screen 1200×800, intersection size 100, cut-off 200) are not applied;
  callers pass every argument.
