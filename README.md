# Rover perception and decision core in Dafny

This project models the two components that share the rover's state record in
the RoboND rover controller. It also proves properties of that model.

- **The navigation decision engine** (`code/decision.py`) is a state machine over
  thirteen modes: `start`, `travel`, `break_loop`, `turn_away_on_travel`,
  `turn_away_on_return`, `unstuck_on_travel`, `unstuck_on_return`,
  `unstuck_on_pickup`, `approach_sample`, `pickup_sample`, `return_home`, `stop`
  and `idle`. Each tick runs one handler, chosen by the mode. The handler
  overwrites the actuator fields and may change the mode.
- **The perception step** (`code/perception.py`) works on the warped camera frame:
  - thresholds it into obstacle, rock and navigable masks;
  - projects their pixels onto the world map;
  - paints the map when the rover sits level;
  - refreshes the wall distances and the rock summary that the decision engine reads.

## Layout

| file | module | contents |
|---|---|---|
| `types.dfy` | `Types` | `Option`, `Point`, the `Mode` datatype, `Abs`, numpy's `clip`, Python's float `%` |
| `counters.dfy` | `Counters` | The three counter machines as pure step functions, with lemmas over runs of many calls. The machines are the stuck window (`is_stuck`), the identical-steer streak (`is_circling`) and the spin-back countdown (`spin_back`). |
| `decision_spec.dfy` | `DecisionSpec` | Every helper and handler as a function from the old control fields to the new ones, with the properties each keeps |
| `rover_state.dfy` | `RoverState` | The `Rover` class: the shared record, with the world map as an `array3<int>` |
| `decision.dfy` | `Decision` | The helpers and handlers as methods that update a `Rover` in place. Each is proved to do exactly what its `DecisionSpec` function says. |
| `vision.dfy` | `Vision` | The array expressions of the perception step as pure functions |
| `perception.dfy` | `Perception` | The perception tick as a method on the `Rover` and its world map, with the in-place map accumulation |
| `scenarios.dfy` | `Scenarios` | Several consecutive decision ticks: the first tick, arriving home, a sample pickup, and the samples-collected exit |

How the state is split:
- The decision engine's state is split in two. `DecisionSpec.Control` holds the fields the engine writes. `DecisionSpec.Inputs` holds the fields it only reads.
- `Rover.Ctl()` and `Rover.Ins()` are the two snapshots of the class.
- Each `Decision` method ensures `rover.Ctl() == DecisionSpec.F(old(rover.Ctl()), old(rover.Ins()), ...)`. Its `modifies` clause names exactly the fields the Python function assigns.

Some Python functions do two things: they assign fields and return a boolean. These are `brake_until_stop`, `is_stuck`, `spin_back` and the like. Their `DecisionSpec` functions return a pair: the new fields and the answer.

Behaviours of the code worth knowing:
- **Stability gate.** The perception step returns early when pitch *or* roll is out of band (`code/perception.py:157-158`). It returns before painting the map and before recomputing the wall distances and the rock summary. Those summaries keep their old values on such a tick.
- **First tick in `start`.** The first tick in `start` with the front clear stays in `start`: `is_stuck` only arms its window on that call. `Scenarios.FirstTickStaysInStart` states this.
- **Circling count.** `is_circling` ignores a zero steer without resetting its streak (`code/decision.py:252-253`). From a fresh tracker, a held steer reports circling first on the 502nd call (`Counters.FirstCircling`).
- **Stuck window.** `is_stuck` runs a countdown of 200 silent calls, then gives the verdict, whichever displacement threshold it is given (`code/decision.py:219-236`).
- **Mode `idle`.** `idle` matches no dispatch branch and is left unchanged (`code/decision.py:412-428`).
- **Turning toward home.** The bearing to home is reduced into [0, 360) before it is used (`code/decision.py:105`), so the steer toward home is 0 or lies in [5, 15]: the rover always turns left toward home (`DecisionSpec.SteerTowardStartingPoint`).

## Model

| member | source | states |
|---|---|---|
| Types.Clip | code/decision.py:56 | numpy's clip: the result lies in [lo, hi], equals the input inside the range and the violated bound outside it |
| Types.Abs | code/decision.py:106 | Python's `abs`: non-negative and equal to the input or its negation |
| Types.FloorMod | code/decision.py:105 | Python's float `% m` for positive `m`: the result lies in [0, m) and is the input when the input already lies there |
| Types.FloorModPeriodic | code/decision.py:105 | the float `%` is periodic: shifting by whole multiples of the modulus leaves the result unchanged |
| Counters.StuckCheck | code/decision.py:219-236 | one `is_stuck` call. An unmarked window is armed at the current position with 200 ticks, and the arming call counts as the first. While the counter is positive it decrements and reports not stuck. A spent counter clears the mark and reports stuck iff both axis displacements are below `dist`. |
| Counters.WindowCloses | code/decision.py:219-236 | a window marked with `k` ticks left reports not stuck for `k` calls. The next call compares that position with the mark and closes the window. |
| Counters.FreshWindow | code/decision.py:219-236 | a fresh window spans 201 calls: 200 silent calls, then the verdict against the position where the window was opened |
| Counters.CirclingCheck | code/decision.py:251-269 | one `is_circling` call. Zero steer changes nothing and reports false. Otherwise the steer is remembered, and the streak grows on a repeat and restarts at 0 on a change. Circling is reported iff the streak passes 500, and reporting resets the streak. |
| Counters.StreakCompletes | code/decision.py:251-269 | with `steer` remembered at streak `k`, the next 500 − k calls are quiet and the one after reports circling and resets the streak |
| Counters.FirstCircling | code/decision.py:251-269 | from a tracker that does not remember the steer, holding it reports circling first on the 502nd call |
| Counters.SpinBackStep | code/decision.py:199-217 | one `spin_back` call. The brake is always released. An idle countdown arms with the drawn throttle, steer and duration and never ends on that call. A running countdown ticks down by one. The call returns true iff the countdown then reads 0, and then throttle and steer are 0. A negative countdown changes nothing but the brake. A steer within [−15, 15] stays there, and the throttle is kept or lies in [−0.4, 0]. |
| Counters.CountdownEnds | code/decision.py:207-217 | a countdown at `k > 0` ends exactly on the `k`-th call, with throttle, steer and brake at 0 |
| Counters.ManeuverLength | code/decision.py:199-217 | a manoeuvre armed from an idle countdown ends exactly on call number `duration`, counting the arming call |
| DecisionSpec.MaintainHighSpeed | code/decision.py:49-53 | brake released; throttle is the setting, or 0 above the maximum speed; nothing else changes |
| DecisionSpec.MaintainModerateSpeed | code/decision.py:43-47 | brake released; throttle is half the setting, or 0 above half the maximum speed; nothing else changes |
| DecisionSpec.MaintainSlowSpeed | code/decision.py:343-348 | above a quarter of the maximum speed it cuts throttle and applies the brake; otherwise a quarter throttle with the brake released |
| DecisionSpec.SteerLeft | code/decision.py:55-56 | steer ends in [−15, 15]. It is exactly 15 more when that stays in range, saturates at 15 from any non-negative steer, and never turns further right. Nothing else changes. |
| DecisionSpec.SteerRight | code/decision.py:358-359 | the mirror image of SteerLeft: steer ends in [−15, 15], 15 less when that stays in range, saturating at −15 |
| DecisionSpec.CrawlToLeftWall | code/decision.py:81-88 | only the steer changes, and it ends in [−15, 15]. From an in-range steer: near the left wall (below 20) the steer becomes non-positive, and too far from it (above 35) non-negative. In between the steer is 5. |
| DecisionSpec.SteerTowardStartingPoint | code/decision.py:100-111 | the bearing to home is reduced into [0, 360). The call reports aligned, with steer 0, iff the bearing is below 5. Otherwise the steer lies in [5, 15], so the rover always turns left toward home. A bearing within [5, 15] is used as the steer. |
| DecisionSpec.Bearing | code/decision.py:105 | the direction of home relative to the heading, in degrees, lies in [0, 360), and is the plain difference when that already lies there |
| DecisionSpec.SteerTowardSample | code/decision.py:350-356 | only the steer changes, and it ends in [−15, 15]. It reports the sample lost iff no rock is in view. With a rock in view at an angle within [−15, 15], that angle is the steer. |
| DecisionSpec.BrakeUntilStop | code/decision.py:282-290 | the live definition: throttle and steer are 0. It reports true iff the velocity is 0, in which case the brake is 0; otherwise the brake is the brake setting. |
| DecisionSpec.StandStill | code/decision.py:193-196 | throttle, steer and brake are 0 and nothing else changes; the result meets the steer bounds and, for any sane settings, the actuator bounds |
| DecisionSpec.SteerUntilClear | code/decision.py:292-300 | it reports clear iff the front distance exceeds 30. Clear releases brake, steer and throttle. Otherwise the brake is released and the steer is −30, with the throttle kept. |
| DecisionSpec.TurnAwayUntilClear | code/decision.py:274-279 | it reports true iff the rover stands still and the front is clear, with every actuator then at 0. While moving it holds the brake setting with throttle and steer at 0. Standing still with the front blocked it turns hard right (steer −30) with the brake released and the throttle at 0. Nothing else changes. |
| DecisionSpec.LookForSample | code/decision.py:336-341 | with a rock in view nothing changes and it reports true; otherwise it steers left and reports false |
| DecisionSpec.Pickup | code/decision.py:385-393 | it reports done iff no pickup is under way and no sample is near. It sets `send_pickup` exactly when idle next to a sample. Nothing else changes. |
| DecisionSpec.IsStuck | code/decision.py:219-236 | only the stuck window changes. The answer is stuck iff a marked window is spent and the rover lies within `dist` of the mark on both axes, and then the mark is cleared. An unmarked window is armed at the current position with 199 ticks left. |
| DecisionSpec.IsCircling | code/decision.py:251-269 | only the steer tracker changes. The answer is circling iff the steer is non-zero, repeats the remembered one and the streak passes 500, and then the streak restarts at 0. |
| DecisionSpec.SpinBack | code/decision.py:199-217 | `spin_back` on the control fields, with the contract of `Counters.SpinBackStep` |
| DecisionSpec.InitializeState | code/decision.py:9-19 | in `start` the starting position is written only when it is absent, and a near front wall moves on to `travel`. With the front clear it moves on iff the stuck check fires. Staying in `start` it drives at the high-speed throttle (0 above the maximum velocity) with the brake released. In any other mode nothing changes. The handler keeps the mode-transition table and the actuator bounds. |
| DecisionSpec.Travelling | code/decision.py:149-175 | the mode becomes `unstuck_on_travel` iff the stuck check fires. When it does not, the mode becomes `break_loop` iff the circling check fires. The tick keeps the transition table, the steer bounds and the actuator bounds, and never touches the starting position. |
| DecisionSpec.Exploring | code/decision.py:154-175 | with six samples collected, the only change is the mode `return_home`. The mode becomes `turn_away_on_travel` iff, with samples left to find, a wall is near ahead, the right wall is too close and the rover stands still. It becomes `approach_sample` iff, with samples left and the front clear, a sample is nearby and the rover stands still, and then the sample's position becomes the target. Otherwise it stays `travel`. The stuck window and the steer tracker are untouched; the commands are those of SkirtFrontWall and Roam. |
| DecisionSpec.SkirtFrontWall | code/decision.py:155-161 | a wall near ahead. With the right wall not too close: moderate-speed throttle, brake released, and the steer turned right by SteerRight (non-positive from an in-range steer). With the right wall too close: throttle and steer 0, and the mode becomes `turn_away_on_travel` iff the rover stands still. |
| DecisionSpec.Roam | code/decision.py:162-175 | open ground. A nearby sample cuts throttle and steer, and the mode becomes `approach_sample` with the rock as target iff the rover stands still. A sample in sight but not nearby gives moderate-speed throttle and the left-wall crawl steer. No sample in sight gives high-speed throttle and the crawl steer. The brake is released in the two crawl cases. |
| DecisionSpec.BreakingLoop | code/decision.py:176-184 | in `break_loop` the steer is 0, and the mode goes back to `travel` iff the stuck check fires or a wall is near ahead. Staying in `break_loop` it drives at the high-speed throttle (0 above the maximum velocity) with the brake released. |
| DecisionSpec.TravelState | code/decision.py:148-187 | it dispatches `travel` and `break_loop` and leaves every other mode unchanged |
| DecisionSpec.Unstuck | code/decision.py:311-327 | the mode becomes `break_loop` iff the circling check fires, so circling wins over the countdown, and then only the mode and the tracker change. Otherwise the mode becomes the mode to resume iff `spin_back` reports its countdown done, and stays otherwise. Steer, throttle and brake are the old value, 0 or the drawn value. Only the mode, the actuators, the tracker and the countdown change. |
| DecisionSpec.TurnAway | code/decision.py:303-309 | a turn-away mode resumes its mode iff the rover stands still with the front clear |
| DecisionSpec.AvoidState | code/decision.py:302-329 | the five recovery modes keep the transition table and the actuator bounds; every other mode is left unchanged |
| DecisionSpec.GetInPickupZone | code/decision.py:368-383 | it reports true iff the rover stands still next to a sample. The mode becomes `unstuck_on_pickup` iff no sample is near and the stuck check at 0.01 fires; otherwise it stays. Next to a sample throttle and steer are 0, and the brake is the brake setting while moving and 0 at rest. When stuck only the mode and the window change. Otherwise it steers at the rock angle clipped to [−15, 15], or straight with no rock in view, at slow speed in the pickup zone and at moderate speed outside it. A steer within [−15, 15] stays there, and the actuator bounds are kept. |
| DecisionSpec.PickupState | code/decision.py:395-408 | `pickup_sample` returns to `travel` iff no pickup is under way and no sample is near. `approach_sample` moves to `pickup_sample` iff a sample is in sight and near and the rover stands still. With the sample lost from view it stays in `approach_sample`: while moving it brakes at the brake setting with throttle and steer 0; at rest it turns with steer 15, brake and throttle 0. Any mode other than the two pickup modes is left unchanged. |
| DecisionSpec.ReturningHome | code/decision.py:117-137 | the mode becomes `unstuck_on_return` iff the stuck check fires, and `stop` iff the rover is within distance 5 of the starting position and the stuck check does not fire |
| DecisionSpec.AimHome | code/decision.py:123-133 | brake released. The throttle is 0, the full setting or half of it. The steer is in [−15, 15] and never left of centre near the left wall. With no side wall near, the steer is the homing steer. Near the left wall it is the homing steer minus 15. Near the right wall only, it is 15. Throttle is the moderate speed's when a wall is near ahead and the high speed's otherwise. |
| DecisionSpec.HeadHome | code/decision.py:123-137 | the driving part of `return_home`. The mode becomes `turn_away_on_return` iff the front wall is too close and the rover stands still; otherwise it stays. A wall that close overrides the aim: throttle and steer are 0, and the brake is the brake setting while moving and 0 at rest. Otherwise the tick is exactly `AimHome`. The tick keeps the transition table and the actuator bounds and leaves the stuck window alone. |
| DecisionSpec.Stopping | code/decision.py:139-142 | `stop` becomes `idle` iff the velocity is 0, and then every actuator is 0. While moving it brakes at the brake setting with throttle and steer 0 and stays in `stop`. |
| DecisionSpec.FinalizeState | code/decision.py:116-144 | it dispatches `return_home` and `stop` and leaves every other mode unchanged |
| DecisionSpec.DecisionStep | code/decision.py:412-428 | One tick keeps four properties: the mode changes only along the transition table, steer stays in [−15, 15] outside the turn-away modes (where −30 is allowed), throttle stays in [−0.4, throttle setting], and the brake is 0 or the brake setting. The starting position is written once, on the first tick in `start`, and kept from then on. `idle` changes nothing. |
| RoverState.Rover.constructor | code/decision.py:9-12 | stands in for the creation of the record in drive_rover.py, which is not part of this model: a new rover is in `start` with no starting position, which is the state `initialize_state` expects; every counter is at rest and the map is an all-zero square with three channels |
| Decision.MaintainModerateSpeed | code/decision.py:43-47 | updates the rover in place exactly as DecisionSpec.MaintainModerateSpeed |
| Decision.MaintainHighSpeed | code/decision.py:49-53 | updates the rover in place exactly as DecisionSpec.MaintainHighSpeed |
| Decision.MaintainSlowSpeed | code/decision.py:343-348 | updates the rover in place exactly as DecisionSpec.MaintainSlowSpeed |
| Decision.SteerLeft | code/decision.py:55-56 | updates the rover in place exactly as DecisionSpec.SteerLeft |
| Decision.SteerRight | code/decision.py:358-359 | updates the rover in place exactly as DecisionSpec.SteerRight |
| Decision.CrawlToLeftWall | code/decision.py:81-88 | updates the rover in place exactly as DecisionSpec.CrawlToLeftWall |
| Decision.SteerTowardStartingPoint | code/decision.py:100-111 | updates the rover and answers exactly as DecisionSpec.SteerTowardStartingPoint |
| Decision.SteerTowardSample | code/decision.py:350-356 | updates the rover and answers exactly as DecisionSpec.SteerTowardSample |
| Decision.BrakeUntilStop | code/decision.py:282-290 | updates the rover and answers exactly as DecisionSpec.BrakeUntilStop |
| Decision.StandStill | code/decision.py:193-196 | throttle, steer and brake become 0 and nothing else changes |
| Decision.SteerUntilClear | code/decision.py:292-300 | updates the rover and answers exactly as DecisionSpec.SteerUntilClear |
| Decision.TurnAwayUntilClear | code/decision.py:274-279 | updates the rover and answers exactly as DecisionSpec.TurnAwayUntilClear |
| Decision.LookForSample | code/decision.py:336-341 | updates the rover and answers exactly as DecisionSpec.LookForSample |
| Decision.Pickup | code/decision.py:385-393 | updates the rover and answers exactly as DecisionSpec.Pickup |
| Decision.IsStuck | code/decision.py:219-236 | updates the stuck window and answers exactly as Counters.StuckCheck |
| Decision.IsCircling | code/decision.py:251-269 | updates the steer tracker and answers exactly as Counters.CirclingCheck |
| Decision.SpinBack | code/decision.py:199-217 | updates the rover and answers exactly as DecisionSpec.SpinBack |
| Decision.InitializeState | code/decision.py:9-19 | updates the rover in place exactly as DecisionSpec.InitializeState |
| Decision.Travelling | code/decision.py:149-175 | updates the rover in place exactly as DecisionSpec.Travelling |
| Decision.Exploring | code/decision.py:154-175 | updates the rover in place exactly as DecisionSpec.Exploring |
| Decision.BreakingLoop | code/decision.py:176-184 | updates the rover in place exactly as DecisionSpec.BreakingLoop |
| Decision.TravelState | code/decision.py:148-187 | updates the rover in place exactly as DecisionSpec.TravelState |
| Decision.AvoidState | code/decision.py:302-329 | updates the rover in place exactly as DecisionSpec.AvoidState |
| Decision.GetInPickupZone | code/decision.py:368-383 | updates the rover and answers exactly as DecisionSpec.GetInPickupZone |
| Decision.PickupState | code/decision.py:395-408 | updates the rover in place exactly as DecisionSpec.PickupState |
| Decision.ReturningHome | code/decision.py:117-137 | updates the rover in place exactly as DecisionSpec.ReturningHome |
| Decision.AimHome | code/decision.py:123-133 | updates the rover in place exactly as DecisionSpec.AimHome |
| Decision.HeadHome | code/decision.py:123-137 | updates the rover in place exactly as DecisionSpec.HeadHome |
| Decision.Stopping | code/decision.py:139-142 | updates the rover in place exactly as DecisionSpec.Stopping |
| Decision.FinalizeState | code/decision.py:116-144 | updates the rover in place exactly as DecisionSpec.FinalizeState |
| Decision.DecisionStep | code/decision.py:412-428 | updates the rover in place exactly as DecisionSpec.DecisionStep, and so keeps every property proved of it |
| Scenarios.FirstTickStaysInStart | code/decision.py:9-19 | on the first tick with the front clear the rover stays in `start`: it arms the stuck window, records the starting position and drives at full throttle |
| Scenarios.ComingToRestAtHome | code/decision.py:116-144 | near home and not stuck, one tick gives `stop`. Once stood still the next tick gives `idle` with every actuator at 0, and later ticks change nothing. |
| Scenarios.PickupCycle | code/decision.py:395-408 | stopped in the pickup zone gives `pickup_sample`. Next to the sample a pickup is requested. Once the pickup is over and the sample is gone, the rover returns to `travel`. |
| Scenarios.ApproachClampsSteer | code/decision.py:368-383 | a sample more than 15 degrees to the right clamps the steer to −15 and keeps `approach_sample` |
| Scenarios.DoneCollectingHeadsHome | code/decision.py:148-155 | exploring with six samples, neither stuck nor circling, the only changes are `return_home` and the stuck countdown ticking down |
| Vision.ColorThresh | code/perception.py:5-33 | the mask has the image's shape with entries in {0, 1}. With a low bound only, a pixel is 1 iff every channel is at least the bound. With both bounds, iff every channel lies within them. With a high bound only, iff every channel is at most the bound. With neither, the mask is all 0. |
| Vision.TerrainMasksOverlapOnlyAtRed118 | code/perception.py:127-129 | a pixel can be both navigable and obstacle only when its red channel is exactly 118 |
| Vision.RowNonzero | code/perception.py:38 | the non-zero entries of one row, left to right, each exactly once |
| Vision.Nonzero | code/perception.py:38 | numpy's `nonzero`: a pixel is listed iff it lies in the mask and is non-zero, in row-major order |
| Vision.NonzeroDistinct | code/perception.py:38 | no pixel is listed twice |
| Vision.RoverPoint | code/perception.py:41-42 | the forward coordinate is the row count minus the row, between 1 and the row count; the lateral coordinate is the row count minus the column |
| Vision.RoverCoords | code/perception.py:36-43 | one rover-centric point per non-zero pixel, each with a forward coordinate in [1, row count] |
| Vision.RoverCoordsExact | code/perception.py:36-43 | every point names back a non-zero pixel that maps to it, and every non-zero pixel's point is present |
| Vision.PixelRoundTrip | code/perception.py:41-42 | the pixel of a row within the mask is recovered from its rover-centric point |
| Vision.TranslatePix | code/perception.py:66-71 | scaling back up and removing the rover position gives the input point |
| Vision.Trunc | code/perception.py:81-82 | numpy's float-to-int cast truncates toward zero |
| Vision.ClipIndex | code/perception.py:81-82 | the index lands in [0, size − 1]; an index already there is kept; below goes to 0, above to size − 1 |
| Vision.PixToWorld | code/perception.py:75-84 | the cell lies on a `worldSize` by `worldSize` map |
| Vision.PixToWorldCell | code/perception.py:75-84 | a point landing on the map goes to the cell containing it; a point at least one cell beyond an edge goes to that edge |
| Vision.ObjectDistance | code/perception.py:94-100 | with no angle within three degrees of the target, the result is 9999. Otherwise it is the distance of some in-sector point and no larger than any in-sector distance. |
| Vision.MinOf | code/perception.py:99 | the minimum is an element and no larger than any element |
| Vision.SectorDists | code/perception.py:94-96 | the distances whose angle lies within three degrees of the target direction (both ends included), and no others |
| Vision.Mean | code/perception.py:187-189 | numpy's mean: the mean times the number of entries is their sum |
| Vision.SumBounds | code/perception.py:187-189 | a sum of entries that lie in [lo, hi] lies between the count times lo and the count times hi |
| Vision.MeanBounds | code/perception.py:187-189 | a mean lies between any lower and upper bound of its entries |
| Vision.Degrees | code/perception.py:188 | one angle per entry, converted from radians to degrees |
| Vision.SummarizeRock | code/perception.py:185-193 | the size is the number of rock points. The position is absent iff the size is 0, and then distance and angle are 0. Otherwise the distance is the mean distance, the angle the mean of the angles in degrees, and the position the mean column and mean row of the world cells. |
| Vision.RockSummaryBounds | code/perception.py:185-189 | with rocks in view, the mean distance lies between the nearest and the farthest rock point, the mean angle between the smallest and the largest angle in degrees, and the mean position lies on the map |
| Perception.WorldCells | code/perception.py:147-152 | one cell per point, each on the map |
| Perception.Footprint | code/perception.py:137-152 | one cell per non-zero pixel of the mask, each on the map |
| Perception.Dists | code/perception.py:176 | one distance per point: the distance of its polar form |
| Perception.Angles | code/perception.py:176 | one angle per point: the angle of its polar form |
| Perception.WallDistance | code/perception.py:176-180 | the `object_distance` contract restated over the obstacle pixels' polar forms |
| Perception.RockView | code/perception.py:183-193 | the size is the number of rock pixels. The position is absent iff there are none, and then distance and angle are 0. Otherwise distance, angle in degrees and position are the means over the rock pixels' polar forms and world cells. |
| Perception.RockViewOnMap | code/perception.py:183-193 | with rock pixels in view, the rock position lies on the map |
| Perception.LayerDelta | code/perception.py:161-171 | a layer adds 5 to its own channel and takes 2 from each other channel |
| Perception.MapDelta | code/perception.py:161-171 | a cell outside every footprint does not change; any channel changes by between −4 and 5 in one step |
| Perception.MapDeltaTotal | code/perception.py:161-171 | summed over the three channels, a cell grows by the number of layers whose footprint contains it |
| Perception.SoleLayerWins | code/perception.py:161-171 | a cell reached by one layer only gains 5 on that layer's channel and loses 2 on the other two |
| Perception.Accumulate | code/perception.py:161 | an in-place add through index arrays: each listed cell changes once on the given channel, however often it is listed, and nothing else changes |
| Perception.Paint | code/perception.py:161-163 | one layer's three statements: every cell of the footprint changes by the layer's delta on each channel |
| Perception.PaintMap | code/perception.py:161-171 | every cell changes by the sum of the deltas of the layers whose footprints contain it; cells outside every footprint are unchanged |
| Perception.Sense | code/perception.py:176-193 | with no obstacle pixel within three degrees of straight ahead, of 35 degrees left or of 35 degrees right, that wall distance is 9999; the rock size is the number of rock pixels, and the rock position is absent iff it is 0 |
| Perception.Observe | code/perception.py:127-193 | every footprint cell lies on the map; without rock pixels the rock distance and angle are 0 |
| Perception.PerceptionStep | code/perception.py:106-195 | when pitch or roll is out of band, neither the rover nor its map changes. Otherwise the map changes exactly as PaintMap over the three footprints, and the wall distances and the rock summary are those of the frame. |
| Perception.Record | code/perception.py:161-193 | paints the footprints and writes the summaries of a view |
| Perception.Report | code/perception.py:178-193 | the three wall distances and the rock size are written; the rock fields are written when rocks are in view and zeroed or cleared otherwise |

## Left out

- The camera-frame pipeline before thresholding is not modelled (`code/perception.py:87-90, 111-124`): Gaussian blur, perspective transform and warp are floating-point image operations of OpenCV. The warped frame is an input to `Perception.PerceptionStep`.
- The rotation by yaw (`rotate_pix`) and the polar conversion (`to_polar_coords`) are sin, cos, sqrt and arctan2. They are function parameters of the perception step. Nothing is assumed about them.
- The world direction from the rover to its starting point (`np.arctan2` at `code/decision.py:105`) is a parameter, `homeAngle`. The subtraction of the yaw and the `% 360` are modelled.
- `distance.euclidean(...) < 5` (`code/decision.py:114`) is modelled as squared distance below 25, which is the same test over the reals.
- The random draws of `spin_back` (`code/decision.py:203-205`) are a `SpinChoice` parameter, constrained to values from the lists drawn from. The random generator itself is not modelled.
- Floating-point rounding is not modelled: every real-valued field is a Dafny `real`.
- The world map is stored as floats in the source. The model uses `int`, because every update adds the integers 5 or −2 to a map that starts at 0.
- `vision_image` (`code/perception.py:132-134`) is a display overlay that nothing reads. It is not modelled.
- The first definition of `brake_until_stop` (`code/decision.py:30-37`) is overridden by the second and never runs. It is not modelled.
- The commented-out velocity-based stuck check (`code/decision.py:239-249`) is not modelled.
- `save_starting_position` and `steer_left_lightly` are never called. They are not modelled.
- The `is_*_state` dispatch predicates are predicates without contracts of their own. The same holds for the wall and sample predicates.
- drive_rover.py, which creates the rover record and runs the simulator loop, is not part of this model. `RoverState.Rover.constructor` stands in for its initial values. The pose and velocity the simulator writes between ticks are inputs.
- Decision.StandStill: its contract only lists its three assignments. Its use is inside `Stopping` and `TurnAwayUntilClear`, whose contracts carry the meaning.
- DecisionSpec.DecisionStep and Decision.DecisionStep: require that the starting position has been captured once the rover has left `start`. In the source, `return_home` with no starting position would fail at its first use of it, the distance taken by `is_near_starting_position` (`code/decision.py:114`, called at line 120). Every run from `start` meets this requirement (`DecisionSpec.DecisionStep` ensures `StartCaptured` is kept).
- Vision.TranslatePix: requires a non-zero scale. The source only ever passes 10.
- Vision.RoverPoint: the lateral offset uses the row count, as the source does (`binary_img.shape[0]`). For the 160 by 320 camera frame this is half the width.
- The `travel`, `return_home` and `stop` branches are separate members on both the function and the method side. These are `Travelling`/`Exploring`/`BreakingLoop` and `ReturningHome`/`AimHome`/`HeadHome`/`Stopping`. On the function side only, `Exploring` is further split into `SkirtFrontWall` and `Roam`, and `AvoidState` into `TurnAway` and `Unstuck`. The handlers dispatch to them in the source's order, so each proof stays small; no behaviour changes.
