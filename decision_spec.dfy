/**
 * The decision engine as value transformers. `Control` holds every rover field
 * the engine writes, `Inputs` every field it only reads. Each helper and
 * handler of the engine is a function from the old `Control` (and the inputs)
 * to the new one; helpers that also answer a question return that answer
 * beside it. The methods of module `Decision` are proved to update a `Rover`
 * exactly as these functions say, and the properties of the engine are stated
 * and proved here. Every operation thus appears twice by design: here as the
 * function that specifies it, there as the method that runs.
 */
module DecisionSpec {
  import opened Types
  import opened Counters

  /** Fields the decision engine writes. */
  datatype Control = Control(
    mode: Mode,
    throttle: real,
    steer: real,
    brake: real,
    sendPickup: bool,
    startingPos: Option<Point>,
    targetRockPos: Option<Point>,
    window: StuckWindow,     // marked_pos, unmoveable_counter
    tracker: SteerTracker,   // previous_steer, continuous_steer_counter
    spinBackCounter: int)

  /** Fields the decision engine only reads: pose and velocity from the
      simulator, summaries from perception, mission flags, fixed settings. */
  datatype Inputs = Inputs(
    pos: Point,
    yaw: real,
    pitch: real,
    roll: real,
    vel: real,
    frontWall: real,
    leftWall: real,
    rightWall: real,
    rockSize: nat,
    rockDist: real,
    rockAngle: real,
    rockPos: Option<Point>,
    samplesFound: int,
    pickingUp: bool,
    nearSample: bool,
    throttleSet: real,
    brakeSet: real,
    maxVel: real)

  /** Number of collected samples after which the rover heads home. */
  const SamplesToCollect: int := 6

  // ---------------------------------------------------------------------------
  // Questions about the surroundings

  predicate NearFrontWall(front: real) { front < 25.0 }
  predicate TooCloseToFrontWall(front: real) { front < 10.0 }
  predicate NearLeftWall(left: real) { left < 20.0 }
  predicate TooFarFromLeftWall(left: real) { left > 35.0 }
  predicate NearRightWall(right: real) { right < 20.0 }
  predicate TooCloseToRightWall(right: real) { right < 10.0 }
  predicate SampleInSight(rockSize: int) { rockSize > 0 }
  predicate SampleNearby(rockSize: int, rockAngle: real, rockDist: real) {
    rockSize > 0 && rockAngle > -15.0 && rockDist < 40.0
  }
  predicate NearPickupZone(rockSize: int, rockAngle: real, rockDist: real) {
    rockSize > 0 && rockAngle > -15.0 && rockDist < 15.0
  }
  predicate FinishedCollecting(samplesFound: int) { samplesFound >= SamplesToCollect }

  /** Euclidean distance below 5, compared as squared distance below 25. */
  predicate NearStartingPosition(pos: Point, start: Point) {
    (pos.x - start.x) * (pos.x - start.x) + (pos.y - start.y) * (pos.y - start.y) < 25.0
  }

  // ---------------------------------------------------------------------------
  // Actuator helpers

  function MaintainHighSpeed(c: Control, i: Inputs): (r: Control)
    ensures r == c.(throttle := r.throttle, brake := 0.0)
    ensures r.throttle == if i.vel > i.maxVel then 0.0 else i.throttleSet
  {
    var full := c.(brake := 0.0, throttle := i.throttleSet);
    if i.vel > i.maxVel then full.(throttle := 0.0) else full
  }

  function MaintainModerateSpeed(c: Control, i: Inputs): (r: Control)
    ensures r == c.(throttle := r.throttle, brake := 0.0)
    ensures r.throttle == if i.vel > i.maxVel / 2.0 then 0.0 else i.throttleSet / 2.0
  {
    var half := c.(brake := 0.0, throttle := i.throttleSet / 2.0);
    if i.vel > i.maxVel / 2.0 then half.(throttle := 0.0) else half
  }

  /** The slow profile also brakes actively above its speed cut-off. */
  function MaintainSlowSpeed(c: Control, i: Inputs): (r: Control)
    ensures r == c.(throttle := r.throttle, brake := r.brake)
    ensures i.vel > i.maxVel / 4.0 ==> r.throttle == 0.0 && r.brake == i.brakeSet
    ensures i.vel <= i.maxVel / 4.0 ==> r.throttle == i.throttleSet / 4.0 && r.brake == 0.0
  {
    var quarter := c.(brake := 0.0, throttle := i.throttleSet / 4.0);
    if i.vel > i.maxVel / 4.0 then quarter.(throttle := 0.0, brake := i.brakeSet) else quarter
  }

  function SteerLeft(c: Control): (r: Control)
    ensures r == c.(steer := r.steer)
    ensures -15.0 <= r.steer <= 15.0
    ensures -30.0 <= c.steer <= 0.0 ==> r.steer == c.steer + 15.0
    ensures c.steer >= 0.0 ==> r.steer == 15.0
    ensures c.steer <= 15.0 ==> r.steer >= c.steer
  {
    c.(steer := Clip(c.steer + 15.0, -15.0, 15.0))
  }

  function SteerRight(c: Control): (r: Control)
    ensures r == c.(steer := r.steer)
    ensures -15.0 <= r.steer <= 15.0
    ensures 0.0 <= c.steer <= 30.0 ==> r.steer == c.steer - 15.0
    ensures c.steer <= 0.0 ==> r.steer == -15.0
    ensures c.steer >= -15.0 ==> r.steer <= c.steer
  {
    c.(steer := Clip(c.steer - 15.0, -15.0, 15.0))
  }

  /** Keep the left wall between 20 and 35 units away. */
  function CrawlToLeftWall(c: Control, i: Inputs): (r: Control)
    ensures r == c.(steer := r.steer)
    ensures -15.0 <= r.steer <= 15.0
    ensures NearLeftWall(i.leftWall) && c.steer <= 15.0 ==> r.steer <= 0.0
    ensures !NearLeftWall(i.leftWall) && TooFarFromLeftWall(i.leftWall) && c.steer >= -15.0 ==> r.steer >= 0.0
    ensures !NearLeftWall(i.leftWall) && !TooFarFromLeftWall(i.leftWall) ==> r.steer == 5.0
  {
    if NearLeftWall(i.leftWall) then SteerRight(c)
    else if TooFarFromLeftWall(i.leftWall) then SteerLeft(c)
    else c.(steer := 5.0)
  }

  /** The direction of the starting point relative to the heading, in degrees,
      reduced into `[0, 360)`. `homeAngle` is the world direction from the rover
      to the starting point. */
  function Bearing(homeAngle: real, yaw: real): (b: real)
    ensures 0.0 <= b < 360.0
    ensures 0.0 <= homeAngle - yaw < 360.0 ==> b == homeAngle - yaw
  {
    FloorMod(homeAngle - yaw, 360.0)
  }

  /** Because the bearing is reduced into `[0, 360)` the rover only ever turns
      left toward home: a starting point a little to the right (bearing near
      360) gets the full left turn. */
  function SteerTowardStartingPoint(c: Control, i: Inputs, homeAngle: real): (r: (Control, bool))
    ensures r.0 == c.(steer := r.0.steer)
    ensures r.1 <==> 0.0 <= Bearing(homeAngle, i.yaw) < 5.0
    ensures r.1 ==> r.0.steer == 0.0
    ensures !r.1 ==> 5.0 <= r.0.steer <= 15.0
    ensures 5.0 <= Bearing(homeAngle, i.yaw) <= 15.0 ==> r.0.steer == Bearing(homeAngle, i.yaw)
  {
    var bearing := Bearing(homeAngle, i.yaw);
    if Abs(bearing) < 5.0 then (c.(steer := 0.0), true)
    else (c.(steer := Clip(bearing, -15.0, 15.0)), false)
  }

  function SteerTowardSample(c: Control, i: Inputs): (r: (Control, bool))
    ensures r.0 == c.(steer := r.0.steer)
    ensures -15.0 <= r.0.steer <= 15.0
    ensures r.1 <==> !SampleInSight(i.rockSize)
    ensures SampleInSight(i.rockSize) && -15.0 <= i.rockAngle <= 15.0 ==> r.0.steer == i.rockAngle
  {
    if i.rockSize > 0 then (c.(steer := Clip(i.rockAngle, -15.0, 15.0)), false)
    else (c.(steer := 0.0), true)
  }

  /** Throttle and steer are cut; the brake is held until the rover stands still. */
  function BrakeUntilStop(c: Control, i: Inputs): (r: (Control, bool))
    ensures r.0 == c.(throttle := 0.0, steer := 0.0, brake := r.0.brake)
    ensures r.1 <==> i.vel == 0.0
    ensures r.0.brake == if r.1 then 0.0 else i.brakeSet
  {
    var braking := c.(brake := i.brakeSet, steer := 0.0, throttle := 0.0);
    if i.vel == 0.0 then (braking.(brake := 0.0), true) else (braking, false)
  }

  /** Every actuator released: the rest state, within every bound a tick keeps. */
  function StandStill(c: Control): (r: Control)
    ensures r == c.(throttle := 0.0, steer := 0.0, brake := 0.0)
    ensures SteerBounded(r)
    ensures forall i :: SaneSettings(i) ==> ActuatorsBounded(r, i)
  {
    c.(throttle := 0.0, steer := 0.0, brake := 0.0)
  }

  /** Hard-turn right (steer -30) with the brake off until the front is clear. */
  function SteerUntilClear(c: Control, i: Inputs): (r: (Control, bool))
    ensures r.1 <==> i.frontWall > 30.0
    ensures r.1 ==> r.0 == c.(brake := 0.0, steer := 0.0, throttle := 0.0)
    ensures !r.1 ==> r.0 == c.(brake := 0.0, steer := -30.0)
  {
    var turning := c.(brake := 0.0, steer := -30.0);
    if i.frontWall > 30.0 then (turning.(steer := 0.0, throttle := 0.0), true)
    else (turning, false)
  }

  function TurnAwayUntilClear(c: Control, i: Inputs): (r: (Control, bool))
    ensures r.0 == c.(throttle := r.0.throttle, steer := r.0.steer, brake := r.0.brake)
    ensures r.1 <==> i.vel == 0.0 && i.frontWall > 30.0
    ensures r.1 ==> r.0.throttle == 0.0 && r.0.steer == 0.0 && r.0.brake == 0.0
    ensures r.0.steer == 0.0 || r.0.steer == -30.0
    ensures r.0.throttle == 0.0
    ensures r.0.brake == 0.0 || r.0.brake == i.brakeSet
    ensures i.vel != 0.0 ==> r.0 == c.(throttle := 0.0, steer := 0.0, brake := i.brakeSet)
    ensures i.vel == 0.0 && i.frontWall <= 30.0 ==> r.0 == c.(throttle := 0.0, steer := -30.0, brake := 0.0)
  {
    var (stopped, still) := BrakeUntilStop(c, i);
    if still then
      var (turned, clear) := SteerUntilClear(stopped, i);
      if clear then (StandStill(turned), true) else (turned, false)
    else (stopped, false)
  }

  function LookForSample(c: Control, i: Inputs): (r: (Control, bool))
    ensures r.1 <==> SampleInSight(i.rockSize)
    ensures r.1 ==> r.0 == c
    ensures !r.1 ==> r.0 == SteerLeft(c)
  {
    if SampleInSight(i.rockSize) then (c, true) else (SteerLeft(c), false)
  }

  /** Ask the simulator to pick up when stopped next to a sample; done once
      neither a pickup is under way nor a sample is near. */
  function Pickup(c: Control, i: Inputs): (r: (Control, bool))
    ensures r.1 <==> !i.pickingUp && !i.nearSample
    ensures r.0 == c.(sendPickup := r.0.sendPickup)
    ensures r.0.sendPickup == (c.sendPickup || (!i.pickingUp && i.nearSample))
  {
    if i.pickingUp then (c, false)
    else if i.nearSample then (c.(sendPickup := true), false)
    else (c, true)
  }

  // ---------------------------------------------------------------------------
  // The counter machines lifted to `Control`

  /** `is_stuck` on the control fields: only the stuck window changes. */
  function IsStuck(c: Control, i: Inputs, dist: real): (r: (Control, bool))
    ensures r.0 == c.(window := r.0.window)
    ensures r.1 <==> c.window.marked.Some? && c.window.counter <= 0 && Still(i.pos, c.window.marked.value, dist)
    ensures r.1 ==> r.0.window.marked.None?
    ensures c.window.marked.None? ==> r.0.window == StuckWindow(Some(i.pos), StuckDwellTicks - 1)
  {
    var (w, stuck) := StuckCheck(c.window, i.pos, dist);
    (c.(window := w), stuck)
  }

  /** `is_circling` on the control fields: only the steer tracker changes. */
  function IsCircling(c: Control): (r: (Control, bool))
    ensures r.0 == c.(tracker := r.0.tracker)
    ensures r.1 <==> c.steer != 0.0 && c.tracker.previous == Some(c.steer) && c.tracker.counter + 1 > CirclingLimit
    ensures r.1 ==> r.0.tracker == SteerTracker(Some(c.steer), 0)
  {
    var (t, circling) := CirclingCheck(c.tracker, c.steer);
    (c.(tracker := t), circling)
  }

  function SpinBack(c: Control, ch: SpinChoice): (r: (Control, bool))
    requires ValidSpinChoice(ch)
    ensures r.0.brake == 0.0
    ensures r.0 == c.(throttle := r.0.throttle, steer := r.0.steer, brake := 0.0, spinBackCounter := r.0.spinBackCounter)
    ensures r.1 <==> r.0.spinBackCounter == 0
    ensures r.1 ==> r.0.throttle == 0.0 && r.0.steer == 0.0
    ensures c.spinBackCounter == 0 ==> !r.1 && r.0.steer == ch.steer && r.0.throttle == ch.throttle
    ensures c.spinBackCounter != 0 && !r.1 ==> r.0.steer == c.steer && r.0.throttle == c.throttle
    ensures -15.0 <= c.steer <= 15.0 ==> -15.0 <= r.0.steer <= 15.0
    ensures r.0.throttle == c.throttle || -0.4 <= r.0.throttle <= 0.0
  {
    var (s, done) := SpinBackStep(Spin(c.throttle, c.steer, c.brake, c.spinBackCounter), ch);
    (c.(throttle := s.throttle, steer := s.steer, brake := s.brake, spinBackCounter := s.counter), done)
  }

  // ---------------------------------------------------------------------------
  // Properties that hold of every tick

  predicate TurningAway(m: Mode) { m == TurnAwayOnTravel || m == TurnAwayOnReturn }

  /** Steer stays in [-15, 15] except in the forced turn-away modes, where the
      hard turn of -30 is allowed. */
  predicate SteerBounded(c: Control) {
    && -30.0 <= c.steer <= 15.0
    && (!TurningAway(c.mode) ==> -15.0 <= c.steer <= 15.0)
  }

  /** Throttle lies between the deepest spin-back reverse and the full setting;
      the brake is either released or at its setting. */
  predicate ActuatorsBounded(c: Control, i: Inputs) {
    && -0.4 <= c.throttle <= i.throttleSet
    && (c.brake == 0.0 || c.brake == i.brakeSet)
  }

  /** The settings that make the actuator bounds meaningful. */
  predicate SaneSettings(i: Inputs) {
    i.throttleSet >= 0.0 && i.brakeSet >= 0.0 && i.maxVel >= 0.0
  }

  /** The mode changes a single tick can make: from `m` to `n`. */
  predicate Transition(m: Mode, n: Mode) {
    match m
    case Start => n == Travel
    case Travel => n == UnstuckOnTravel || n == BreakLoop || n == ReturnHome || n == TurnAwayOnTravel || n == ApproachSample
    case BreakLoop => n == Travel
    case TurnAwayOnTravel => n == Travel
    case TurnAwayOnReturn => n == ReturnHome
    case UnstuckOnTravel => n == BreakLoop || n == Travel
    case UnstuckOnReturn => n == BreakLoop || n == ReturnHome
    case UnstuckOnPickup => n == BreakLoop || n == ApproachSample
    case ApproachSample => n == PickupSample || n == UnstuckOnPickup
    case PickupSample => n == Travel
    case ReturnHome => n == UnstuckOnReturn || n == Stop || n == TurnAwayOnReturn
    case Stop => n == Idle
    case Idle => false
  }

  /** The properties each handler keeps, stated once. */
  predicate HandlerKeeps(c: Control, i: Inputs, r: Control) {
    && (r.mode == c.mode || Transition(c.mode, r.mode))
    && (SteerBounded(c) ==> SteerBounded(r))
    && (ActuatorsBounded(c, i) && SaneSettings(i) ==> ActuatorsBounded(r, i))
  }

  // ---------------------------------------------------------------------------
  // Handlers

  function InitializeState(c: Control, i: Inputs): (r: Control)
    ensures HandlerKeeps(c, i, r)
    ensures c.mode == Start ==>
      r.startingPos == (if c.startingPos.None? then Some(i.pos) else c.startingPos)
    ensures c.mode != Start ==> r == c
    ensures c.mode == Start && NearFrontWall(i.frontWall) ==> r.mode == Travel
    ensures c.mode == Start && !NearFrontWall(i.frontWall) ==>
      (r.mode == Travel <==> StuckCheck(c.window, i.pos, DefaultStuckDistance).1)
    ensures c.mode == Start && !NearFrontWall(i.frontWall) && !StuckCheck(c.window, i.pos, DefaultStuckDistance).1 ==>
      r.mode == Start && r.brake == 0.0 && r.throttle == (if i.vel > i.maxVel then 0.0 else i.throttleSet)
  {
    if c.mode == Start then
      var started := if c.startingPos.None? then c.(startingPos := Some(i.pos)) else c;
      if NearFrontWall(i.frontWall) then started.(mode := Travel)
      else
        var (checked, stuck) := IsStuck(started, i, DefaultStuckDistance);
        if stuck then checked.(mode := Travel) else MaintainHighSpeed(checked, i)
    else c
  }

  /** Mode `travel`: wall-following exploration with its exits. */
  function Travelling(c: Control, i: Inputs): (r: Control)
    requires c.mode == Travel
    ensures HandlerKeeps(c, i, r)
    ensures r.startingPos == c.startingPos
    ensures r.mode == UnstuckOnTravel <==> StuckCheck(c.window, i.pos, DefaultStuckDistance).1
    ensures !StuckCheck(c.window, i.pos, DefaultStuckDistance).1 ==>
      (r.mode == BreakLoop <==> CirclingCheck(c.tracker, c.steer).1)
  {
    var (c1, stuck) := IsStuck(c, i, DefaultStuckDistance);
    if stuck then c1.(mode := UnstuckOnTravel)
    else
      var (c2, circling) := IsCircling(c1);
      if circling then c2.(mode := BreakLoop)
      else Exploring(c2, i)
  }

  /** The rest of a `travel` tick once neither stuck nor circling: head home
      when done, skirt a wall ahead, or roam open ground. */
  function Exploring(c: Control, i: Inputs): (r: Control)
    requires c.mode == Travel
    ensures HandlerKeeps(c, i, r)
    ensures r.startingPos == c.startingPos
    ensures r.tracker == c.tracker && r.window == c.window
    ensures FinishedCollecting(i.samplesFound) ==> r == c.(mode := ReturnHome)
    ensures r.mode == Travel || r.mode == ReturnHome || r.mode == TurnAwayOnTravel || r.mode == ApproachSample
    ensures r.mode == TurnAwayOnTravel <==>
      !FinishedCollecting(i.samplesFound) && NearFrontWall(i.frontWall) && TooCloseToRightWall(i.rightWall) && i.vel == 0.0
    ensures r.mode == ApproachSample <==>
      && !FinishedCollecting(i.samplesFound) && !NearFrontWall(i.frontWall)
      && SampleNearby(i.rockSize, i.rockAngle, i.rockDist) && i.vel == 0.0
    ensures r.mode == ApproachSample ==> r.targetRockPos == i.rockPos
    ensures r.mode == Travel ==> r.targetRockPos == c.targetRockPos
  {
    if FinishedCollecting(i.samplesFound) then c.(mode := ReturnHome)
    else if NearFrontWall(i.frontWall) then SkirtFrontWall(c, i)
    else Roam(c, i)
  }

  /** A wall ahead while exploring: at moderate speed turn right, or, with
      the right wall too close as well, brake to a stop and turn away. */
  function SkirtFrontWall(c: Control, i: Inputs): (r: Control)
    requires c.mode == Travel
    ensures HandlerKeeps(c, i, r)
    ensures r == c.(mode := r.mode, throttle := r.throttle, steer := r.steer, brake := r.brake)
    ensures r.mode == TurnAwayOnTravel <==> TooCloseToRightWall(i.rightWall) && i.vel == 0.0
    ensures r.mode == Travel || r.mode == TurnAwayOnTravel
    ensures !TooCloseToRightWall(i.rightWall) ==>
      && r.brake == 0.0
      && r.throttle == (if i.vel > i.maxVel / 2.0 then 0.0 else i.throttleSet / 2.0)
      && r.steer == SteerRight(c).steer
      && (-15.0 <= c.steer <= 15.0 ==> r.steer <= 0.0)
    ensures TooCloseToRightWall(i.rightWall) ==> r.throttle == 0.0 && r.steer == 0.0
  {
    var c1 := MaintainModerateSpeed(c, i);
    if !TooCloseToRightWall(i.rightWall) then SteerRight(c1)
    else
      var (c2, stopped) := BrakeUntilStop(c1, i);
      if stopped then c2.(mode := TurnAwayOnTravel) else c2
  }

  /** Open ground while exploring: close in on a nearby sample, stopping to
      approach it, or else follow the left wall, at moderate speed with a
      sample in sight and at high speed without one. */
  function Roam(c: Control, i: Inputs): (r: Control)
    requires c.mode == Travel
    ensures HandlerKeeps(c, i, r)
    ensures r == c.(mode := r.mode, throttle := r.throttle, steer := r.steer, brake := r.brake,
                    targetRockPos := r.targetRockPos)
    ensures r.mode == ApproachSample <==> SampleNearby(i.rockSize, i.rockAngle, i.rockDist) && i.vel == 0.0
    ensures r.mode == Travel || r.mode == ApproachSample
    ensures r.mode == ApproachSample ==> r.targetRockPos == i.rockPos
    ensures r.mode == Travel ==> r.targetRockPos == c.targetRockPos
    ensures SampleNearby(i.rockSize, i.rockAngle, i.rockDist) ==> r.throttle == 0.0 && r.steer == 0.0
    ensures SampleInSight(i.rockSize) && !SampleNearby(i.rockSize, i.rockAngle, i.rockDist) ==>
      && r.brake == 0.0
      && r.throttle == (if i.vel > i.maxVel / 2.0 then 0.0 else i.throttleSet / 2.0)
      && r.steer == CrawlToLeftWall(c, i).steer
    ensures !SampleInSight(i.rockSize) ==>
      && r.brake == 0.0
      && r.throttle == (if i.vel > i.maxVel then 0.0 else i.throttleSet)
      && r.steer == CrawlToLeftWall(c, i).steer
  {
    if SampleInSight(i.rockSize) then
      var c1 := MaintainModerateSpeed(c, i);
      if SampleNearby(i.rockSize, i.rockAngle, i.rockDist) then
        var (c2, stopped) := BrakeUntilStop(c1, i);
        if stopped then c2.(targetRockPos := i.rockPos, mode := ApproachSample) else c2
      else CrawlToLeftWall(c1, i)
    else CrawlToLeftWall(MaintainHighSpeed(c, i), i)
  }

  /** Mode `break_loop`: drive straight until the front closes in or the rover is stuck. */
  function BreakingLoop(c: Control, i: Inputs): (r: Control)
    requires c.mode == BreakLoop
    ensures HandlerKeeps(c, i, r)
    ensures r.startingPos == c.startingPos
    ensures r.steer == 0.0
    ensures r.mode == Travel <==> StuckCheck(c.window, i.pos, DefaultStuckDistance).1 || NearFrontWall(i.frontWall)
    ensures r.mode == BreakLoop ==> r.brake == 0.0 && r.throttle == (if i.vel > i.maxVel then 0.0 else i.throttleSet)
  {
    var c1 := c.(steer := 0.0);
    var (c2, stuck) := IsStuck(c1, i, DefaultStuckDistance);
    if stuck then c2.(mode := Travel)
    else if NearFrontWall(i.frontWall) then c2.(mode := Travel)
    else MaintainHighSpeed(c2, i)
  }

  function TravelState(c: Control, i: Inputs): (r: Control)
    ensures HandlerKeeps(c, i, r)
    ensures r.startingPos == c.startingPos
    ensures c.mode != Travel && c.mode != BreakLoop ==> r == c
  {
    if c.mode == Travel then Travelling(c, i)
    else if c.mode == BreakLoop then BreakingLoop(c, i)
    else c
  }

  /** One tick of recovery: circling wins over the spin-back countdown. */
  function Unstuck(c: Control, i: Inputs, ch: SpinChoice, resume: Mode): (r: Control)
    requires ValidSpinChoice(ch)
    requires || (c.mode == UnstuckOnTravel && resume == Travel)
             || (c.mode == UnstuckOnReturn && resume == ReturnHome)
             || (c.mode == UnstuckOnPickup && resume == ApproachSample)
    ensures HandlerKeeps(c, i, r)
    ensures r.mode == c.mode || r.mode == BreakLoop || r.mode == resume
    ensures r == c.(mode := r.mode, throttle := r.throttle, steer := r.steer, brake := r.brake,
                    tracker := r.tracker, spinBackCounter := r.spinBackCounter)
    ensures r.steer == c.steer || r.steer == 0.0 || r.steer == ch.steer
    ensures r.throttle == c.throttle || r.throttle == 0.0 || r.throttle == ch.throttle
    ensures r.brake == c.brake || r.brake == 0.0
    ensures r.mode == BreakLoop <==> CirclingCheck(c.tracker, c.steer).1
    ensures !CirclingCheck(c.tracker, c.steer).1 ==>
      (r.mode == resume <==> SpinBack(c.(tracker := CirclingCheck(c.tracker, c.steer).0), ch).1)
    ensures CirclingCheck(c.tracker, c.steer).1 ==>
      r == c.(mode := BreakLoop, tracker := CirclingCheck(c.tracker, c.steer).0)
  {
    var (c1, circling) := IsCircling(c);
    if circling then c1.(mode := BreakLoop)
    else
      var (c2, done) := SpinBack(c1, ch);
      if done then c2.(mode := resume) else c2
  }

  /** One tick of a forced turn-away: back to `resume` once stopped and clear ahead. */
  function TurnAway(c: Control, i: Inputs, resume: Mode): (r: Control)
    requires (c.mode == TurnAwayOnTravel && resume == Travel) || (c.mode == TurnAwayOnReturn && resume == ReturnHome)
    ensures HandlerKeeps(c, i, r)
    ensures r.startingPos == c.startingPos
    ensures r.mode == resume <==> i.vel == 0.0 && i.frontWall > 30.0
  {
    var (c1, clear) := TurnAwayUntilClear(c, i);
    if clear then c1.(mode := resume) else c1
  }

  function AvoidState(c: Control, i: Inputs, ch: SpinChoice): (r: Control)
    requires ValidSpinChoice(ch)
    ensures HandlerKeeps(c, i, r)
    ensures r.startingPos == c.startingPos
    ensures !IsAvoidState(c.mode) ==> r == c
  {
    match c.mode
    case TurnAwayOnTravel => TurnAway(c, i, Travel)
    case TurnAwayOnReturn => TurnAway(c, i, ReturnHome)
    case UnstuckOnTravel => Unstuck(c, i, ch, Travel)
    case UnstuckOnReturn => Unstuck(c, i, ch, ReturnHome)
    case UnstuckOnPickup => Unstuck(c, i, ch, ApproachSample)
    case _ => c
  }

  /** Approach a visible sample; true once stopped in the pickup zone. */
  function GetInPickupZone(c: Control, i: Inputs): (r: (Control, bool))
    ensures r.1 <==> i.nearSample && i.vel == 0.0
    ensures r.0.mode == c.mode || r.0.mode == UnstuckOnPickup
    ensures c.mode != UnstuckOnPickup ==>
      (r.0.mode == UnstuckOnPickup <==> !i.nearSample && StuckCheck(c.window, i.pos, PickupStuckDistance).1)
    ensures r.0.startingPos == c.startingPos
    ensures -15.0 <= c.steer <= 15.0 ==> -15.0 <= r.0.steer <= 15.0
    ensures ActuatorsBounded(c, i) && SaneSettings(i) ==> ActuatorsBounded(r.0, i)
    ensures i.nearSample ==> r.0 == c.(throttle := 0.0, steer := 0.0, brake := r.0.brake)
    ensures i.nearSample ==> r.0.brake == (if i.vel == 0.0 then 0.0 else i.brakeSet)
    ensures !i.nearSample && StuckCheck(c.window, i.pos, PickupStuckDistance).1 ==>
      r.0 == c.(mode := UnstuckOnPickup, window := r.0.window)
    ensures !i.nearSample && !StuckCheck(c.window, i.pos, PickupStuckDistance).1 ==>
      && r.0.mode == c.mode
      && r.0.steer == (if SampleInSight(i.rockSize) then Clip(i.rockAngle, -15.0, 15.0) else 0.0)
      && (NearPickupZone(i.rockSize, i.rockAngle, i.rockDist) && i.vel > i.maxVel / 4.0 ==>
            r.0.throttle == 0.0 && r.0.brake == i.brakeSet)
      && (NearPickupZone(i.rockSize, i.rockAngle, i.rockDist) && i.vel <= i.maxVel / 4.0 ==>
            r.0.throttle == i.throttleSet / 4.0 && r.0.brake == 0.0)
      && (!NearPickupZone(i.rockSize, i.rockAngle, i.rockDist) ==>
            r.0.throttle == (if i.vel > i.maxVel / 2.0 then 0.0 else i.throttleSet / 2.0) && r.0.brake == 0.0)
  {
    if i.nearSample then
      var (c1, stopped) := BrakeUntilStop(c, i);
      (c1, stopped)
    else
      var (c1, stuck) := IsStuck(c, i, PickupStuckDistance);
      if stuck then (c1.(mode := UnstuckOnPickup), false)
      else
        var c2 := if NearPickupZone(i.rockSize, i.rockAngle, i.rockDist) then MaintainSlowSpeed(c1, i) else MaintainModerateSpeed(c1, i);
        (SteerTowardSample(c2, i).0, false)
  }

  function PickupState(c: Control, i: Inputs): (r: Control)
    ensures HandlerKeeps(c, i, r)
    ensures r.startingPos == c.startingPos
    ensures c.mode != ApproachSample && c.mode != PickupSample ==> r == c
    ensures c.mode == PickupSample ==> (r.mode == Travel <==> !i.pickingUp && !i.nearSample)
    ensures c.mode == ApproachSample ==>
      (r.mode == PickupSample <==> SampleInSight(i.rockSize) && i.nearSample && i.vel == 0.0)
    ensures c.mode == ApproachSample && !SampleInSight(i.rockSize) ==> r.mode == ApproachSample && r.throttle == 0.0
    ensures c.mode == ApproachSample && !SampleInSight(i.rockSize) && i.vel != 0.0 ==>
      r == c.(throttle := 0.0, steer := 0.0, brake := i.brakeSet)
    ensures c.mode == ApproachSample && !SampleInSight(i.rockSize) && i.vel == 0.0 ==>
      r == c.(throttle := 0.0, steer := 15.0, brake := 0.0)
  {
    if c.mode == ApproachSample then
      if !SampleInSight(i.rockSize) then
        var (c1, stopped) := BrakeUntilStop(c, i);
        if stopped then LookForSample(c1, i).0 else c1
      else
        var (c1, inZone) := GetInPickupZone(c, i);
        if inZone then c1.(mode := PickupSample) else c1
    else if c.mode == PickupSample then
      var (c1, done) := Pickup(c, i);
      if done then c1.(mode := Travel) else c1
    else c
  }

  /** Mode `return_home`: head for the captured starting position. */
  function ReturningHome(c: Control, i: Inputs, homeAngle: real): (r: Control)
    requires c.mode == ReturnHome && c.startingPos.Some?
    ensures HandlerKeeps(c, i, r)
    ensures r.startingPos == c.startingPos
    ensures r.mode == UnstuckOnReturn <==> StuckCheck(c.window, i.pos, DefaultStuckDistance).1
    ensures r.mode == Stop <==> NearStartingPosition(i.pos, c.startingPos.value) && !IsStuck(c, i, DefaultStuckDistance).1
  {
    var (c1, stuck) := IsStuck(c, i, DefaultStuckDistance);
    if stuck then c1.(mode := UnstuckOnReturn)
    else if NearStartingPosition(i.pos, c1.startingPos.value) then c1.(mode := Stop)
    else HeadHome(c1, i, homeAngle)
  }

  /** The driving part of a `return_home` tick. */
  function HeadHome(c: Control, i: Inputs, homeAngle: real): (r: Control)
    requires c.mode == ReturnHome
    ensures HandlerKeeps(c, i, r)
    ensures r.startingPos == c.startingPos && r.window == c.window
    ensures r.mode == ReturnHome || r.mode == TurnAwayOnReturn
    ensures r.mode == TurnAwayOnReturn <==> TooCloseToFrontWall(i.frontWall) && i.vel == 0.0
    ensures TooCloseToFrontWall(i.frontWall) ==> r.throttle == 0.0 && r.steer == 0.0
    ensures TooCloseToFrontWall(i.frontWall) ==> r.brake == (if i.vel == 0.0 then 0.0 else i.brakeSet)
    ensures !TooCloseToFrontWall(i.frontWall) ==> r == AimHome(c, i, homeAngle)
  {
    var c3 := AimHome(c, i, homeAngle);
    if TooCloseToFrontWall(i.frontWall) then
      var (c4, stopped) := BrakeUntilStop(c3, i);
      if stopped then c4.(mode := TurnAwayOnReturn) else c4
    else c3
  }

  /** Throttle by the wall ahead, aim at the starting position, then let a
      near side wall override the aim. */
  function AimHome(c: Control, i: Inputs, homeAngle: real): (r: Control)
    ensures r == c.(throttle := r.throttle, steer := r.steer, brake := 0.0)
    ensures -15.0 <= r.steer <= 15.0
    ensures r.throttle == 0.0 || r.throttle == i.throttleSet || r.throttle == i.throttleSet / 2.0
    ensures NearLeftWall(i.leftWall) ==> r.steer <= 0.0
    ensures !NearLeftWall(i.leftWall) && !NearRightWall(i.rightWall) ==>
      r.steer == SteerTowardStartingPoint(c, i, homeAngle).0.steer
    ensures NearLeftWall(i.leftWall) ==> r.steer == SteerTowardStartingPoint(c, i, homeAngle).0.steer - 15.0
    ensures !NearLeftWall(i.leftWall) && NearRightWall(i.rightWall) ==> r.steer == 15.0
    ensures NearFrontWall(i.frontWall) ==> r.throttle == (if i.vel > i.maxVel / 2.0 then 0.0 else i.throttleSet / 2.0)
    ensures !NearFrontWall(i.frontWall) ==> r.throttle == (if i.vel > i.maxVel then 0.0 else i.throttleSet)
  {
    var c1 := if NearFrontWall(i.frontWall) then MaintainModerateSpeed(c, i) else MaintainHighSpeed(c, i);
    var c2 := SteerTowardStartingPoint(c1, i, homeAngle).0;
    if NearLeftWall(i.leftWall) then SteerRight(c2)
    else if NearRightWall(i.rightWall) then SteerLeft(c2)
    else c2
  }

  /** Mode `stop`: brake to a standstill, then go idle with every actuator released. */
  function Stopping(c: Control, i: Inputs): (r: Control)
    requires c.mode == Stop
    ensures HandlerKeeps(c, i, r)
    ensures r.startingPos == c.startingPos
    ensures r.mode == Idle <==> i.vel == 0.0
    ensures r.mode == Idle ==> r.throttle == 0.0 && r.steer == 0.0 && r.brake == 0.0
    ensures i.vel != 0.0 ==> r == c.(throttle := 0.0, steer := 0.0, brake := i.brakeSet)
  {
    var (c1, stopped) := BrakeUntilStop(c, i);
    if stopped then StandStill(c1).(mode := Idle) else c1
  }

  /** Homing; the starting position must have been captured. */
  function FinalizeState(c: Control, i: Inputs, homeAngle: real): (r: Control)
    requires c.mode == ReturnHome ==> c.startingPos.Some?
    ensures HandlerKeeps(c, i, r)
    ensures r.startingPos == c.startingPos
    ensures c.mode != ReturnHome && c.mode != Stop ==> r == c
  {
    if c.mode == ReturnHome then ReturningHome(c, i, homeAngle)
    else if c.mode == Stop then Stopping(c, i)
    else c
  }

  predicate IsInitializeState(m: Mode) { m == Start }
  predicate IsTravelState(m: Mode) { m == Travel || m == BreakLoop }
  predicate IsAvoidState(m: Mode) {
    m == TurnAwayOnTravel || m == TurnAwayOnReturn || m == UnstuckOnTravel || m == UnstuckOnReturn || m == UnstuckOnPickup
  }
  predicate IsPickupState(m: Mode) { m == ApproachSample || m == PickupSample }
  predicate IsFinalizeState(m: Mode) { m == ReturnHome || m == Stop }

  /** A rover that has left `start` has captured its starting position. */
  predicate StartCaptured(c: Control) { c.mode == Start || c.startingPos.Some? }

  /** One decision tick: exactly one handler runs, chosen by the mode; `idle`
      matches none and leaves everything as it was. */
  function DecisionStep(c: Control, i: Inputs, homeAngle: real, ch: SpinChoice): (r: Control)
    requires ValidSpinChoice(ch)
    requires StartCaptured(c)
    ensures r.mode == c.mode || Transition(c.mode, r.mode)
    ensures SteerBounded(c) ==> SteerBounded(r)
    ensures ActuatorsBounded(c, i) && SaneSettings(i) ==> ActuatorsBounded(r, i)
    ensures StartCaptured(r)
    ensures c.startingPos.Some? ==> r.startingPos == c.startingPos
    ensures c.mode == Start && c.startingPos.None? ==> r.startingPos == Some(i.pos)
    ensures c.mode == Idle ==> r == c
  {
    if IsInitializeState(c.mode) then InitializeState(c, i)
    else if IsTravelState(c.mode) then TravelState(c, i)
    else if IsAvoidState(c.mode) then AvoidState(c, i, ch)
    else if IsPickupState(c.mode) then PickupState(c, i)
    else if IsFinalizeState(c.mode) then FinalizeState(c, i, homeAngle)
    else c
  }
}
