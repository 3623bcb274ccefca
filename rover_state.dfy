/**
 * The shared rover record: one mutable object that the perception step and
 * the decision step both update in place.
 */
module RoverState {
  import opened Types
  import opened Counters
  import opened DecisionSpec

  class Rover {
    // pose and kinematics, written by the simulator between ticks
    var pos: Point
    var yaw: real
    var pitch: real
    var roll: real
    var vel: real

    // actuator commands and the behavioural mode, written by the decision step
    var mode: Mode
    var throttle: real
    var steer: real
    var brake: real
    var sendPickup: bool

    // sensor summaries, written by the perception step
    var frontWallDistance: real
    var leftWallDistance: real
    var rightWallDistance: real
    var rockSize: nat
    var rockDist: real
    var rockAngle: real
    var rockPos: Option<Point>

    // mission bookkeeping
    var startingPos: Option<Point>
    var targetRockPos: Option<Point>
    var samplesFound: int
    var pickingUp: bool
    var nearSample: bool

    // recovery bookkeeping
    var markedPos: Option<Point>
    var unmoveableCounter: int
    var previousSteer: Option<real>
    var continuousSteerCounter: int
    var spinBackCounter: int

    // fixed settings
    const throttleSet: real
    const brakeSet: real
    const maxVel: real

    /** The world map: rows, columns, and the obstacle/rock/navigable channels. */
    const worldmap: array3<int>

    /** The map is square and has three channels. */
    ghost predicate Valid() {
      && worldmap.Length0 == worldmap.Length1
      && worldmap.Length0 >= 1
      && worldmap.Length2 == 3
    }

    /** The fields the decision step writes. */
    function Ctl(): Control
      reads this
    {
      Control(mode, throttle, steer, brake, sendPickup, startingPos, targetRockPos,
              StuckWindow(markedPos, unmoveableCounter),
              SteerTracker(previousSteer, continuousSteerCounter),
              spinBackCounter)
    }

    /** The fields the decision step only reads. */
    function Ins(): Inputs
      reads this
    {
      Inputs(pos, yaw, pitch, roll, vel, frontWallDistance, leftWallDistance, rightWallDistance,
             rockSize, rockDist, rockAngle, rockPos, samplesFound, pickingUp, nearSample,
             throttleSet, brakeSet, maxVel)
    }

    /** A rover at mission start: mode `start`, nothing captured, every counter
        at rest, an all-zero map of `worldSize` by `worldSize` cells. */
    constructor (worldSize: nat, throttleSet: real, brakeSet: real, maxVel: real, start: Point)
      requires worldSize >= 1
      ensures Valid() && fresh(worldmap)
      ensures worldmap.Length0 == worldSize
      ensures forall y, x, ch :: 0 <= y < worldSize && 0 <= x < worldSize && 0 <= ch < 3 ==>
        worldmap[y, x, ch] == 0
      ensures Ctl() == Control(Start, 0.0, 0.0, 0.0, false, None, None,
                               StuckWindow(None, 0), SteerTracker(None, 0), 0)
      ensures pos == start && this.throttleSet == throttleSet && this.brakeSet == brakeSet
      ensures this.maxVel == maxVel
      ensures rockSize == 0 && rockPos.None? && samplesFound == 0
    {
      pos, yaw, pitch, roll, vel := start, 0.0, 0.0, 0.0, 0.0;
      mode, throttle, steer, brake, sendPickup := Start, 0.0, 0.0, 0.0, false;
      frontWallDistance, leftWallDistance, rightWallDistance := 9999.0, 9999.0, 9999.0;
      rockSize, rockDist, rockAngle, rockPos := 0, 0.0, 0.0, None;
      startingPos, targetRockPos, samplesFound := None, None, 0;
      pickingUp, nearSample := false, false;
      markedPos, unmoveableCounter := None, 0;
      previousSteer, continuousSteerCounter, spinBackCounter := None, 0, 0;
      this.throttleSet, this.brakeSet, this.maxVel := throttleSet, brakeSet, maxVel;
      worldmap := new int[worldSize, worldSize, 3]((_, _, _) => 0);
    }
  }
}
