/**
 * The navigation decision engine as it runs: every helper and handler updates
 * the fields of the shared `Rover` in place. Each method is proved to leave
 * the rover exactly as the same-named function of `DecisionSpec` says and to
 * leave every field it only reads as it was. Every operation thus appears twice
 * by design: here as the method that runs, there as the function that specifies it.
 */
module Decision {
  import opened Types
  import opened Counters
  import Spec = DecisionSpec
  import opened RoverState

  method MaintainModerateSpeed(rover: Rover)
    modifies rover`brake, rover`throttle
    ensures rover.Ctl() == Spec.MaintainModerateSpeed(old(rover.Ctl()), old(rover.Ins()))
  {
    rover.brake := 0.0;
    rover.throttle := rover.throttleSet / 2.0;
    if rover.vel > rover.maxVel / 2.0 {
      rover.throttle := 0.0;
    }
  }

  method MaintainHighSpeed(rover: Rover)
    modifies rover`brake, rover`throttle
    ensures rover.Ctl() == Spec.MaintainHighSpeed(old(rover.Ctl()), old(rover.Ins()))
  {
    rover.brake := 0.0;
    rover.throttle := rover.throttleSet;
    if rover.vel > rover.maxVel {
      rover.throttle := 0.0;
    }
  }

  method MaintainSlowSpeed(rover: Rover)
    modifies rover`brake, rover`throttle
    ensures rover.Ctl() == Spec.MaintainSlowSpeed(old(rover.Ctl()), old(rover.Ins()))
  {
    rover.brake := 0.0;
    rover.throttle := rover.throttleSet / 4.0;
    if rover.vel > rover.maxVel / 4.0 {
      rover.throttle := 0.0;
      rover.brake := rover.brakeSet;
    }
  }

  method SteerLeft(rover: Rover)
    modifies rover`steer
    ensures rover.Ctl() == Spec.SteerLeft(old(rover.Ctl()))
  {
    rover.steer := Clip(rover.steer + 15.0, -15.0, 15.0);
  }

  method SteerRight(rover: Rover)
    modifies rover`steer
    ensures rover.Ctl() == Spec.SteerRight(old(rover.Ctl()))
  {
    rover.steer := Clip(rover.steer - 15.0, -15.0, 15.0);
  }

  method CrawlToLeftWall(rover: Rover)
    modifies rover`steer
    ensures rover.Ctl() == Spec.CrawlToLeftWall(old(rover.Ctl()), old(rover.Ins()))
  {
    if Spec.NearLeftWall(rover.leftWallDistance) {
      SteerRight(rover);
    } else if Spec.TooFarFromLeftWall(rover.leftWallDistance) {
      SteerLeft(rover);
    } else {
      rover.steer := 5.0;
    }
  }

  /** `homeAngle` stands for the world direction, in degrees, from the rover to
      the starting point. */
  method SteerTowardStartingPoint(rover: Rover, homeAngle: real) returns (aligned: bool)
    modifies rover`steer
    ensures rover.Ctl() == Spec.SteerTowardStartingPoint(old(rover.Ctl()), old(rover.Ins()), homeAngle).0
    ensures aligned == Spec.SteerTowardStartingPoint(old(rover.Ctl()), old(rover.Ins()), homeAngle).1
  {
    var bearing := FloorMod(homeAngle - rover.yaw, 360.0);
    if Abs(bearing) < 5.0 {
      rover.steer := 0.0;
      return true;
    } else {
      rover.steer := Clip(bearing, -15.0, 15.0);
      return false;
    }
  }

  method SteerTowardSample(rover: Rover) returns (lost: bool)
    modifies rover`steer
    ensures rover.Ctl() == Spec.SteerTowardSample(old(rover.Ctl()), old(rover.Ins())).0
    ensures lost == Spec.SteerTowardSample(old(rover.Ctl()), old(rover.Ins())).1
  {
    if rover.rockSize > 0 {
      rover.steer := Clip(rover.rockAngle, -15.0, 15.0);
      return false;
    } else {
      rover.steer := 0.0;
      return true;
    }
  }

  method BrakeUntilStop(rover: Rover) returns (stopped: bool)
    modifies rover`brake, rover`steer, rover`throttle
    ensures rover.Ctl() == Spec.BrakeUntilStop(old(rover.Ctl()), old(rover.Ins())).0
    ensures stopped == Spec.BrakeUntilStop(old(rover.Ctl()), old(rover.Ins())).1
  {
    rover.brake := rover.brakeSet;
    rover.steer := 0.0;
    rover.throttle := 0.0;
    if rover.vel == 0.0 {
      rover.brake := 0.0;
      return true;
    } else {
      return false;
    }
  }

  method StandStill(rover: Rover)
    modifies rover`throttle, rover`steer, rover`brake
    ensures rover.Ctl() == Spec.StandStill(old(rover.Ctl()))
  {
    rover.throttle := 0.0;
    rover.steer := 0.0;
    rover.brake := 0.0;
  }

  method SteerUntilClear(rover: Rover) returns (clear: bool)
    modifies rover`brake, rover`steer, rover`throttle
    ensures rover.Ctl() == Spec.SteerUntilClear(old(rover.Ctl()), old(rover.Ins())).0
    ensures clear == Spec.SteerUntilClear(old(rover.Ctl()), old(rover.Ins())).1
  {
    rover.brake := 0.0;
    rover.steer := -30.0;
    if rover.frontWallDistance > 30.0 {
      rover.steer := 0.0;
      rover.throttle := 0.0;
      return true;
    } else {
      return false;
    }
  }

  method TurnAwayUntilClear(rover: Rover) returns (clear: bool)
    modifies rover`brake, rover`steer, rover`throttle
    ensures rover.Ctl() == Spec.TurnAwayUntilClear(old(rover.Ctl()), old(rover.Ins())).0
    ensures clear == Spec.TurnAwayUntilClear(old(rover.Ctl()), old(rover.Ins())).1
  {
    var stopped := BrakeUntilStop(rover);
    if stopped {
      var turned := SteerUntilClear(rover);
      if turned {
        StandStill(rover);
        return true;
      }
    }
    return false;
  }

  method LookForSample(rover: Rover) returns (inSight: bool)
    modifies rover`steer
    ensures rover.Ctl() == Spec.LookForSample(old(rover.Ctl()), old(rover.Ins())).0
    ensures inSight == Spec.LookForSample(old(rover.Ctl()), old(rover.Ins())).1
  {
    if Spec.SampleInSight(rover.rockSize) {
      return true;
    } else {
      SteerLeft(rover);
      return false;
    }
  }

  method Pickup(rover: Rover) returns (done: bool)
    modifies rover`sendPickup
    ensures rover.Ctl() == Spec.Pickup(old(rover.Ctl()), old(rover.Ins())).0
    ensures done == Spec.Pickup(old(rover.Ctl()), old(rover.Ins())).1
  {
    if rover.pickingUp {
      return false;
    } else if rover.nearSample {
      rover.sendPickup := true;
      return false;
    } else {
      return true;
    }
  }

  /** `is_stuck`: a sampled displacement test over a window of calls. */
  method IsStuck(rover: Rover, dist: real) returns (stuck: bool)
    modifies rover`markedPos, rover`unmoveableCounter
    ensures rover.Ctl() == Spec.IsStuck(old(rover.Ctl()), old(rover.Ins()), dist).0
    ensures stuck == Spec.IsStuck(old(rover.Ctl()), old(rover.Ins()), dist).1
  {
    if rover.markedPos.None? {
      rover.markedPos := Some(rover.pos);
      rover.unmoveableCounter := StuckDwellTicks;
    }
    if rover.unmoveableCounter > 0 {
      rover.unmoveableCounter := rover.unmoveableCounter - 1;
      return false;
    } else {
      var deltaX := rover.pos.x - rover.markedPos.value.x;
      var deltaY := rover.pos.y - rover.markedPos.value.y;
      rover.markedPos := None;
      return Abs(deltaX) < dist && Abs(deltaY) < dist;
    }
  }

  /** `is_circling`: counts repeats of the same non-zero steer value. */
  method IsCircling(rover: Rover) returns (circling: bool)
    modifies rover`previousSteer, rover`continuousSteerCounter
    ensures rover.Ctl() == Spec.IsCircling(old(rover.Ctl())).0
    ensures circling == Spec.IsCircling(old(rover.Ctl())).1
  {
    if rover.steer == 0.0 {
      return false;
    }
    if rover.previousSteer == Some(rover.steer) {
      rover.continuousSteerCounter := rover.continuousSteerCounter + 1;
    } else {
      rover.previousSteer := Some(rover.steer);
      rover.continuousSteerCounter := 0;
    }
    if rover.continuousSteerCounter > CirclingLimit {
      rover.continuousSteerCounter := 0;
      return true;
    } else {
      if rover.previousSteer != Some(rover.steer) {
        // the remembered steer was just set to the current one: unreachable
        assert false;
      }
      return false;
    }
  }

  /** `spin_back`; `choice` carries the values the random draws would give. */
  method SpinBack(rover: Rover, choice: SpinChoice) returns (done: bool)
    requires ValidSpinChoice(choice)
    modifies rover`brake, rover`throttle, rover`steer, rover`spinBackCounter
    ensures rover.Ctl() == Spec.SpinBack(old(rover.Ctl()), choice).0
    ensures done == Spec.SpinBack(old(rover.Ctl()), choice).1
  {
    rover.brake := 0.0;
    if rover.spinBackCounter == 0 {
      rover.throttle := choice.throttle;
      rover.steer := choice.steer;
      rover.spinBackCounter := choice.duration;
    }
    if rover.spinBackCounter > 0 {
      rover.spinBackCounter := rover.spinBackCounter - 1;
    }
    if rover.spinBackCounter == 0 {
      rover.throttle := 0.0;
      rover.steer := 0.0;
      return true;
    } else {
      return false;
    }
  }

  method InitializeState(rover: Rover)
    modifies rover`mode, rover`startingPos, rover`markedPos, rover`unmoveableCounter,
      rover`brake, rover`throttle
    ensures rover.Ctl() == Spec.InitializeState(old(rover.Ctl()), old(rover.Ins()))
  {
    if rover.mode == Start {
      if rover.startingPos.None? {
        rover.startingPos := Some(rover.pos);
      }
      assert rover.Ins() == old(rover.Ins());
      if Spec.NearFrontWall(rover.frontWallDistance) {
        rover.mode := Travel;
      } else {
        var stuck := IsStuck(rover, DefaultStuckDistance);
        assert rover.Ins() == old(rover.Ins());
        if stuck {
          rover.mode := Travel;
        } else {
          MaintainHighSpeed(rover);
        }
      }
    }
  }

  /** Mode `travel`: the first branch of `travel_state`. */
  method Travelling(rover: Rover)
    requires rover.mode == Travel
    modifies rover`mode, rover`throttle, rover`steer, rover`brake, rover`targetRockPos,
      rover`markedPos, rover`unmoveableCounter, rover`previousSteer,
      rover`continuousSteerCounter
    ensures rover.Ctl() == Spec.Travelling(old(rover.Ctl()), old(rover.Ins()))
  {
    var stuck := IsStuck(rover, DefaultStuckDistance);
    assert rover.Ins() == old(rover.Ins());
    if stuck {
      rover.mode := UnstuckOnTravel;
      return;
    }
    var circling := IsCircling(rover);
    if circling {
      rover.mode := BreakLoop;
    } else {
      assert rover.Ins() == old(rover.Ins());
      Exploring(rover);
    }
  }

  /** The rest of a `travel` tick once the rover is neither stuck nor circling. */
  method Exploring(rover: Rover)
    requires rover.mode == Travel
    modifies rover`mode, rover`throttle, rover`steer, rover`brake, rover`targetRockPos
    ensures rover.Ctl() == Spec.Exploring(old(rover.Ctl()), old(rover.Ins()))
  {
    if Spec.FinishedCollecting(rover.samplesFound) {
      rover.mode := ReturnHome;
    } else if Spec.NearFrontWall(rover.frontWallDistance) {
      MaintainModerateSpeed(rover);
      if !Spec.TooCloseToRightWall(rover.rightWallDistance) {
        SteerRight(rover);
      } else {
        var stopped := BrakeUntilStop(rover);
        if stopped {
          rover.mode := TurnAwayOnTravel;
        }
      }
    } else if Spec.SampleInSight(rover.rockSize) {
      MaintainModerateSpeed(rover);
      if Spec.SampleNearby(rover.rockSize, rover.rockAngle, rover.rockDist) {
        var stopped := BrakeUntilStop(rover);
        if stopped {
          rover.targetRockPos := rover.rockPos;
          rover.mode := ApproachSample;
        }
      } else {
        CrawlToLeftWall(rover);
      }
    } else {
      MaintainHighSpeed(rover);
      CrawlToLeftWall(rover);
    }
  }

  /** Mode `break_loop`: the second branch of `travel_state`. */
  method BreakingLoop(rover: Rover)
    requires rover.mode == BreakLoop
    modifies rover`mode, rover`throttle, rover`steer, rover`brake,
      rover`markedPos, rover`unmoveableCounter
    ensures rover.Ctl() == Spec.BreakingLoop(old(rover.Ctl()), old(rover.Ins()))
  {
    rover.steer := 0.0;
    var stuck := IsStuck(rover, DefaultStuckDistance);
    assert rover.Ins() == old(rover.Ins());
    if stuck {
      rover.mode := Travel;
    } else if Spec.NearFrontWall(rover.frontWallDistance) {
      rover.mode := Travel;
    } else {
      MaintainHighSpeed(rover);
    }
  }

  method TravelState(rover: Rover)
    modifies rover`mode, rover`throttle, rover`steer, rover`brake, rover`targetRockPos,
      rover`markedPos, rover`unmoveableCounter, rover`previousSteer,
      rover`continuousSteerCounter
    ensures rover.Ctl() == Spec.TravelState(old(rover.Ctl()), old(rover.Ins()))
  {
    if rover.mode == Travel {
      Travelling(rover);
    } else if rover.mode == BreakLoop {
      BreakingLoop(rover);
    }
  }

  method AvoidState(rover: Rover, choice: SpinChoice)
    requires ValidSpinChoice(choice)
    modifies rover`mode, rover`throttle, rover`steer, rover`brake, rover`previousSteer,
      rover`continuousSteerCounter, rover`spinBackCounter
    ensures rover.Ctl() == Spec.AvoidState(old(rover.Ctl()), old(rover.Ins()), choice)
  {
    if rover.mode == TurnAwayOnTravel {
      var clear := TurnAwayUntilClear(rover);
      if clear {
        rover.mode := Travel;
      }
    } else if rover.mode == TurnAwayOnReturn {
      var clear := TurnAwayUntilClear(rover);
      if clear {
        rover.mode := ReturnHome;
      }
    } else if rover.mode == UnstuckOnTravel {
      var circling := IsCircling(rover);
      if circling {
        rover.mode := BreakLoop;
      } else {
        var done := SpinBack(rover, choice);
        if done {
          rover.mode := Travel;
        }
      }
    } else if rover.mode == UnstuckOnReturn {
      var circling := IsCircling(rover);
      if circling {
        rover.mode := BreakLoop;
      } else {
        var done := SpinBack(rover, choice);
        if done {
          rover.mode := ReturnHome;
        }
      }
    } else if rover.mode == UnstuckOnPickup {
      var circling := IsCircling(rover);
      if circling {
        rover.mode := BreakLoop;
      } else {
        var done := SpinBack(rover, choice);
        if done {
          rover.mode := ApproachSample;
        }
      }
    }
  }

  method GetInPickupZone(rover: Rover) returns (inZone: bool)
    modifies rover`mode, rover`throttle, rover`steer, rover`brake, rover`markedPos,
      rover`unmoveableCounter
    ensures rover.Ctl() == Spec.GetInPickupZone(old(rover.Ctl()), old(rover.Ins())).0
    ensures inZone == Spec.GetInPickupZone(old(rover.Ctl()), old(rover.Ins())).1
  {
    if rover.nearSample {
      var stopped := BrakeUntilStop(rover);
      if stopped {
        return true;
      }
    } else {
      var stuck := IsStuck(rover, PickupStuckDistance);
      assert rover.Ins() == old(rover.Ins());
      if stuck {
        rover.mode := UnstuckOnPickup;
      } else {
        if Spec.NearPickupZone(rover.rockSize, rover.rockAngle, rover.rockDist) {
          MaintainSlowSpeed(rover);
        } else {
          MaintainModerateSpeed(rover);
        }
        var _ := SteerTowardSample(rover);
      }
    }
    return false;
  }

  method PickupState(rover: Rover)
    modifies rover`mode, rover`throttle, rover`steer, rover`brake, rover`sendPickup,
      rover`markedPos, rover`unmoveableCounter
    ensures rover.Ctl() == Spec.PickupState(old(rover.Ctl()), old(rover.Ins()))
  {
    if rover.mode == ApproachSample {
      if !Spec.SampleInSight(rover.rockSize) {
        var stopped := BrakeUntilStop(rover);
        if stopped {
          var _ := LookForSample(rover);
        }
      } else {
        var inZone := GetInPickupZone(rover);
        if inZone {
          rover.mode := PickupSample;
        }
      }
    } else if rover.mode == PickupSample {
      var done := Pickup(rover);
      if done {
        rover.mode := Travel;
      }
    }
  }

  /** Mode `return_home`: the first branch of `finalize_state`. */
  method ReturningHome(rover: Rover, homeAngle: real)
    requires rover.mode == ReturnHome && rover.startingPos.Some?
    modifies rover`mode, rover`throttle, rover`steer, rover`brake, rover`markedPos,
      rover`unmoveableCounter
    ensures rover.Ctl() == Spec.ReturningHome(old(rover.Ctl()), old(rover.Ins()), homeAngle)
  {
    var stuck := IsStuck(rover, DefaultStuckDistance);
    assert rover.Ins() == old(rover.Ins());
    if stuck {
      rover.mode := UnstuckOnReturn;
      return;
    }
    if Spec.NearStartingPosition(rover.pos, rover.startingPos.value) {
      rover.mode := Stop;
      return;
    }
    HeadHome(rover, homeAngle);
  }

  /** The driving part of a `return_home` tick: aim for home, and stop to
      turn away when the wall ahead is too close. */
  method HeadHome(rover: Rover, homeAngle: real)
    requires rover.mode == ReturnHome
    modifies rover`mode, rover`throttle, rover`steer, rover`brake
    ensures rover.Ctl() == Spec.HeadHome(old(rover.Ctl()), old(rover.Ins()), homeAngle)
  {
    AimHome(rover, homeAngle);
    assert rover.Ins() == old(rover.Ins());
    if Spec.TooCloseToFrontWall(rover.frontWallDistance) {
      var stopped := BrakeUntilStop(rover);
      if stopped {
        rover.mode := TurnAwayOnReturn;
      }
    }
  }

  method AimHome(rover: Rover, homeAngle: real)
    modifies rover`throttle, rover`steer, rover`brake
    ensures rover.Ctl() == Spec.AimHome(old(rover.Ctl()), old(rover.Ins()), homeAngle)
  {
    if Spec.NearFrontWall(rover.frontWallDistance) {
      MaintainModerateSpeed(rover);
    } else {
      MaintainHighSpeed(rover);
    }
    assert rover.Ins() == old(rover.Ins());
    var _ := SteerTowardStartingPoint(rover, homeAngle);
    assert rover.Ins() == old(rover.Ins());
    if Spec.NearLeftWall(rover.leftWallDistance) {
      SteerRight(rover);
    } else if Spec.NearRightWall(rover.rightWallDistance) {
      SteerLeft(rover);
    }
  }

  /** Mode `stop`: the second branch of `finalize_state`. */
  method Stopping(rover: Rover)
    requires rover.mode == Stop
    modifies rover`mode, rover`throttle, rover`steer, rover`brake
    ensures rover.Ctl() == Spec.Stopping(old(rover.Ctl()), old(rover.Ins()))
  {
    var stopped := BrakeUntilStop(rover);
    if stopped {
      StandStill(rover);
      rover.mode := Idle;
    }
  }

  method FinalizeState(rover: Rover, homeAngle: real)
    requires rover.mode == ReturnHome ==> rover.startingPos.Some?
    modifies rover`mode, rover`throttle, rover`steer, rover`brake, rover`markedPos,
      rover`unmoveableCounter
    ensures rover.Ctl() == Spec.FinalizeState(old(rover.Ctl()), old(rover.Ins()), homeAngle)
  {
    if rover.mode == ReturnHome {
      ReturningHome(rover, homeAngle);
    } else if rover.mode == Stop {
      Stopping(rover);
    }
  }

  /** One decision tick. `homeAngle` and `choice` stand for the trigonometry and
      the random draws the tick may need. */
  method DecisionStep(rover: Rover, homeAngle: real, choice: SpinChoice)
    requires ValidSpinChoice(choice)
    requires Spec.StartCaptured(rover.Ctl())
    modifies rover`mode, rover`throttle, rover`steer, rover`brake, rover`sendPickup,
      rover`startingPos, rover`targetRockPos, rover`markedPos, rover`unmoveableCounter,
      rover`previousSteer, rover`continuousSteerCounter, rover`spinBackCounter
    ensures rover.Ctl() == Spec.DecisionStep(old(rover.Ctl()), old(rover.Ins()), homeAngle, choice)
  {
    if Spec.IsInitializeState(rover.mode) {
      InitializeState(rover);
    } else if Spec.IsTravelState(rover.mode) {
      TravelState(rover);
    } else if Spec.IsAvoidState(rover.mode) {
      AvoidState(rover, choice);
    } else if Spec.IsPickupState(rover.mode) {
      PickupState(rover);
    } else if Spec.IsFinalizeState(rover.mode) {
      FinalizeState(rover, homeAngle);
    }
  }
}
