/**
 * Several ticks of the decision engine in a row: what the rover does on its
 * first tick, how it comes to rest at home, and how a sample pickup runs.
 */
module Scenarios {
  import opened Types
  import opened Counters
  import opened DecisionSpec

  /** On the very first tick the stuck window is only armed, so with the
      front clear the rover stays in `start`, drives at full throttle and
      records where it started. */
  lemma FirstTickStaysInStart(c: Control, i: Inputs, homeAngle: real, ch: SpinChoice)
    requires ValidSpinChoice(ch)
    requires c.mode == Start && c.startingPos.None? && c.window.marked.None?
    requires !NearFrontWall(i.frontWall) && i.vel <= i.maxVel
    ensures var r := DecisionStep(c, i, homeAngle, ch);
      && r.mode == Start
      && r.startingPos == Some(i.pos)
      && r.throttle == i.throttleSet && r.brake == 0.0
      && r.window == StuckWindow(Some(i.pos), StuckDwellTicks - 1)
  {
    var started := c.(startingPos := Some(i.pos));
    assert StuckCheck(started.window, i.pos, DefaultStuckDistance).1 == false;
  }

  /** Near home and not stuck, one tick switches to `stop`; once the rover
      stands still the next tick idles it with every actuator released, and
      from then on nothing changes. */
  lemma ComingToRestAtHome(c: Control, i1: Inputs, i2: Inputs, i3: Inputs, homeAngle: real, ch: SpinChoice)
    requires ValidSpinChoice(ch)
    requires c.mode == ReturnHome && c.startingPos.Some?
    requires c.window.marked.Some? && c.window.counter > 0
    requires NearStartingPosition(i1.pos, c.startingPos.value)
    requires i2.vel == 0.0
    ensures var r1 := DecisionStep(c, i1, homeAngle, ch);
      var r2 := DecisionStep(r1, i2, homeAngle, ch);
      && r1.mode == Stop
      && r2.mode == Idle && r2.throttle == 0.0 && r2.steer == 0.0 && r2.brake == 0.0
      && r2.startingPos == c.startingPos
      && DecisionStep(r2, i3, homeAngle, ch) == r2
  {
    var r1 := DecisionStep(c, i1, homeAngle, ch);
    assert r1 == ReturningHome(c, i1, homeAngle);
    assert !IsStuck(c, i1, DefaultStuckDistance).1;
    assert r1.mode == Stop;
    assert DecisionStep(r1, i2, homeAngle, ch) == Stopping(r1, i2);
  }

  /** Stopped in the pickup zone with the sample in sight, the rover enters
      `pickup_sample`; it then asks for the pickup while the sample is near,
      and resumes `travel` once the pickup is over and the sample is gone. */
  lemma PickupCycle(c: Control, i1: Inputs, i2: Inputs, i3: Inputs, homeAngle: real, ch: SpinChoice)
    requires ValidSpinChoice(ch)
    requires c.mode == ApproachSample && c.startingPos.Some?
    requires SampleInSight(i1.rockSize) && i1.nearSample && i1.vel == 0.0
    requires !i2.pickingUp && i2.nearSample
    requires !i3.pickingUp && !i3.nearSample
    ensures var r1 := DecisionStep(c, i1, homeAngle, ch);
      var r2 := DecisionStep(r1, i2, homeAngle, ch);
      var r3 := DecisionStep(r2, i3, homeAngle, ch);
      && r1.mode == PickupSample && r1.throttle == 0.0 && r1.brake == 0.0
      && r2.mode == PickupSample && r2.sendPickup
      && r3.mode == Travel && r3.sendPickup
  {
    var r1 := DecisionStep(c, i1, homeAngle, ch);
    assert r1 == PickupState(c, i1);
    assert GetInPickupZone(c, i1).1;
    var r2 := DecisionStep(r1, i2, homeAngle, ch);
    assert r2 == PickupState(r1, i2);
    assert DecisionStep(r2, i3, homeAngle, ch) == PickupState(r2, i3);
  }

  /** Heading for a sample seen more than 15 degrees to the right and far
      away: the steer is clamped to -15 and the rover stays in `approach_sample`. */
  lemma ApproachClampsSteer(c: Control, i: Inputs, homeAngle: real, ch: SpinChoice)
    requires ValidSpinChoice(ch)
    requires c.mode == ApproachSample && c.startingPos.Some?
    requires c.window.marked.Some? && c.window.counter > 0
    requires SampleInSight(i.rockSize) && i.rockAngle < -15.0 && !i.nearSample
    ensures var r := DecisionStep(c, i, homeAngle, ch);
      r.mode == ApproachSample && r.steer == -15.0 && r.brake == 0.0
  {
    assert DecisionStep(c, i, homeAngle, ch) == PickupState(c, i);
    assert !NearPickupZone(i.rockSize, i.rockAngle, i.rockDist);
  }

  /** Exploring with six samples collected, neither stuck nor circling, the
      rover turns for home whatever the walls around it, changing nothing else
      but the stuck countdown. */
  lemma DoneCollectingHeadsHome(c: Control, i: Inputs, homeAngle: real, ch: SpinChoice)
    requires ValidSpinChoice(ch)
    requires c.mode == Travel && c.startingPos.Some?
    requires c.window.marked.Some? && c.window.counter > 0 && c.steer == 0.0
    requires i.samplesFound >= SamplesToCollect
    ensures DecisionStep(c, i, homeAngle, ch)
         == c.(mode := ReturnHome, window := c.window.(counter := c.window.counter - 1))
  {
    assert DecisionStep(c, i, homeAngle, ch) == Travelling(c, i);
  }
}
