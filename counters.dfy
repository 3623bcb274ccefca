/**
 * The three small counter machines of the decision engine: the sampled
 * displacement window behind `is_stuck`, the identical-steer streak behind
 * `is_circling`, and the countdown of the `spin_back` recovery manoeuvre.
 * Each is a pure step function on its own piece of state; the `...Run`
 * functions feed a step a sequence of ticks, and the lemmas state what a whole
 * window, streak or manoeuvre does.
 */
module Counters {
  import opened Types

  /** Number of calls `is_stuck` waits after marking a position. */
  const StuckDwellTicks: int := 200
  /** The displacement threshold `is_stuck` uses when none is given. */
  const DefaultStuckDistance: real := 0.05
  /** The finer threshold used while approaching a sample slowly. */
  const PickupStuckDistance: real := 0.01
  /** A streak of identical steer values longer than this is circling. */
  const CirclingLimit: int := 500

  // ---------------------------------------------------------------------------
  // Stuck detection

  /** `marked_pos` and `unmoveable_counter`. */
  datatype StuckWindow = StuckWindow(marked: Option<Point>, counter: int)

  /** Both axis displacements from the mark are below `dist`. */
  predicate Still(pos: Point, mark: Point, dist: real) {
    Abs(pos.x - mark.x) < dist && Abs(pos.y - mark.y) < dist
  }

  /** One call of `is_stuck` at position `pos`: the new window and the verdict. */
  function StuckCheck(w: StuckWindow, pos: Point, dist: real): (r: (StuckWindow, bool))
    // an unmarked window is armed at `pos` and the arming call counts as its first tick
    ensures w.marked.None? ==> r == (StuckWindow(Some(pos), StuckDwellTicks - 1), false)
    // while counting down the verdict is always "not stuck"
    ensures w.marked.Some? && w.counter > 0 ==> r == (StuckWindow(w.marked, w.counter - 1), false)
    // once the count is spent the mark is cleared and the verdict compares with it
    ensures w.marked.Some? && w.counter <= 0 ==>
      r.0 == StuckWindow(None, w.counter) && (r.1 <==> Still(pos, w.marked.value, dist))
  {
    var armed := if w.marked.None? then StuckWindow(Some(pos), StuckDwellTicks) else w;
    if armed.counter > 0 then
      (armed.(counter := armed.counter - 1), false)
    else
      (armed.(marked := None), Still(pos, armed.marked.value, dist))
  }

  /** `is_stuck` called once per position of `ps`, in order: final window and verdicts. */
  function StuckRun(w: StuckWindow, ps: seq<Point>, dist: real): (r: (StuckWindow, seq<bool>))
    ensures |r.1| == |ps|
    decreases |ps|
  {
    if ps == [] then (w, [])
    else
      var (w1, b) := StuckCheck(w, ps[0], dist);
      var (w2, bs) := StuckRun(w1, ps[1..], dist);
      (w2, [b] + bs)
  }

  /** A window marked at `m` with `k` ticks left reports "not stuck" for `k`
      calls, then compares the next position with `m` and clears the mark. */
  lemma {:induction false} WindowCloses(m: Point, k: nat, ps: seq<Point>, dist: real)
    requires |ps| == k + 1
    ensures var r := StuckRun(StuckWindow(Some(m), k), ps, dist);
      && r.0 == StuckWindow(None, 0)
      && (forall j :: 0 <= j < k ==> !r.1[j])
      && (r.1[k] <==> Still(ps[k], m, dist))
  {
    var w := StuckWindow(Some(m), k);
    if k == 0 {
      var b := Still(ps[0], m, dist);
      assert StuckCheck(w, ps[0], dist) == (StuckWindow(None, 0), b);
      assert ps[1..] == [];
      assert StuckRun(StuckWindow(None, 0), ps[1..], dist) == (StuckWindow(None, 0), []);
      assert [b] + [] == [b];
    } else {
      var w1 := StuckWindow(Some(m), k - 1);
      assert StuckCheck(w, ps[0], dist) == (w1, false);
      WindowCloses(m, k - 1, ps[1..], dist);
      var rest := StuckRun(w1, ps[1..], dist);
      assert StuckRun(w, ps, dist) == (rest.0, [false] + rest.1);
    }
  }

  /** A fresh detection window spans 201 calls: the first 200 never report
      stuck, the 201st reports stuck iff the rover is still within `dist` of
      where the window was opened on both axes, and the window is then closed
      so that the next call opens a new one. */
  lemma FreshWindow(w: StuckWindow, ps: seq<Point>, dist: real)
    requires w.marked.None?
    requires |ps| == StuckDwellTicks + 1
    ensures var r := StuckRun(w, ps, dist);
      && r.0.marked.None?
      && (forall j :: 0 <= j < StuckDwellTicks ==> !r.1[j])
      && (r.1[StuckDwellTicks] <==> Still(ps[StuckDwellTicks], ps[0], dist))
  {
    var w1 := StuckWindow(Some(ps[0]), StuckDwellTicks - 1);
    assert StuckCheck(w, ps[0], dist) == (w1, false);
    WindowCloses(ps[0], StuckDwellTicks - 1, ps[1..], dist);
    var rest := StuckRun(w1, ps[1..], dist);
    assert StuckRun(w, ps, dist) == (rest.0, [false] + rest.1);
  }

  // ---------------------------------------------------------------------------
  // Circling detection

  /** `previous_steer` and `continuous_steer_counter`. */
  datatype SteerTracker = SteerTracker(previous: Option<real>, counter: int)

  /** One call of `is_circling` with the current steer: the new tracker and the verdict. */
  function CirclingCheck(t: SteerTracker, steer: real): (r: (SteerTracker, bool))
    // zero steer is ignored: nothing is reset
    ensures steer == 0.0 ==> r == (t, false)
    // any non-zero steer becomes the remembered one
    ensures steer != 0.0 ==> r.0.previous == Some(steer)
    // the streak grows on a repeat and restarts at 0 on a change
    ensures steer != 0.0 && !r.1 ==>
      r.0.counter == (if t.previous == Some(steer) then t.counter + 1 else 0)
    // circling is reported exactly when the streak passes the limit, which resets it
    ensures r.1 <==> steer != 0.0 && t.previous == Some(steer) && t.counter + 1 > CirclingLimit
    ensures r.1 ==> r.0.counter == 0
  {
    if steer == 0.0 then (t, false)
    else
      var t1 := if t.previous == Some(steer) then t.(counter := t.counter + 1)
                else SteerTracker(Some(steer), 0);
      if t1.counter > CirclingLimit then (t1.(counter := 0), true)
      else if t1.previous != Some(steer) then (SteerTracker(None, 0), false)
      else (t1, false)
  }

  /** `is_circling` called `n` times with the same steer value. */
  function CirclingRun(t: SteerTracker, steer: real, n: nat): (r: (SteerTracker, seq<bool>))
    ensures |r.1| == n
    decreases n
  {
    if n == 0 then (t, [])
    else
      var (t1, b) := CirclingCheck(t, steer);
      var (t2, bs) := CirclingRun(t1, steer, n - 1);
      (t2, [b] + bs)
  }

  /** With `steer` remembered and a streak of `k`, the next `CirclingLimit - k`
      calls are quiet and the one after reports circling and resets the streak. */
  lemma {:induction false} StreakCompletes(steer: real, k: int)
    requires steer != 0.0
    requires 0 <= k <= CirclingLimit
    ensures var r := CirclingRun(SteerTracker(Some(steer), k), steer, CirclingLimit - k + 1);
      && r.0 == SteerTracker(Some(steer), 0)
      && (forall j :: 0 <= j < CirclingLimit - k ==> !r.1[j])
      && r.1[CirclingLimit - k]
    decreases CirclingLimit - k
  {
    var t := SteerTracker(Some(steer), k);
    var n := CirclingLimit - k + 1;
    if k == CirclingLimit {
      assert CirclingCheck(t, steer) == (SteerTracker(Some(steer), 0), true);
      assert CirclingRun(SteerTracker(Some(steer), 0), steer, 0) == (SteerTracker(Some(steer), 0), []);
      assert [true] + [] == [true];
    } else {
      var t1 := SteerTracker(Some(steer), k + 1);
      assert CirclingCheck(t, steer) == (t1, false);
      StreakCompletes(steer, k + 1);
      var rest := CirclingRun(t1, steer, n - 1);
      assert CirclingRun(t, steer, n) == (rest.0, [false] + rest.1);
    }
  }

  /** From a tracker that does not remember `steer`, holding that non-zero
      steer reports circling first on the 502nd call: the first call only
      starts the streak at 0, and the streak must then exceed 500. */
  lemma FirstCircling(t: SteerTracker, steer: real)
    requires steer != 0.0 && t.previous != Some(steer)
    ensures var r := CirclingRun(t, steer, CirclingLimit + 2);
      && r.0 == SteerTracker(Some(steer), 0)
      && (forall j :: 0 <= j < CirclingLimit + 1 ==> !r.1[j])
      && r.1[CirclingLimit + 1]
  {
    var t1 := SteerTracker(Some(steer), 0);
    assert CirclingCheck(t, steer) == (t1, false);
    StreakCompletes(steer, 0);
    var rest := CirclingRun(t1, steer, CirclingLimit + 1);
    assert CirclingRun(t, steer, CirclingLimit + 2) == (rest.0, [false] + rest.1);
  }

  // ---------------------------------------------------------------------------
  // Spin-back recovery

  /** The values `spin_back` draws at random when it arms. */
  datatype SpinChoice = SpinChoice(throttle: real, steer: real, duration: int)

  /** The lists `spin_back` draws from; zero throttle is listed four times,
      so half of the draws turn on the spot without reversing. */
  const SpinThrottles: seq<real> := [0.0, 0.0, 0.0, 0.0, -0.1, -0.2, -0.3, -0.4]
  const SpinSteers: seq<real> := [-15.0, -10.0, -5.0, 5.0, 10.0, 15.0]
  const SpinDurations: seq<int> := [50, 100, 200, 300, 500]

  /** Each drawn value comes from the list `spin_back` chooses it from. */
  predicate ValidSpinChoice(ch: SpinChoice) {
    ch.throttle in SpinThrottles && ch.steer in SpinSteers && ch.duration in SpinDurations
  }

  /** The actuators and the countdown that `spin_back` touches. */
  datatype Spin = Spin(throttle: real, steer: real, brake: real, counter: int)

  /** One call of `spin_back`; `ch` is what the random draws would yield if it arms. */
  function SpinBackStep(s: Spin, ch: SpinChoice): (r: (Spin, bool))
    requires ValidSpinChoice(ch)
    // the brake is always released
    ensures r.0.brake == 0.0
    // the manoeuvre is over exactly when the countdown reads 0, and then the wheels are centred and idle
    ensures r.1 <==> r.0.counter == 0
    ensures r.1 ==> r.0.throttle == 0.0 && r.0.steer == 0.0
    // the arming call takes the drawn values and is never the last one
    ensures s.counter == 0 ==> !r.1 && r.0 == Spin(ch.throttle, ch.steer, 0.0, ch.duration - 1)
    // a running countdown ticks down by one and holds throttle and steer until it ends
    ensures s.counter > 0 ==>
      r.0.counter == s.counter - 1 && (r.1 || (r.0.throttle == s.throttle && r.0.steer == s.steer))
    ensures s.counter < 0 ==> r == (s.(brake := 0.0), false)
    // the commands stay within the ranges the draws come from
    ensures -15.0 <= s.steer <= 15.0 ==> -15.0 <= r.0.steer <= 15.0
    ensures r.0.throttle == s.throttle || -0.4 <= r.0.throttle <= 0.0
  {
    var released := s.(brake := 0.0);
    var armed := if released.counter == 0
                 then released.(throttle := ch.throttle, steer := ch.steer, counter := ch.duration)
                 else released;
    var counted := if armed.counter > 0 then armed.(counter := armed.counter - 1) else armed;
    if counted.counter == 0 then (counted.(throttle := 0.0, steer := 0.0), true)
    else (counted, false)
  }

  /** `spin_back` called once per element of `chs`. */
  function SpinRun(s: Spin, chs: seq<SpinChoice>): (r: (Spin, seq<bool>))
    requires forall j :: 0 <= j < |chs| ==> ValidSpinChoice(chs[j])
    ensures |r.1| == |chs|
    decreases |chs|
  {
    if chs == [] then (s, [])
    else
      var (s1, b) := SpinBackStep(s, chs[0]);
      var (s2, bs) := SpinRun(s1, chs[1..]);
      (s2, [b] + bs)
  }

  /** A countdown at `k > 0` ends exactly on the `k`-th call, leaving the wheels idle. */
  lemma {:induction false} CountdownEnds(s: Spin, chs: seq<SpinChoice>)
    requires forall j :: 0 <= j < |chs| ==> ValidSpinChoice(chs[j])
    requires s.counter == |chs| > 0
    ensures var r := SpinRun(s, chs);
      && r.0 == Spin(0.0, 0.0, 0.0, 0)
      && (forall j :: 0 <= j < |chs| - 1 ==> !r.1[j])
      && r.1[|chs| - 1]
    decreases |chs|
  {
    var (s1, b) := SpinBackStep(s, chs[0]);
    if |chs| == 1 {
      assert chs[1..] == [];
      assert SpinRun(s1, chs[1..]) == (s1, []);
      assert [b] + [] == [b];
    } else {
      CountdownEnds(s1, chs[1..]);
      var rest := SpinRun(s1, chs[1..]);
      assert SpinRun(s, chs) == (rest.0, [b] + rest.1);
    }
  }

  /** A manoeuvre armed from an idle countdown lasts exactly the drawn duration:
      it ends on call number `chs[0].duration`, counting the arming call. */
  lemma ManeuverLength(s: Spin, chs: seq<SpinChoice>)
    requires forall j :: 0 <= j < |chs| ==> ValidSpinChoice(chs[j])
    requires s.counter == 0 && |chs| > 0 && |chs| == chs[0].duration
    ensures var r := SpinRun(s, chs);
      && r.0 == Spin(0.0, 0.0, 0.0, 0)
      && (forall j :: 0 <= j < |chs| - 1 ==> !r.1[j])
      && r.1[|chs| - 1]
  {
    var (s1, b) := SpinBackStep(s, chs[0]);
    CountdownEnds(s1, chs[1..]);
    var rest := SpinRun(s1, chs[1..]);
    assert SpinRun(s, chs) == (rest.0, [b] + rest.1);
  }
}
