/** Values shared by the perception and decision parts of the rover model. */
module Types {

  /** An absent-or-present value: the model of a field that may hold `None`. */
  datatype Option<+T> = None | Some(value: T)

  /** A position in world units (rover pose, marked position, rock centroid). */
  datatype Point = Point(x: real, y: real)

  /** The behavioural mode of the rover, a closed enumeration of the mode tags. */
  datatype Mode =
    | Start
    | Travel
    | BreakLoop
    | TurnAwayOnTravel
    | TurnAwayOnReturn
    | UnstuckOnTravel
    | UnstuckOnReturn
    | UnstuckOnPickup
    | ApproachSample
    | PickupSample
    | ReturnHome
    | Stop
    | Idle

  function Abs(x: real): (r: real)
    ensures r >= 0.0 && (r == x || r == -x)
  {
    if x < 0.0 then -x else x
  }

  /** Python's `%` on floats with a positive modulus: the remainder takes the
      sign of the modulus, so it lies in `[0, m)`. */
  function FloorMod(a: real, m: real): (r: real)
    requires m > 0.0
    ensures 0.0 <= r < m
    ensures 0.0 <= a < m ==> r == a
  {
    var k := (a / m).Floor;
    FloorModBounds(a, m, k);
    assert 0.0 <= a < m ==> k == 0 by {
      if 0.0 <= a < m {
        FloorOfFraction(a, m);
      }
    }
    a - k as real * m
  }

  /** Taking away `floor(a / m)` moduli leaves a remainder in `[0, m)`. */
  lemma FloorModBounds(a: real, m: real, k: int)
    requires m > 0.0 && k == (a / m).Floor
    ensures 0.0 <= a - k as real * m < m
  {
    var q := a / m;
    var f := q - k as real;
    assert q * m == a;
    assert a - k as real * m == f * m;
    assert 0.0 <= f < 1.0;
    MulLe(0.0, f, m);
    MulLt(f, 1.0, m);
    assert 0.0 * m == 0.0 && 1.0 * m == m;
  }

  /** An `a` already in `[0, m)` holds no whole modulus. */
  lemma FloorOfFraction(a: real, m: real)
    requires 0.0 <= a < m
    ensures (a / m).Floor == 0
  {
    var q := a / m;
    assert q * m == a;
    assert 0.0 * m == 0.0 && 1.0 * m == m;
    if q < 0.0 {
      MulLt(q, 0.0, m);
    }
    if q >= 1.0 {
      MulLe(1.0, q, m);
    }
    assert 0.0 <= q < 1.0;
  }

  lemma MulLe(x: real, y: real, m: real)
    requires x <= y && m > 0.0
    ensures x * m <= y * m
  {
  }

  lemma MulLt(x: real, y: real, m: real)
    requires x < y && m > 0.0
    ensures x * m < y * m
  {
  }

  /** Shifting the argument by a whole number of moduli leaves the remainder as it was. */
  lemma FloorModPeriodic(a: real, m: real, n: int)
    requires m > 0.0
    ensures FloorMod(a + n as real * m, m) == FloorMod(a, m)
  {
    var q := a / m;
    var q' := (a + n as real * m) / m;
    assert q' == q + n as real;
    assert q'.Floor == q.Floor + n;
  }

  /** numpy's clip on a real: `min(max(v, lo), hi)`. */
  function Clip(v: real, lo: real, hi: real): (r: real)
    requires lo <= hi
    ensures lo <= r <= hi
    ensures lo <= v <= hi ==> r == v
    ensures v < lo ==> r == lo
    ensures v > hi ==> r == hi
  {
    if v < lo then lo else if v > hi then hi else v
  }
}
