/**
 * The animation clock: the timer interval derived from a frame rate, the
 * rotation step derived from the revolution rate, the per-tick advance of the
 * angle and hue, and the start/stop/enable state machine.
 */
module Clock {
  import opened Angles

  /** Python's `a // b` on integers: division rounded towards minus infinity. */
  function FloorDiv(a: int, b: int): (q: int)
    requires b != 0
    ensures q as real <= a as real / b as real < q as real + 1.0
  {
    if b > 0 then
      EuclideanIsFloor(a, b);
      a / b
    else
      EuclideanIsFloor(-a, -b);
      assert (-a) as real / (-b) as real == a as real / b as real;
      (-a) / (-b)
  }

  /** For a positive divisor Dafny's Euclidean quotient is the floor of the real quotient. */
  lemma EuclideanIsFloor(a: int, b: int)
    requires b > 0
    ensures (a / b) as real <= a as real / b as real < (a / b) as real + 1.0
  {
    var q, r := a / b, a % b;
    assert a == b * q + r && 0 <= r < b;
    var B := b as real;
    assert a as real / B == q as real + r as real / B;
    assert 0.0 <= r as real / B < 1.0;
  }

  /** The timer interval in milliseconds for a frame rate: `1000 // rate`. */
  function FrameInterval(rate: int): int
    requires rate != 0
  {
    FloorDiv(1000, rate)
  }

  /** For a positive rate the interval is the longest whole number of milliseconds that fits `rate` frames into a second. */
  lemma FrameIntervalFits(rate: int)
    requires rate > 0
    ensures 0 <= FrameInterval(rate)
    ensures FrameInterval(rate) * rate <= 1000 < (FrameInterval(rate) + 1) * rate
  {
    var q := FrameInterval(rate);
    var r := rate as real;
    assert q as real * r <= 1000.0 / r * r;
    assert 1000.0 / r * r < (q as real + 1.0) * r;
    assert (q * rate) as real <= 1000.0 < ((q + 1) * rate) as real;
  }

  /** Degrees the spinner turns per tick: `rps * interval * 360 / 1000`. */
  function RotationIncrement(rps: real, interval: int): real {
    rps * interval as real * 360.0 / 1000.0
  }

  /** The revolution rate a given per-tick step amounts to. */
  function RevolutionsPerSecond(increment: real, interval: int): real
    requires interval != 0
  {
    increment * 1000.0 / (interval as real * 360.0)
  }

  /**
   * With a non-zero interval the step turns the spinner `rps` revolutions for
   * every second of ticks, and the step and the revolution rate determine each
   * other.
   */
  lemma IncrementMatchesRate(rps: real, increment: real, interval: int)
    requires interval != 0
    ensures RotationIncrement(rps, interval) * (1000.0 / interval as real) == rps * 360.0
    ensures RevolutionsPerSecond(RotationIncrement(rps, interval), interval) == rps
    ensures RotationIncrement(RevolutionsPerSecond(increment, interval), interval) == increment
  {
    var t := interval as real;
    assert RotationIncrement(rps, interval) == (rps * 360.0) * (t / 1000.0);
    assert (t / 1000.0) * (1000.0 / t) == 1.0;
    assert RotationIncrement(rps, interval) * 1000.0 == rps * 360.0 * t;
    assert rps * 360.0 * t / (t * 360.0) == rps;
    assert increment * 1000.0 / (t * 360.0) * t * 360.0 == increment * 1000.0;
  }

  /** An angle after `k` ticks, each adding `increment` and reducing modulo 360. */
  function AfterTicks(angle: real, increment: real, k: nat): real {
    if k == 0 then angle else Mod360(AfterTicks(angle, increment, k - 1) + increment)
  }

  /** `k` ticks amount to one reduction of the whole advance `total == k * increment`. */
  lemma {:induction false} AfterTicksClosedForm(angle: real, increment: real, k: nat, total: real)
    requires k >= 1 && total == k as real * increment
    ensures AfterTicks(angle, increment, k) == Mod360(angle + total)
  {
    if k == 1 {
      assert AfterTicks(angle, increment, 0) == angle;
    } else {
      var rest := total - increment;
      StepBack(increment, k, total);
      AfterTicksClosedForm(angle, increment, k - 1, rest);
      Mod360AddLeft(angle + rest, increment);
      assert angle + rest + increment == angle + total;
    }
  }

  /** One step fewer is one multiple of `increment` fewer. */
  lemma StepBack(increment: real, k: int, total: real)
    requires total == k as real * increment
    ensures total - increment == (k - 1) as real * increment
  {
    assert (k - 1) as real == k as real - 1.0;
    assert (k as real - 1.0) * increment == k as real * increment - increment;
  }

  /** Ticks whose total advance is a whole number of turns bring an angle in [0, 360) back to itself. */
  lemma FullRevolutionRestores(angle: real, increment: real, k: nat, turns: int)
    requires 0.0 <= angle < 360.0
    requires k as real * increment == 360.0 * turns as real
    ensures AfterTicks(angle, increment, k) == angle
  {
    if k >= 1 {
      var total := k as real * increment;
      AfterTicksClosedForm(angle, increment, k, total);
      assert (angle + total - angle) / 360.0 == turns as real;
      Mod360Unique(angle + total, angle);
    }
  }

  /**
   * At 60 frames per second the interval is 16 ms (floor division), so a rate
   * of 0.4 revolutions per second is a step of 2.304 degrees: 150 ticks leave
   * the angle at 345.6 degrees, and 625 ticks (four turns) restore it.
   */
  lemma SixtyFramesPerSecond(angle: real)
    requires 0.0 <= angle < 360.0
    ensures FrameInterval(60) == 16
    ensures RotationIncrement(0.4, FrameInterval(60)) == 2.304
    ensures AfterTicks(0.0, 2.304, 150) == 345.6
    ensures AfterTicks(angle, 2.304, 625) == angle
  {
    AfterTicksClosedForm(0.0, 2.304, 150, 345.6);
    Mod360Identity(345.6);
    FullRevolutionRestores(angle, 2.304, 625, 4);
  }

  /** The part of the widget's state the start/stop/enable calls drive. */
  datatype RunState = RunState(spinning: bool, timerActive: bool, timerStarts: nat, grayedOut: bool)

  /** `start()`: spinning, timer active; the timer is started only if it was not already running. */
  function Started(s: RunState): RunState {
    s.(spinning := true, timerActive := true,
       timerStarts := if s.timerActive then s.timerStarts else s.timerStarts + 1)
  }

  /** `stop()`: not spinning, timer inactive. */
  function Stopped(s: RunState): RunState {
    s.(spinning := false, timerActive := false)
  }

  /** `setEnabled(enabled)`: greyed out exactly when disabled, then `start()` or `stop()`. */
  function Enabled(s: RunState, enabled: bool): RunState {
    if enabled then Started(s.(grayedOut := false)) else Stopped(s.(grayedOut := true))
  }

  /** `setDisabled(disabled)` is `setEnabled(not disabled)`. */
  function Disabled(s: RunState, disabled: bool): RunState {
    Enabled(s, !disabled)
  }

  /**
   * Starting twice is starting once (in particular the timer is not restarted),
   * stopping twice is stopping once, and a running timer is never restarted.
   */
  lemma StartStopIdempotent(s: RunState)
    ensures Started(Started(s)) == Started(s)
    ensures Stopped(Stopped(s)) == Stopped(s)
    ensures s.timerActive ==> Started(s).timerStarts == s.timerStarts
    ensures !s.timerActive ==> Started(s).timerStarts == s.timerStarts + 1
    ensures Stopped(s).timerStarts == s.timerStarts
  {
  }

  /**
   * After `setEnabled(e)` the widget is greyed out exactly when `e` is false and
   * spins, with its timer active, exactly when `e` is true; repeating the call
   * changes nothing, and `setDisabled(d)` agrees with `setEnabled(not d)`.
   */
  lemma EnabledState(s: RunState, enabled: bool)
    ensures Enabled(s, enabled).grayedOut == !enabled
    ensures Enabled(s, enabled).spinning == enabled == Enabled(s, enabled).timerActive
    ensures Enabled(Enabled(s, enabled), enabled) == Enabled(s, enabled)
    ensures Disabled(s, !enabled) == Enabled(s, enabled)
  {
  }
}
