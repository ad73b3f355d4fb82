/**
 * The spinner widget itself: the fields it keeps, the setters that store a
 * value and rebuild what depends on it, the per-tick update and the
 * start/stop/enable calls. Painting is not modelled; the host's timer and
 * resize events become direct calls to `UpdateRotation` and `Resize`.
 */
module Spinner {
  import opened Angles
  import opened Geometry
  import opened Arcs
  import opened Gradient
  import opened Clock

  /** The widget's own settings: everything the build methods read and never write. */
  datatype Settings = Settings(
    angle: real, hueOffset: real, flip: int, revolutionsPerSecond: real, rotationIncrement: real,
    isSpinning: bool, grayedOut: bool, gapRatio: real, arrowCount: int, sweep: real,
    thicknessRatio: real, arrowWidthRatio: real, arrowLengthRatio: real, barbIndentRatio: real,
    width: nat, height: nat)

  /** The widget's `QTimer`: whether it is running, its interval, and how often its countdown was (re)armed. */
  class Timer {
    var active: bool
    var interval: int
    /** How often the countdown was (re)armed: bookkeeping of the model, not a field of `QTimer`. */
    ghost var starts: nat

    /** A new timer is inactive with interval 0. */
    constructor ()
      ensures !active && interval == 0 && starts == 0
    {
      active, interval, starts := false, 0, 0;
    }

    /** `start()`: arms the countdown afresh, restarting it if it was running. */
    method Start()
      modifies this
      ensures active && starts == old(starts) + 1 && interval == old(interval)
    {
      active, starts := true, starts + 1;
    }

    /** `stop()`. */
    method Stop()
      modifies this
      ensures !active && starts == old(starts) && interval == old(interval)
    {
      active := false;
    }

    /** `setInterval(ms)`: a running timer is restarted with the new interval. */
    method SetInterval(ms: int)
      modifies this
      ensures interval == ms && active == old(active)
      ensures starts == if old(active) then old(starts) + 1 else old(starts)
    {
      interval := ms;
      if active {
        starts := starts + 1;
      }
    }
  }

  class WaitingArrowSpinner {
    const timer: Timer

    var angle: real
    var hueOffset: real
    var flip: int
    var revolutionsPerSecond: real
    var rotationIncrement: real
    var isSpinning: bool
    var grayedOut: bool
    var gapRatio: real
    var arrowCount: int
    var sweep: real
    var thicknessRatio: real
    var arrowWidthRatio: real
    var arrowLengthRatio: real
    var barbIndentRatio: real
    var paths: seq<Outline>
    var normArcStartAngle: StartAngle
    /** Size of the widget's rectangle, which always sits at the origin. */
    var width: nat
    var height: nat
    var scaleTransform: Transform
    var translateTransform: Transform
    var transform: Transform
    var gradient: ConicalGradient

    /** The current settings, in one value. */
    ghost function Config(): Settings
      reads this`angle, this`hueOffset, this`flip, this`revolutionsPerSecond, this`rotationIncrement
      reads this`isSpinning, this`grayedOut, this`gapRatio, this`arrowCount, this`sweep
      reads this`thicknessRatio, this`arrowWidthRatio, this`arrowLengthRatio, this`barbIndentRatio
      reads this`width, this`height
    {
      Settings(angle, hueOffset, flip, revolutionsPerSecond, rotationIncrement,
               isSpinning, grayedOut, gapRatio, arrowCount, sweep,
               thicknessRatio, arrowWidthRatio, arrowLengthRatio, barbIndentRatio, width, height)
    }

    /** The parameters the arrow outline is built from. */
    function Shape(): ArcShape
      reads this`sweep, this`thicknessRatio, this`arrowWidthRatio, this`arrowLengthRatio, this`barbIndentRatio
    {
      ArcShape(sweep, thicknessRatio, arrowWidthRatio, arrowLengthRatio, barbIndentRatio)
    }

    /** The state the start/stop/enable calls drive. */
    ghost function Run(): RunState
      reads this`isSpinning, this`grayedOut, timer
    {
      RunState(isSpinning, timer.active, timer.starts, grayedOut)
    }

    /** The outlines and the start angle agree with the shape parameters. */
    ghost predicate PathsCurrent()
      reads this`arrowCount, this`paths, this`normArcStartAngle
      reads this`sweep, this`thicknessRatio, this`arrowWidthRatio, this`arrowLengthRatio, this`barbIndentRatio
    {
      arrowCount != 0 &&
      paths == RadialCopies(BaseOutline(Shape()), arrowCount) &&
      normArcStartAngle == ArcStartAngle(sweep, thicknessRatio, arrowWidthRatio, arrowLengthRatio)
    }

    /** The three transforms agree with the widget's size. */
    ghost predicate TransformsCurrent()
      reads this`width, this`height, this`scaleTransform, this`translateTransform, this`transform
    {
      scaleTransform == ScaleTransform(WidgetRect(width, height)) &&
      translateTransform == TranslateTransform(WidgetRect(width, height)) &&
      transform == ViewportTransform(width, height)
    }

    /** The gradient agrees with the count, sweep, start angle, hue offset and greyed-out flag. */
    ghost predicate GradientCurrent()
      reads this`arrowCount, this`sweep, this`normArcStartAngle, this`grayedOut, this`hueOffset, this`gradient
    {
      arrowCount != 0 &&
      gradient == ConicalGradient(normArcStartAngle, StopTable(arrowCount, sweep, ArrowPalette(grayedOut, hueOffset)))
    }

    /** The angles stay in [0, 360), the orientation is a sign and the sweep agrees with gap and count. */
    ghost predicate Settled()
      reads this`angle, this`hueOffset, this`flip, this`sweep, this`gapRatio, this`arrowCount
    {
      0.0 <= angle < 360.0 && 0.0 <= hueOffset < 360.0 &&
      (flip == 1 || flip == -1) &&
      arrowCount != 0 && sweep == Sweep(gapRatio, arrowCount)
    }

    /** The spinning flag and the timer's active flag agree. */
    ghost predicate TimerAgrees()
      reads this`isSpinning, timer`active
    {
      isSpinning == timer.active
    }

    /** The class invariant: everything derived from the settings agrees with them. */
    ghost predicate Valid()
      reads this, timer
    {
      PathsCurrent() && TransformsCurrent() && GradientCurrent() && Settled() && TimerAgrees()
    }

    /** `__init__`, for a widget of the given size. */
    constructor (w: nat, h: nat)
      ensures Valid() && fresh(timer)
      ensures angle == 0.0 && hueOffset == 0.0 && flip == 1
      ensures revolutionsPerSecond == 60.0 && rotationIncrement == 2.0 && timer.interval == 16
      ensures Run() == RunState(false, false, 0, false)
      ensures gapRatio == 0.2 && arrowCount == 3 && sweep == 96.0
      ensures thicknessRatio == 0.1 && arrowWidthRatio == 0.075
      ensures arrowLengthRatio == 0.3 && barbIndentRatio == 0.03
      ensures width == w && height == h
    {
      angle := 0.0;
      hueOffset := 0.0;
      flip := 1;
      revolutionsPerSecond := 60.0;
      rotationIncrement := 2.0;
      var t := new Timer();
      t.SetInterval(16);
      timer := t;
      isSpinning := false;
      grayedOut := false;
      gapRatio := 0.2;
      arrowCount := 3;
      thicknessRatio := 0.1;
      arrowWidthRatio := 0.075;
      arrowLengthRatio := 0.3;
      barbIndentRatio := 0.03;
      width, height := w, h;
      new;
      sweep := Sweep(gapRatio, arrowCount);
      assert Settled() && TimerAgrees();
      Rebuild();
    }

    /** `setClockwise`: only the drawing orientation changes. */
    method SetClockwise(clockwise: bool)
      requires Valid()
      modifies this`flip
      ensures Valid()
      ensures flip == if clockwise then 1 else -1
    {
      flip := if clockwise then 1 else -1;
    }

    /** `setFrameRate`: interval `1000 // rate` and the step recomputed from it; a zero rate is a division error. */
    method SetFrameRate(rate: int)
      requires Valid() && rate != 0
      modifies this`rotationIncrement, timer
      ensures Valid()
      ensures timer.interval == FrameInterval(rate)
      ensures rotationIncrement == RotationIncrement(revolutionsPerSecond, timer.interval)
      ensures timer.active == old(timer.active)
      ensures timer.starts == if old(timer.active) then old(timer.starts) + 1 else old(timer.starts)
    {
      timer.SetInterval(FloorDiv(1000, rate));
      rotationIncrement := RotationIncrement(revolutionsPerSecond, timer.interval);
    }

    /** `setRevolutionsPerSecond`: stores the rate and recomputes the step with the current interval. */
    method SetRevolutionsPerSecond(rps: real)
      requires Valid()
      modifies this`revolutionsPerSecond, this`rotationIncrement
      ensures Valid()
      ensures revolutionsPerSecond == rps
      ensures rotationIncrement == RotationIncrement(rps, timer.interval)
    {
      revolutionsPerSecond := rps;
      rotationIncrement := RotationIncrement(rps, timer.interval);
    }

    /** `setGapRatio`: stores the ratio, recomputes the sweep and rebuilds paths, transforms and gradient. */
    method SetGapRatio(ratio: real)
      requires Valid()
      modifies this`gapRatio, this`sweep, this`paths, this`normArcStartAngle
      modifies this`scaleTransform, this`translateTransform, this`transform, this`gradient
      ensures Valid()
      ensures gapRatio == ratio && sweep == Sweep(ratio, arrowCount)
    {
      gapRatio := ratio;
      sweep := Sweep(gapRatio, arrowCount);
      Rebuild();
    }

    /** `setArrowCount`: as `setGapRatio`; a zero count is a division error. */
    method SetArrowCount(count: int)
      requires Valid() && count != 0
      modifies this`arrowCount, this`sweep, this`paths, this`normArcStartAngle
      modifies this`scaleTransform, this`translateTransform, this`transform, this`gradient
      ensures Valid()
      ensures arrowCount == count && sweep == Sweep(gapRatio, count)
      ensures count >= 1 ==> |paths| == count
    {
      arrowCount := count;
      sweep := Sweep(gapRatio, arrowCount);
      Rebuild();
      RadialCopiesShape(Shape(), count);
    }

    method SetThicknessRatio(ratio: real)
      requires Valid()
      modifies this`thicknessRatio, this`paths, this`normArcStartAngle
      modifies this`scaleTransform, this`translateTransform, this`transform, this`gradient
      ensures Valid() && thicknessRatio == ratio
    {
      thicknessRatio := ratio;
      Rebuild();
    }

    method SetArrowWidthRatio(ratio: real)
      requires Valid()
      modifies this`arrowWidthRatio, this`paths, this`normArcStartAngle
      modifies this`scaleTransform, this`translateTransform, this`transform, this`gradient
      ensures Valid() && arrowWidthRatio == ratio
    {
      arrowWidthRatio := ratio;
      Rebuild();
    }

    method SetArrowLengthRatio(ratio: real)
      requires Valid()
      modifies this`arrowLengthRatio, this`paths, this`normArcStartAngle
      modifies this`scaleTransform, this`translateTransform, this`transform, this`gradient
      ensures Valid() && arrowLengthRatio == ratio
    {
      arrowLengthRatio := ratio;
      Rebuild();
    }

    method SetBarbIndentRatio(ratio: real)
      requires Valid()
      modifies this`barbIndentRatio, this`paths, this`normArcStartAngle
      modifies this`scaleTransform, this`translateTransform, this`transform, this`gradient
      ensures Valid() && barbIndentRatio == ratio
    {
      barbIndentRatio := ratio;
      Rebuild();
    }

    /** `updateRotation`, one timer tick: angle and hue advance modulo 360 and the gradient follows the hue. */
    method UpdateRotation()
      requires Valid()
      modifies this`angle, this`hueOffset, this`gradient
      ensures Valid()
      ensures angle == Mod360(old(angle) + rotationIncrement)
      ensures hueOffset == Mod360(old(hueOffset) + 1.0)
      ensures Config() == old(Config()).(angle := angle, hueOffset := hueOffset)
    {
      angle := Mod360(angle + rotationIncrement);
      hueOffset := Mod360(hueOffset + 1.0);
      BuildGradient();
    }

    /** `buildArrowArcPaths`: the base outline and its `arrowCount - 1` turned copies. */
    method BuildArrowArcPaths()
      requires arrowCount != 0
      modifies this`paths, this`normArcStartAngle
      ensures PathsCurrent() && Config() == old(Config())
      ensures unchanged(this`scaleTransform, this`translateTransform, this`transform, this`gradient)
    {
      var midRing := MidRing(thicknessRatio, arrowWidthRatio);
      normArcStartAngle := TipStartAngle(midRing.Right(), sweep * arrowLengthRatio);
      var path := BaseOutline(Shape());
      var ps := [path];
      var arrow := 1;
      assert ps == CopiesUpTo(path, arrowCount, 0) + [Rotate(path, RotationAngle(0, arrowCount))];
      while arrow < arrowCount
        invariant 1 <= arrow <= CopyCount(arrowCount)
        invariant ps == CopiesUpTo(path, arrowCount, arrow)
      {
        ps := ps + [Rotate(path, arrow as real * 360.0 / arrowCount as real)];
        arrow := arrow + 1;
      }
      paths := ps;
    }

    /** The `buildArrowArcPaths(); buildComponents()` pair each shape setter ends with. */
    method Rebuild()
      requires Settled() && TimerAgrees()
      modifies this`paths, this`normArcStartAngle
      modifies this`scaleTransform, this`translateTransform, this`transform, this`gradient
      ensures Valid() && Config() == old(Config())
    {
      BuildArrowArcPaths();
      BuildComponents();
    }

    /** `buildScaleTransform`: scale the normalised square's size to the widget's. */
    method BuildScaleTransform()
      modifies this`scaleTransform
      ensures scaleTransform == ScaleTransform(WidgetRect(width, height))
    {
      var rect := WidgetRect(width, height);
      scaleTransform := Scaling(rect.width / NormRect.width, rect.height / NormRect.height);
    }

    /** `buildTranslateTransform`: move the normalised square's corner to the widget's. */
    method BuildTranslateTransform()
      modifies this`translateTransform
      ensures translateTransform == TranslateTransform(WidgetRect(width, height))
    {
      var rect := WidgetRect(width, height);
      translateTransform := Translation(rect.x - NormRect.x, rect.y - NormRect.y);
    }

    /** `buildComponents`: both transforms, their product, then the gradient. */
    method BuildComponents()
      requires arrowCount != 0
      modifies this`scaleTransform, this`translateTransform, this`transform, this`gradient
      ensures TransformsCurrent() && GradientCurrent() && Config() == old(Config())
      ensures unchanged(this`paths, this`normArcStartAngle)
    {
      BuildScaleTransform();
      BuildTranslateTransform();
      transform := Compose(translateTransform, scaleTransform);
      BuildGradient();
    }

    /** `buildGradient`: three stops per arrow in the current palette, then the closing stop at 1.0. */
    method BuildGradient()
      requires arrowCount != 0
      modifies this`gradient
      ensures GradientCurrent() && Config() == old(Config())
      ensures unchanged(this`paths, this`normArcStartAngle, this`scaleTransform, this`translateTransform, this`transform)
    {
      var lead, mid, trail;
      if grayedOut {
        lead, mid, trail := LightGray, DarkGray, Transparent;
      } else {
        var cyanHue := Mod360(180.0 + hueOffset);
        var blueHue := Mod360(240.0 + hueOffset);
        var transHue := Mod360(120.0 + hueOffset);
        lead := Hsva(cyanHue / 360.0, 1.0, 1.0, 1.0);
        mid := Hsva(blueHue / 360.0, 1.0, 1.0, 1.0);
        trail := Hsva(transHue / 360.0, 1.0, 1.0, 0.0);
      }
      ghost var palette := Palette(lead, mid, trail);
      assert palette == ArrowPalette(grayedOut, hueOffset);
      var stops := [];
      var arrow := 0;
      while arrow < arrowCount
        invariant 0 <= arrow <= (if arrowCount >= 1 then arrowCount else 0)
        invariant stops == StopsBefore(arrow, arrowCount, sweep, palette)
      {
        var at := arrow as real / arrowCount as real;
        stops := stops + [Gradient.Stop(at, lead), Gradient.Stop(at + 0.5 * (sweep / 360.0), mid),
                          Gradient.Stop(at + sweep / 360.0, trail)];
        arrow := arrow + 1;
      }
      stops := stops + [Gradient.Stop(1.0, lead)];
      gradient := ConicalGradient(normArcStartAngle, stops);
    }

    /** `resizeEvent`: the widget now has size `w` by `h`; only the transforms (and the gradient) are rebuilt. */
    method Resize(w: nat, h: nat)
      requires Valid()
      modifies this`width, this`height
      modifies this`scaleTransform, this`translateTransform, this`transform, this`gradient
      ensures Valid()
      ensures width == w && height == h && transform == ViewportTransform(w, h)
      ensures gradient == old(gradient) && Config() == old(Config()).(width := w, height := h)
      ensures old(width) == w && old(height) == h ==> transform == old(transform)
    {
      width, height := w, h;
      BuildComponents();
    }

    /** `start`: spinning, and the timer started unless it already runs. */
    method Start()
      requires TimerAgrees()
      modifies this`isSpinning, timer
      ensures TimerAgrees() && (old(Valid()) ==> Valid())
      ensures Run() == Started(old(Run())) && timer.interval == old(timer.interval)
    {
      isSpinning := true;
      if !timer.active {
        timer.Start();
      }
    }

    /** `stop`: not spinning, and the timer stopped if it runs. */
    method Stop()
      requires TimerAgrees()
      modifies this`isSpinning, timer
      ensures TimerAgrees() && (old(Valid()) ==> Valid())
      ensures Run() == Stopped(old(Run())) && timer.interval == old(timer.interval)
    {
      isSpinning := false;
      if timer.active {
        timer.Stop();
      }
    }

    /** `setEnabled`: greyed out exactly when disabled, started or stopped to match, gradient rebuilt. */
    method SetEnabled(enabled: bool)
      requires Valid()
      modifies this`grayedOut, this`isSpinning, timer, this`gradient
      ensures Valid()
      ensures Run() == Enabled(old(Run()), enabled) && timer.interval == old(timer.interval)
      ensures Config() == old(Config()).(grayedOut := !enabled, isSpinning := enabled)
    {
      grayedOut := !enabled;
      if enabled {
        Start();
      } else {
        Stop();
      }
      BuildGradient();
    }

    /** `setDisabled`: `setEnabled(not disabled)`. */
    method SetDisabled(disabled: bool)
      requires Valid()
      modifies this`grayedOut, this`isSpinning, timer, this`gradient
      ensures Valid()
      ensures Run() == Disabled(old(Run()), disabled) && timer.interval == old(timer.interval)
    {
      SetEnabled(!disabled);
    }
  }
}
