# Waiting-arrow spinner: a verified model

`WaitingArrowSpinnerWidget` is a PyQt6 busy indicator. It draws `arrowCount`
curved arrows round a circle and fills them with a conical gradient. A
`QTimer` turns them and cycles the gradient's hue. This project models the
widget's state and arithmetic in Dafny, with the Qt drawing calls taken out.
It proves what the widget's code promises about that state and arithmetic.

The model has six modules:

- `Angles`: Python's float `x % 360`, which is `Mod360`, and the "same angle
  up to whole turns" relation.
- `Geometry`: `QRectF` with margins taken off, and the affine part of
  `QTransform`. Qt multiplies row vectors, so `a * b` applies `a` first. This
  module also holds the viewport transform, which maps the 1000 × 1000
  normalised square onto the widget.
- `Arcs`: the arc sweep `(1 − gap) × 360 / count`, and the three rings an
  outline is drawn between.
  - It also models the radial duplication of one outline into `arrowCount`
    copies. An outline is opaque: it is the shape it was built from plus the
    angle it has been turned by.
- `Gradient`: the three-colour palette, which cycles with the hue or is
  fixed greys when greyed out, and the table of `setColorAt` stops. There
  are three stops per arrow and a closing stop at 1.0.
- `Clock`: the timer interval `1000 // rate`, and the per-tick step
  `rps × interval × 360 / 1000`.
  - It defines `k` ticks of the angle, and the start/stop/enable transitions
    as functions on a small `RunState`.
- `Spinner`: the widget as a class `WaitingArrowSpinner` with the fields of
  the Python object, and a class `Timer` standing for the `QTimer`.
  - Every setter stores its value and rebuilds what depends on it, as the
    source does.
  - The build methods keep the append loops of the source: the outlines at
    lines 118-121, and the stops at lines 149-153 and 163-167.
  - The class invariant `Valid()` says the derived fields agree with the
    settings:
    - the paths, the start angle, the three transforms and the gradient;
    - the angle and hue lie in [0, 360);
    - the spinning flag matches the timer.

The host's event loop is not modelled. A timer tick is a direct call to
`UpdateRotation`, and a resize is `Resize(w, h)`.

In a few places the code does not do what its names and comments suggest.
The model follows the code:

- **Setters validate nothing.**
  - The only requirements are the ones the code itself imposes. `count != 0`
    in `setArrowCount` and `rate != 0` in `setFrameRate` each avoid a Python
    `ZeroDivisionError`.
  - A negative arrow count goes through. It gives one path, because
    `range(1, n)` is empty, and no arrow stops at all.
  - A gap ratio outside (0, 1] also goes through.
- **The frame interval is floor division.** One might expect 60 frames per
  second to give 1000/60 ≈ 16.67 ms. The code computes `1000 // rate`, which
  is 16 ms.
- **A turn at 0.4 revolutions per second takes more than 150 ticks.** One
  might expect 60 fps at 0.4 rps to bring the angle back after 150 ticks,
  that is, 2.5 seconds. With the 16 ms interval the step is 2.304°, and after
  150 ticks the angle is 345.6°, not 0°. It takes 625 ticks, four whole turns,
  to come back: see `Clock.SixtyFramesPerSecond`.
- **The initial step does not match the initial rate.** The constructor sets
  the rotation increment to 2 and the revolution rate to 60. The formula
  would give 60 × 16 × 360 / 1000 = 345.6 for those values. The model keeps
  both constants as written.

## Model

| member | source | states |
|---|---|---|
| `Angles.Mod360` | waitingarrowspinnerwidget.py:79-80 | Python's `x % 360` on floats. The result lies in [0, 360) and differs from `x` by a whole number of turns. |
| `Angles.Mod360Unique` | waitingarrowspinnerwidget.py:79 | The reduced angle is the only value in [0, 360) that is the same angle as `x`. |
| `Angles.Mod360AddLeft` | waitingarrowspinnerwidget.py:79 | Reducing the angle and then adding a step gives the same reduced angle as adding first. |
| `Geometry.Shrink` | waitingarrowspinnerwidget.py:94-97 | `rect - QMarginsF(m, m, m, m)` moves every edge inward by `m` and keeps the centre. |
| `Geometry.Map` | waitingarrowspinnerwidget.py:124-138 | Definition: `QTransform.map` of a point in the row-vector convention, `(m11·x + m21·y + dx, m12·x + m22·y + dy)`. |
| `Geometry.Scaling` | waitingarrowspinnerwidget.py:131 | Definition: `QTransform().scale(sx, sy)`, the diagonal matrix with no translation. |
| `Geometry.Translation` | waitingarrowspinnerwidget.py:138 | Definition: `QTransform().translate(tx, ty)`, the identity matrix with offset `(tx, ty)`. |
| `Geometry.Compose` | waitingarrowspinnerwidget.py:178 | Definition: the product `a * b` of two transforms. `ComposeMap` proves it maps through `a` first. |
| `Geometry.ScaleTransform` | waitingarrowspinnerwidget.py:124-131 | Definition: scales by the widget rectangle's width and height over the normalised square's (1000 each). |
| `Geometry.TranslateTransform` | waitingarrowspinnerwidget.py:133-138 | Definition: translates by the widget rectangle's corner less the normalised square's corner `(-500, -500)`. |
| `Geometry.ViewportTransform` | waitingarrowspinnerwidget.py:178 | Definition: `translate * scale` for the widget rectangle `(0, 0, w, h)`; `ViewportMap` gives its action on points. |
| `Geometry.ComposeMap` | waitingarrowspinnerwidget.py:178 | `translate * scale` maps a point through the translation first, then the scaling. |
| `Geometry.ViewportMap` | waitingarrowspinnerwidget.py:124-138 | The widget transform sends a normalised `(x, y)` to `((x + 500)·w/1000, (y + 500)·h/1000)`. |
| `Geometry.ViewportCorners` | waitingarrowspinnerwidget.py:174-178 | `(-500, -500)` goes to `(0, 0)`, `(500, 500)` goes to `(w, h)`, and the origin goes to the widget's centre. |
| `Geometry.ViewportInside` | waitingarrowspinnerwidget.py:174-178 | Every point of the normalised square lands inside the widget rectangle. |
| `Geometry.ViewportRoundTrip` | waitingarrowspinnerwidget.py:128-138 | For a non-empty widget the transform and `Normalise` undo each other, in both directions. |
| `Arcs.Sweep` | waitingarrowspinnerwidget.py:48 | Definition: `(1 - gap) * (360 / count)`, the degrees one arc spans; the same expression is at lines 26 and 54. |
| `Arcs.SweepBounds` | waitingarrowspinnerwidget.py:46-56 | Sweep plus `gap × slot` fills the `360/count` slot exactly. For count ≥ 1 and gap in (0, 1] the sweep lies in [0, slot); for gap in [0, 1) it is positive. |
| `Arcs.SweepGapRoundTrip` | waitingarrowspinnerwidget.py:48 | For a fixed count, the gap ratio and the sweep determine each other. |
| `Arcs.RotationAngle` | waitingarrowspinnerwidget.py:120 | Definition: copy `k` is turned by `k * 360 / count` degrees. |
| `Arcs.CopiesUpTo` | waitingarrowspinnerwidget.py:118-121 | Definition: the path list after the base and the first `k - 1` loop steps: entry `i` is the base turned by `RotationAngle(i)`. |
| `Arcs.RadialCopies` | waitingarrowspinnerwidget.py:118-121 | Definition: the full path list, `CopiesUpTo` with `count` entries (one when `range(1, count)` is empty). |
| `Arcs.CopiesUpToEntries` | waitingarrowspinnerwidget.py:118-121 | After `k` appends the list has `k` outlines, and outline `i` is the base turned by `i × 360 / count`. |
| `Arcs.RadialCopiesShape` | waitingarrowspinnerwidget.py:118-121 | The path list holds `count` outlines (one when count ≤ 1). Element 0 is the base outline, and element `k` is it turned by `k` slots. |
| `Arcs.RotationsWithinTurn` | waitingarrowspinnerwidget.py:119-120 | The copies' angles lie in [0, 360) and rise by one slot from copy to copy. |
| `Arcs.RadialSymmetry` | waitingarrowspinnerwidget.py:119-120 | Turning by one slot carries copy `k` onto copy `(k + 1) mod count`, so the last copy wraps to the first. |
| `Arcs.NextCopy` | waitingarrowspinnerwidget.py:119-120 | Below the last copy, turning copy `k` by one slot gives copy `k + 1`, already inside [0, 360). |
| `Arcs.LastCopyWraps` | waitingarrowspinnerwidget.py:119-120 | Turning the last copy by one slot makes a whole turn, which reduces to copy 0. |
| `Arcs.OuterRing` | waitingarrowspinnerwidget.py:94 | Definition: the normalised square less `arrowWidthRatio × 1000` on every side. |
| `Arcs.MidRing` | waitingarrowspinnerwidget.py:95 | Definition: the outer ring less half the body thickness `0.5 × 1000 × thicknessRatio` on every side. |
| `Arcs.InnerRing` | waitingarrowspinnerwidget.py:96 | Definition: the outer ring less the full body thickness `1000 × thicknessRatio` on every side. |
| `Arcs.RingsNested` | waitingarrowspinnerwidget.py:94-96 | Each ring's right edge is given outright, and all three rings are centred on the origin in both axes. For a non-negative thickness the rings nest, inner inside mid inside outer: both their right and their bottom edges are ordered. |
| `Arcs.ArcStartAngle` | waitingarrowspinnerwidget.py:101-103 | Definition: the start angle as the term it is computed from, the tip on the mid ring's right edge turned `sweep × arrowLengthRatio` degrees. |
| `Gradient.PaletteColours` | waitingarrowspinnerwidget.py:144-161 | Greyed out, the palette is opaque light grey, opaque dark grey and transparent, whatever the hue. Otherwise the hues are 180°, 240° and 120° turned by the offset, and only the third colour is transparent. |
| `Gradient.HueColor` | waitingarrowspinnerwidget.py:156-161 | Definition: `fromHsvF((base + offset) % 360 / 360, 1, 1, alpha)`. |
| `Gradient.ArrowPalette` | waitingarrowspinnerwidget.py:144-161 | Definition: light grey, dark grey and transparent when greyed out; otherwise the colours at hues 180, 240 and 120 turned by the offset, the last with alpha 0. |
| `Gradient.HueColorDegrees` | waitingarrowspinnerwidget.py:156-161 | `fromHsvF((base + h) % 360 / 360, …)` is a valid hue fraction, and it stands for `(base + h) mod 360` degrees. |
| `Gradient.ArrowStops` | waitingarrowspinnerwidget.py:164-166 | Definition: arrow `i`'s three `setColorAt` calls, at `i/n`, `i/n + sweep/720` and `i/n + sweep/360`. |
| `Gradient.StopsBefore` | waitingarrowspinnerwidget.py:163-166 | Definition: the stops the loop has set after arrows `0 .. k - 1`, in call order. |
| `Gradient.StopTable` | waitingarrowspinnerwidget.py:149-153 | Definition: the stops of every arrow of `range(n)`, then the closing stop at 1.0 in the lead colour. |
| `Gradient.StopsBeforeLayout` | waitingarrowspinnerwidget.py:163-166 | After `k` arrows the loop has emitted `3k` stops, and stops `3i .. 3i+2` are arrow `i`'s lead, middle and trail stops. |
| `Gradient.StopTableLayout` | waitingarrowspinnerwidget.py:149-153 | There are `3n + 1` stops. The positions are `i/n`, `i/n + sweep/720` and `i/n + sweep/360`. The last stop is at 1.0 and repeats the lead colour. |
| `Gradient.PositionInRange` | waitingarrowspinnerwidget.py:150-152 | When the arc fits its slot, every stop position lies in [0, 1]. |
| `Gradient.TrailBeforeNextLead` | waitingarrowspinnerwidget.py:150-152 | An arrow's trail stop comes no later than the next arrow's lead stop. It comes strictly earlier when the arc is shorter than its slot. |
| `Gradient.PositionMonotone` | waitingarrowspinnerwidget.py:163-167 | Positions never decrease along the table. They rise strictly when 0 < sweep < slot. |
| `Gradient.PositionsOfTable` | waitingarrowspinnerwidget.py:163-167 | Stop `j`'s position is the one its place in the layout gives it. |
| `Gradient.StopTableOrdered` | waitingarrowspinnerwidget.py:163-167 | The table is non-decreasing and lies within [0, 1]. When 0 < sweep < slot it is strictly increasing. |
| `Gradient.GapRatioOrdersStops` | waitingarrowspinnerwidget.py:149-153 | For count ≥ 1 and gap in [0, 1] the stops are ordered and lie in [0, 1]. For gap in (0, 1) no two stops share a position. |
| `Clock.FloorDiv` | waitingarrowspinnerwidget.py:39 | Python's `//` on integers: the quotient is the floor of the real quotient, for either sign of divisor. |
| `Clock.FrameInterval` | waitingarrowspinnerwidget.py:39 | Definition: the timer interval `1000 // rate`. |
| `Clock.FrameIntervalFits` | waitingarrowspinnerwidget.py:39 | For a positive rate, the interval is the largest whole number of ms with `interval × rate ≤ 1000`. |
| `Clock.RotationIncrement` | waitingarrowspinnerwidget.py:40 | Definition: the per-tick step `rps × interval × 360 / 1000`; line 44 computes the same. |
| `Clock.IncrementMatchesRate` | waitingarrowspinnerwidget.py:40-44 | Over a second of ticks the step turns `rps` revolutions. The step and the revolution rate determine each other. |
| `Clock.AfterTicks` | waitingarrowspinnerwidget.py:79 | Definition: `k` repetitions of `angle = (angle + increment) % 360`. |
| `Clock.AfterTicksClosedForm` | waitingarrowspinnerwidget.py:79 | `k` ticks, each reduced mod 360, equal one reduction of the whole advance `k × increment`. |
| `Clock.FullRevolutionRestores` | waitingarrowspinnerwidget.py:79 | Ticks whose total advance is a whole number of turns bring an angle in [0, 360) back to itself. |
| `Clock.SixtyFramesPerSecond` | waitingarrowspinnerwidget.py:38-40 | At 60 fps the interval is 16 and 0.4 rps gives a step of 2.304. After 150 ticks the angle is 345.6, and 625 ticks restore any angle. |
| `Clock.Started` | waitingarrowspinnerwidget.py:213-217 | Definition: `start()` on the run state: spinning, timer active, and one more start only when the timer was idle. |
| `Clock.Stopped` | waitingarrowspinnerwidget.py:219-223 | Definition: `stop()` on the run state: neither spinning nor active. |
| `Clock.Enabled` | waitingarrowspinnerwidget.py:225-233 | Definition: `setEnabled(e)`: greyed out iff `¬e`, then `start()` or `stop()`. |
| `Clock.Disabled` | waitingarrowspinnerwidget.py:235-236 | Definition: `setDisabled(d)` is `setEnabled(¬d)`. |
| `Clock.StartStopIdempotent` | waitingarrowspinnerwidget.py:213-223 | Starting twice is starting once, and stopping twice is stopping once. A running timer is not restarted; an idle one is started once. |
| `Clock.EnabledState` | waitingarrowspinnerwidget.py:225-236 | After `setEnabled(e)`: greyed out iff `¬e`, spinning and timer active iff `e`. Repeating the call changes nothing, and `setDisabled(d)` equals `setEnabled(¬d)`. |
| `Spinner.Timer.constructor` | waitingarrowspinnerwidget.py:19 | A new timer is inactive with interval 0. |
| `Spinner.Timer.Start` | waitingarrowspinnerwidget.py:216 | Starting arms the countdown again and leaves the interval alone. |
| `Spinner.Timer.Stop` | waitingarrowspinnerwidget.py:222 | Stopping makes the timer inactive and changes nothing else. |
| `Spinner.Timer.SetInterval` | waitingarrowspinnerwidget.py:21 | Sets the interval. A running timer is restarted; an idle one stays idle. |
| `Spinner.WaitingArrowSpinner.constructor` | waitingarrowspinnerwidget.py:12-32 | Sets every default value (sweep 96 among them) with the timer idle at 16 ms. The invariant holds. |
| `Spinner.WaitingArrowSpinner.SetClockwise` | waitingarrowspinnerwidget.py:35-36 | Only the orientation changes, to ±1. |
| `Spinner.WaitingArrowSpinner.SetFrameRate` | waitingarrowspinnerwidget.py:38-40 | The interval becomes `1000 // rate` and the step is recomputed from it. The timer stays in the same running state, and a running timer is restarted. |
| `Spinner.WaitingArrowSpinner.SetRevolutionsPerSecond` | waitingarrowspinnerwidget.py:42-44 | Stores the rate and recomputes the step with the current interval. |
| `Spinner.WaitingArrowSpinner.SetGapRatio` | waitingarrowspinnerwidget.py:46-50 | Stores the ratio, recomputes the sweep, and rebuilds paths, transforms and gradient. The invariant holds. |
| `Spinner.WaitingArrowSpinner.SetArrowCount` | waitingarrowspinnerwidget.py:52-56 | Stores the count and recomputes the sweep. For count ≥ 1 there are then exactly `count` paths; the rest are rebuilt. |
| `Spinner.WaitingArrowSpinner.SetThicknessRatio` | waitingarrowspinnerwidget.py:58-61 | Stores the ratio and rebuilds. The invariant holds. |
| `Spinner.WaitingArrowSpinner.SetArrowWidthRatio` | waitingarrowspinnerwidget.py:63-66 | Stores the ratio and rebuilds. The invariant holds. |
| `Spinner.WaitingArrowSpinner.SetArrowLengthRatio` | waitingarrowspinnerwidget.py:68-71 | Stores the ratio and rebuilds. The invariant holds. |
| `Spinner.WaitingArrowSpinner.SetBarbIndentRatio` | waitingarrowspinnerwidget.py:73-76 | Stores the ratio and rebuilds. The invariant holds. |
| `Spinner.WaitingArrowSpinner.UpdateRotation` | waitingarrowspinnerwidget.py:78-82 | One tick: angle becomes `(angle + step) % 360` and hue becomes `(hue + 1) % 360`, both staying in [0, 360). No other setting changes, and the gradient follows the new hue. |
| `Spinner.WaitingArrowSpinner.BuildArrowArcPaths` | waitingarrowspinnerwidget.py:118-121 | The append loop yields exactly the radial copies of the base outline. It also stores the tip's start angle. |
| `Spinner.WaitingArrowSpinner.Rebuild` | waitingarrowspinnerwidget.py:49-50 | `buildArrowArcPaths(); buildComponents()` restores the invariant and changes no setting. |
| `Spinner.WaitingArrowSpinner.BuildScaleTransform` | waitingarrowspinnerwidget.py:124-131 | The scale is the widget size over the normalised size. |
| `Spinner.WaitingArrowSpinner.BuildTranslateTransform` | waitingarrowspinnerwidget.py:133-138 | The translation moves the normalised corner onto the widget's corner. |
| `Spinner.WaitingArrowSpinner.BuildComponents` | waitingarrowspinnerwidget.py:174-186 | Builds both transforms, their product and the gradient. Paths and settings are untouched. |
| `Spinner.WaitingArrowSpinner.BuildGradient` | waitingarrowspinnerwidget.py:141-168 | The loop emits exactly the stop table for the current count, sweep and palette, with the current start angle. |
| `Spinner.WaitingArrowSpinner.Resize` | waitingarrowspinnerwidget.py:170-172 | Only the size and the transforms change. Resizing to the same size gives the same transform. |
| `Spinner.WaitingArrowSpinner.Start` | waitingarrowspinnerwidget.py:213-217 | Spinning. The timer is started only if it was idle: the state is `Started(old state)`. |
| `Spinner.WaitingArrowSpinner.Stop` | waitingarrowspinnerwidget.py:219-223 | Not spinning, and the timer is stopped: the state is `Stopped(old state)`. |
| `Spinner.WaitingArrowSpinner.SetEnabled` | waitingarrowspinnerwidget.py:225-233 | The state is `Enabled(old state, e)`. Angle, hue and every other setting are untouched, and the gradient is rebuilt. |
| `Spinner.WaitingArrowSpinner.SetDisabled` | waitingarrowspinnerwidget.py:235-236 | The state is `Disabled(old state, d)`, which `Clock.EnabledState` equates with `setEnabled(¬d)`. |

## Left out

- **Painting.** `paintEvent` and `drawArrowPaths` (lines 189-211) are not
  modelled. They are rasterisation through `QPainter` and `QBrush`;
  `setClockwise` therefore only stores the orientation sign.
- **Outline geometry.** The `QPainterPath` lines and arcs at lines 107-116
  are not modelled: an outline is the shape it was built from plus its
  rotation. `QTransform().rotate(d).map(path)` is modelled as adding `d` to
  that rotation.
- **Trigonometry of the tip.** `tan`, `atan2` and `degrees` at lines 101-103
  are not evaluated. The start angle is kept symbolically as the tip's ring
  edge and turn, in the datatype `Arcs.StartAngle`.
- **`_arc_start_angle` (lines 180-184).** It is not modelled: its value is
  never read, and it is floating-point trigonometry.
- **Unused code.** The expression statement at line 99 has no effect and is
  not modelled. `_currentCounter` is only ever reset and is not modelled
  either.
- **Host event loop.** Timer delivery, `update()` repaint requests,
  `super().resizeEvent` and `super().setEnabled` are left out. A tick is a
  direct call to `UpdateRotation`, and a resize is `Resize(w, h)`.
- **Colour and gradient internals.** `QColor.fromHsvF`'s conversion to RGB
  and its 16-bit rounding are left out, so a colour is its `(h, s, v, a)`
  fractions.
  - `th.setAlpha(0)` repeats an alpha that is already 0, so it is not
    modelled separately.
  - `QGradient`'s own handling of stops is left out: keeping the stops
    sorted by position, replacing a stop at an equal position, and dropping
    positions outside [0, 1]. The gradient is the sequence of `setColorAt`
    calls in call order. For a gap ratio outside [0, 1] (a sweep wider than
    its slot, or a negative sweep) those calls come out of position order,
    so Qt's stored stops would be ordered differently.
- **Floating point.** Arithmetic is on exact reals. Python's float rounding,
  for example of `360 / 3`, is not modelled.
- **Integer and float types.** The source's int/float distinction for the
  revolution rate and the step is not modelled: both are reals.
- SetArrowCount: a count of 0 is excluded by its precondition. In the code,
  `setArrowCount(0)` stores the count at line 53 and only then raises
  `ZeroDivisionError` at line 54. The widget is left half-updated: the count
  is 0 while sweep, paths and transforms are the old ones. Every later tick
  then rebuilds a gradient with only the closing stop at 1.0. The model does
  not capture this partial update.
- SetFrameRate: a negative rate is accepted, as in the code, and gives a
  negative interval. Qt refuses to run a `QTimer` with a negative interval,
  so such a spinner would never tick. The model keeps the negative interval
  and does not model Qt's refusal. The demo only passes rates from 1 to 240.
- **The demo application.** `demo.py` is not part of this model; it is UI
  wiring of spin boxes to the setters.
