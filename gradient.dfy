/**
 * The conical gradient the arcs are filled with: a palette of three colours
 * (hue-cycling, or fixed greys when the widget is disabled) and the table of
 * colour stops, three per arrow plus a closing stop at 1.0.
 */
module Gradient {
  import opened Angles
  import opened Arcs

  /** A colour as given to `QColor.fromHsvF`: hue, saturation, value and alpha, each a fraction. */
  datatype Color = Hsva(hue: real, saturation: real, value: real, alpha: real)

  const LightGray: Color := Hsva(0.0, 0.0, 0.7, 1.0)
  const DarkGray: Color := Hsva(0.0, 0.0, 0.3, 1.0)
  const Transparent: Color := Hsva(0.0, 0.0, 0.0, 0.0)

  /** The colours of an arrow's leading, middle and trailing stops. */
  datatype Palette = Palette(lead: Color, mid: Color, trail: Color)

  /** A fully saturated, full-value colour whose hue is `baseHue` turned by `hueOffset` degrees. */
  function HueColor(baseHue: real, hueOffset: real, alpha: real): Color {
    Hsva(Mod360(baseHue + hueOffset) / 360.0, 1.0, 1.0, alpha)
  }

  /** The palette: greys when greyed out, otherwise cyan, blue and a transparent green shifted by the hue offset. */
  function ArrowPalette(grayedOut: bool, hueOffset: real): Palette {
    if grayedOut then
      Palette(LightGray, DarkGray, Transparent)
    else
      Palette(HueColor(180.0, hueOffset, 1.0), HueColor(240.0, hueOffset, 1.0), HueColor(120.0, hueOffset, 0.0))
  }

  /** The hue, in degrees, a colour stands for. */
  function HueDegrees(c: Color): real {
    c.hue * 360.0
  }

  /**
   * Greyed out, the palette is opaque light grey, opaque dark grey and
   * transparent whatever the hue offset. Otherwise the hues are 180, 240 and
   * 120 degrees turned by the offset, all valid hue fractions, and only the
   * trailing colour is transparent.
   */
  lemma PaletteColours(grayedOut: bool, hueOffset: real, otherOffset: real)
    ensures grayedOut ==> ArrowPalette(grayedOut, hueOffset) == ArrowPalette(grayedOut, otherOffset)
    ensures grayedOut ==> var p := ArrowPalette(grayedOut, hueOffset);
      p.lead.alpha == 1.0 && p.mid.alpha == 1.0 && p.trail.alpha == 0.0 &&
      p.lead.saturation == p.mid.saturation == 0.0 && p.lead.value > p.mid.value
    ensures !grayedOut ==> var p := ArrowPalette(grayedOut, hueOffset);
      p.lead.alpha == 1.0 && p.mid.alpha == 1.0 && p.trail.alpha == 0.0 &&
      0.0 <= p.lead.hue < 1.0 && 0.0 <= p.mid.hue < 1.0 && 0.0 <= p.trail.hue < 1.0 &&
      SameAngle(180.0 + hueOffset, HueDegrees(p.lead)) &&
      SameAngle(240.0 + hueOffset, HueDegrees(p.mid)) &&
      SameAngle(120.0 + hueOffset, HueDegrees(p.trail))
  {
    if !grayedOut {
      HueColorDegrees(180.0, hueOffset, 1.0);
      HueColorDegrees(240.0, hueOffset, 1.0);
      HueColorDegrees(120.0, hueOffset, 0.0);
    }
  }

  lemma HueColorDegrees(baseHue: real, hueOffset: real, alpha: real)
    ensures 0.0 <= HueColor(baseHue, hueOffset, alpha).hue < 1.0
    ensures HueDegrees(HueColor(baseHue, hueOffset, alpha)) == Mod360(baseHue + hueOffset)
  {
    var m := Mod360(baseHue + hueOffset);
    assert m / 360.0 * 360.0 == m;
  }

  /** One entry of `QGradient.setColorAt`. */
  datatype Stop = Stop(position: real, color: Color)

  /** The gradient handed to the painter: start angle and the stops in the order they were set. */
  datatype ConicalGradient = ConicalGradient(startAngle: StartAngle, stops: seq<Stop>)

  /** Where arrow `i` begins: `i / n` of the turn. */
  function LeadPosition(i: int, n: int): real
    requires n != 0
  {
    i as real / n as real
  }

  /** Half-way along arrow `i`'s arc. */
  function MidPosition(i: int, n: int, sweep: real): real
    requires n != 0
  {
    LeadPosition(i, n) + 0.5 * (sweep / 360.0)
  }

  /** Where arrow `i`'s arc ends. */
  function TrailPosition(i: int, n: int, sweep: real): real
    requires n != 0
  {
    LeadPosition(i, n) + sweep / 360.0
  }

  /** The three stops set for arrow `i`. */
  function ArrowStops(i: int, n: int, sweep: real, p: Palette): seq<Stop>
    requires n != 0
  {
    [Stop(LeadPosition(i, n), p.lead), Stop(MidPosition(i, n, sweep), p.mid), Stop(TrailPosition(i, n, sweep), p.trail)]
  }

  /** The stops set for arrows `0 .. k - 1`, in order. */
  function StopsBefore(k: nat, n: int, sweep: real, p: Palette): seq<Stop>
    requires n != 0
  {
    if k == 0 then [] else StopsBefore(k - 1, n, sweep, p) + ArrowStops(k - 1, n, sweep, p)
  }

  /** The whole table: the stops of every arrow of `range(n)`, then the closing stop at 1.0. */
  function StopTable(n: int, sweep: real, p: Palette): seq<Stop>
    requires n != 0
  {
    StopsBefore(if n >= 1 then n else 0, n, sweep, p) + [Stop(1.0, p.lead)]
  }

  /** Stops `3i`, `3i+1`, `3i+2` are arrow `i`'s leading, middle and trailing stops. */
  lemma {:induction false} StopsBeforeLayout(k: nat, n: int, sweep: real, p: Palette)
    requires n != 0
    ensures |StopsBefore(k, n, sweep, p)| == 3 * k
    ensures forall i :: 0 <= i < k ==> StopsBefore(k, n, sweep, p)[3 * i .. 3 * i + 3] == ArrowStops(i, n, sweep, p)
  {
    if k > 0 {
      StopsBeforeLayout(k - 1, n, sweep, p);
      var prev, s := StopsBefore(k - 1, n, sweep, p), StopsBefore(k, n, sweep, p);
      assert s == prev + ArrowStops(k - 1, n, sweep, p);
      forall i | 0 <= i < k
        ensures s[3 * i .. 3 * i + 3] == ArrowStops(i, n, sweep, p)
      {
        if i < k - 1 {
          assert s[3 * i .. 3 * i + 3] == prev[3 * i .. 3 * i + 3];
        } else {
          assert s[3 * i .. 3 * i + 3] == s[|prev| ..];
        }
      }
    }
  }

  /**
   * The table has `3n + 1` stops for `n >= 1` arrows (just the closing stop
   * otherwise); arrow `i` owns stops `3i .. 3i+2` with positions `i/n`,
   * `i/n + sweep/720` and `i/n + sweep/360`; the closing stop at 1.0 repeats
   * the leading colour.
   */
  lemma StopTableLayout(n: int, sweep: real, p: Palette, i: int)
    requires n != 0
    ensures var t := StopTable(n, sweep, p);
      |t| == 3 * (if n >= 1 then n else 0) + 1 &&
      t[|t| - 1] == Stop(1.0, p.lead) &&
      (0 <= i < n ==>
        t[3 * i] == Stop(i as real / n as real, p.lead) &&
        t[3 * i + 1] == Stop(i as real / n as real + 0.5 * (sweep / 360.0), p.mid) &&
        t[3 * i + 2] == Stop(i as real / n as real + sweep / 360.0, p.trail))
  {
    var k := if n >= 1 then n else 0;
    StopsBeforeLayout(k, n, sweep, p);
    var t := StopTable(n, sweep, p);
    if 0 <= i < n {
      assert t[3 * i .. 3 * i + 3] == StopsBefore(k, n, sweep, p)[3 * i .. 3 * i + 3];
      assert t[3 * i .. 3 * i + 3] == ArrowStops(i, n, sweep, p);
      assert t[3 * i] == t[3 * i .. 3 * i + 3][0];
      assert t[3 * i + 1] == t[3 * i .. 3 * i + 3][1];
      assert t[3 * i + 2] == t[3 * i .. 3 * i + 3][2];
    }
  }

  /** Position of stop `j` of the table, read off its layout. */
  function PositionAt(j: nat, n: int, sweep: real): real
    requires n >= 1
  {
    if j >= 3 * n then 1.0
    else if j % 3 == 0 then LeadPosition(j / 3, n)
    else if j % 3 == 1 then MidPosition(j / 3, n, sweep)
    else TrailPosition(j / 3, n, sweep)
  }

  /** Every position of the table lies in [0, 1] when the arc fits its slot. */
  lemma PositionInRange(j: nat, n: int, sweep: real)
    requires n >= 1 && 0.0 <= sweep <= 360.0 / n as real && j <= 3 * n
    ensures 0.0 <= PositionAt(j, n, sweep) <= 1.0
  {
    if j < 3 * n {
      TrailBeforeNextLead(j / 3, n, sweep);
      LeadMonotone(j / 3 + 1, n, n);
    }
  }

  lemma TrailBeforeNextLead(i: int, n: int, sweep: real)
    requires n >= 1 && 0 <= i && sweep <= 360.0 / n as real
    ensures TrailPosition(i, n, sweep) <= LeadPosition(i + 1, n)
    ensures sweep < 360.0 / n as real ==> TrailPosition(i, n, sweep) < LeadPosition(i + 1, n)
  {
    var N := n as real;
    assert LeadPosition(i + 1, n) == i as real / N + 1.0 / N;
    assert (360.0 / N) / 360.0 == 1.0 / N;
  }

  lemma LeadMonotone(i: int, k: int, n: int)
    requires n >= 1 && i <= k
    ensures LeadPosition(i, n) <= LeadPosition(k, n)
  {
  }

  /** Positions never decrease along the table; they rise strictly when the arc is non-empty and shorter than its slot. */
  lemma PositionMonotone(a: nat, b: nat, n: int, sweep: real)
    requires n >= 1 && 0.0 <= sweep <= 360.0 / n as real && a < b <= 3 * n
    ensures PositionAt(a, n, sweep) <= PositionAt(b, n, sweep)
    ensures 0.0 < sweep < 360.0 / n as real ==> PositionAt(a, n, sweep) < PositionAt(b, n, sweep)
  {
    var ia := a / 3;
    TrailBeforeNextLead(ia, n, sweep);
    if b == 3 * n {
      LeadMonotone(ia + 1, n, n);
      assert LeadPosition(n, n) == 1.0;
    } else if b / 3 == ia {
    } else {
      LeadMonotone(ia + 1, b / 3, n);
    }
  }

  /** The positions of the stops in a sequence never decrease. */
  predicate NonDecreasing(t: seq<Stop>) {
    forall a, b :: 0 <= a < b < |t| ==> t[a].position <= t[b].position
  }

  /** The positions of the stops in a sequence strictly increase. */
  predicate StrictlyIncreasing(t: seq<Stop>) {
    forall a, b :: 0 <= a < b < |t| ==> t[a].position < t[b].position
  }

  lemma PositionsOfTable(n: int, sweep: real, p: Palette, j: nat)
    requires n >= 1 && j < |StopTable(n, sweep, p)|
    ensures StopTable(n, sweep, p)[j].position == PositionAt(j, n, sweep)
  {
    StopTableLayout(n, sweep, p, j / 3);
  }

  /**
   * For at least one arrow and an arc that fits its slot the stop positions
   * never decrease and lie in [0, 1]; for an arc strictly between empty and
   * its full slot they strictly increase, so no two stops share a position.
   */
  lemma StopTableOrdered(n: int, sweep: real, p: Palette)
    requires n >= 1 && 0.0 <= sweep <= 360.0 / n as real
    ensures NonDecreasing(StopTable(n, sweep, p))
    ensures forall j :: 0 <= j < |StopTable(n, sweep, p)| ==> 0.0 <= StopTable(n, sweep, p)[j].position <= 1.0
    ensures 0.0 < sweep < 360.0 / n as real ==> StrictlyIncreasing(StopTable(n, sweep, p))
  {
    var t := StopTable(n, sweep, p);
    StopTableLayout(n, sweep, p, 0);
    forall a, b | 0 <= a < b < |t|
      ensures t[a].position <= t[b].position
      ensures 0.0 < sweep < 360.0 / n as real ==> t[a].position < t[b].position
    {
      PositionsOfTable(n, sweep, p, a);
      PositionsOfTable(n, sweep, p, b);
      PositionMonotone(a, b, n, sweep);
    }
    forall j | 0 <= j < |t|
      ensures 0.0 <= t[j].position <= 1.0
    {
      PositionsOfTable(n, sweep, p, j);
      PositionInRange(j, n, sweep);
    }
  }

  /**
   * In terms of the widget's own settings: with at least one arrow and a gap
   * ratio in [0, 1] the table is ordered and inside [0, 1]; with a gap ratio
   * strictly inside (0, 1) every stop has a position of its own.
   */
  lemma GapRatioOrdersStops(n: int, gapRatio: real, p: Palette)
    requires n >= 1 && 0.0 <= gapRatio <= 1.0
    ensures var t := StopTable(n, Sweep(gapRatio, n), p);
      NonDecreasing(t) && (forall j :: 0 <= j < |t| ==> 0.0 <= t[j].position <= 1.0) &&
      (0.0 < gapRatio < 1.0 ==> StrictlyIncreasing(t))
  {
    SweepBounds(gapRatio, n);
    if gapRatio == 0.0 {
      assert Sweep(gapRatio, n) == Slot(n);
    }
    StopTableOrdered(n, Sweep(gapRatio, n), p);
  }
}
