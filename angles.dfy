/** Angles in degrees, reduced the way Python's float `%` reduces them. */
module Angles {

  /** `x` and `y` denote the same direction: they differ by a whole number of turns. */
  predicate SameAngle(x: real, y: real) {
    ((x - y) / 360.0).Floor as real == (x - y) / 360.0
  }

  /** Python's `x % 360` on floats: the representative of `x` in [0, 360). */
  function Mod360(x: real): (r: real)
    ensures 0.0 <= r < 360.0
    ensures SameAngle(x, r)
  {
    var k := (x / 360.0).Floor;
    assert k as real <= x / 360.0 < k as real + 1.0;
    assert (x - (x - 360.0 * k as real)) / 360.0 == k as real;
    x - 360.0 * k as real
  }

  /** A whole number plus a fraction in [0, 1) has that whole number as its floor. */
  lemma FloorOfWholePlusFraction(k: int, f: real)
    requires 0.0 <= f < 1.0
    ensures (k as real + f).Floor == k
  {
  }

  /** The representative in [0, 360) is unique: Mod360 is characterised by its contract. */
  lemma Mod360Unique(x: real, y: real)
    requires 0.0 <= y < 360.0 && SameAngle(x, y)
    ensures Mod360(x) == y
  {
    var k := ((x - y) / 360.0).Floor;
    assert x / 360.0 == k as real + y / 360.0;
    FloorOfWholePlusFraction(k, y / 360.0);
    assert (x / 360.0).Floor == k;
  }

  /** An angle already in [0, 360) is left alone. */
  lemma Mod360Identity(x: real)
    requires 0.0 <= x < 360.0
    ensures Mod360(x) == x
  {
    assert (x - x) / 360.0 == 0.0;
    Mod360Unique(x, x);
  }

  /** Whole turns can be split off: if `x` and `y` are the same angle, so are `x + d` and `y + d`, and vice versa. */
  lemma SameAngleShift(x: real, y: real, d: real)
    ensures SameAngle(x, y) <==> SameAngle(x + d, y + d)
  {
    assert (x + d) - (y + d) == x - y;
  }

  /** Same-angle is transitive. */
  lemma SameAngleTrans(x: real, y: real, z: real)
    requires SameAngle(x, y) && SameAngle(y, z)
    ensures SameAngle(x, z)
  {
    var i, j := ((x - y) / 360.0).Floor, ((y - z) / 360.0).Floor;
    assert (x - z) / 360.0 == (i + j) as real;
  }

  /** Reducing first and adding later gives the same angle as adding first. */
  lemma Mod360AddLeft(x: real, y: real)
    ensures Mod360(Mod360(x) + y) == Mod360(x + y)
  {
    var m := Mod360(x);
    var r := Mod360(m + y);
    SameAngleShift(x, m, y);
    SameAngleTrans(x + y, m + y, r);
    Mod360Unique(x + y, r);
  }
}
