/**
 * The colour wheel of the clock face (ColourClock.getAngleColour): an angle in
 * degrees, reduced by Java's floating-point `%`, is mapped piecewise-linearly
 * to a hue/saturation/value triple in four 90-degree segments:
 * red (top) to yellow (right) to dark green (bottom) to blue (left) and back
 * to red.  The conversion of the triple to a packed ARGB colour is a platform
 * call and is not modelled; the wheel stops at the triple.
 */
module ColourWheel {

  /** A colour as hue (degrees), saturation and value. */
  datatype Hsv = Hsv(h: real, s: real, v: real)

  /** The triple the source starts from and returns when no segment matches. */
  const Default: Hsv := Hsv(0.0, 1.0, 1.0)

  /** Rounding toward zero, the rounding Java's `%` on doubles is built on. */
  function Trunc(x: real): (n: int)
    ensures x >= 0.0 ==> 0 <= n && n as real <= x < n as real + 1.0
    ensures x < 0.0 ==> n <= 0 && n as real - 1.0 < x <= n as real
  {
    if x >= 0.0 then x.Floor else -((-x).Floor)
  }

  /**
   * Java's `theta % 360` on doubles: the remainder of a division truncated
   * toward zero, so it keeps the sign of theta.
   */
  function Reduce(theta: real): (r: real)
    ensures theta >= 0.0 ==> 0.0 <= r < 360.0
    ensures theta < 0.0 ==> -360.0 < r <= 0.0
    ensures (theta - r) / 360.0 == ((theta - r) / 360.0).Floor as real
  {
    var turns := Trunc(theta / 360.0);
    var whole := 360.0 * turns as real;
    assert (theta - (theta - whole)) / 360.0 == turns as real;
    assert (turns as real).Floor == turns;
    theta - whole
  }

  /** The guard of segment k of the if/else chain: 90k <= t < 90(k+1). */
  predicate Guard(k: int, t: real) {
    90.0 * k as real <= t < 90.0 * (k + 1) as real
  }

  /** The formula of segment k, applied to a reduced angle t. */
  function Formula(k: int, t: real): Hsv
    requires 0 <= k < 4
  {
    if k == 0 then
      Hsv(t * (60.0 / 90.0), 1.0, 1.0)                                      // red to yellow
    else if k == 1 then
      Hsv((t - 90.0) * (60.0 / 90.0) + 60.0, 1.0, 1.0 - (t - 90.0) / 180.0)  // yellow to dark green
    else if k == 2 then
      Hsv((t - 180.0) * (120.0 / 90.0) + 120.0, 1.0, (t - 180.0) / 180.0 + 0.5) // dark green to blue
    else
      Hsv((t - 270.0) * (120.0 / 90.0) + 240.0, 1.0, 1.0)                    // blue to red
  }

  /**
   * getAngleColour up to the HSV triple.  Whatever the angle, saturation is 1,
   * the hue is a proper hue and the value never drops below one half; an angle
   * whose remainder is negative matches no segment and gets the default.
   */
  function AngleColour(theta: real): (c: Hsv)
    ensures c.s == 1.0
    ensures 0.0 <= c.h < 360.0
    ensures 0.5 <= c.v <= 1.0
    ensures Reduce(theta) < 0.0 ==> c == Default
  {
    var t := Reduce(theta);
    if Guard(0, t) then Formula(0, t)
    else if Guard(1, t) then Formula(1, t)
    else if Guard(2, t) then Formula(2, t)
    else if Guard(3, t) then Formula(3, t)
    else Default
  }

  /** An angle already in [0,360) is left alone by the reduction. */
  lemma ReduceKeepsTurn(t: real)
    requires 0.0 <= t < 360.0
    ensures Reduce(t) == t
  {
    assert Trunc(t / 360.0) == 0;
  }

  /** For a reduced angle exactly one segment guard holds, so the chain never falls through. */
  lemma ExactlyOneSegment(t: real)
    requires 0.0 <= t < 360.0
    ensures exists k :: 0 <= k < 4 && Guard(k, t)
    ensures forall k, j :: 0 <= k < 4 && 0 <= j < 4 && Guard(k, t) && Guard(j, t) ==> k == j
    ensures forall k :: 0 <= k < 4 && Guard(k, t) ==> AngleColour(t) == Formula(k, t)
  {
    ReduceKeepsTurn(t);
    var k := (t / 90.0).Floor;
    assert 0 <= k < 4 && Guard(k, t);
  }

  /** The four anchor colours: red at 0, yellow at 90, dark green at 180, blue at 270. */
  lemma Anchors()
    ensures AngleColour(0.0) == Hsv(0.0, 1.0, 1.0)
    ensures AngleColour(90.0) == Hsv(60.0, 1.0, 1.0)
    ensures AngleColour(180.0) == Hsv(120.0, 1.0, 0.5)
    ensures AngleColour(270.0) == Hsv(240.0, 1.0, 1.0)
  {
    ReduceKeepsTurn(0.0);
    ReduceKeepsTurn(90.0);
    ReduceKeepsTurn(180.0);
    ReduceKeepsTurn(270.0);
  }

  /**
   * No jumps: at each inner boundary the previous segment's formula, carried to
   * its upper end, gives the colour the wheel shows there; at 360 the last
   * segment arrives at hue 360, the same hue as the red the wheel restarts at.
   */
  lemma Continuity()
    ensures AngleColour(90.0) == Formula(0, 90.0)
    ensures AngleColour(180.0) == Formula(1, 180.0)
    ensures AngleColour(270.0) == Formula(2, 270.0)
    ensures Formula(3, 360.0).h == AngleColour(360.0).h + 360.0
    ensures Formula(3, 360.0).v == AngleColour(360.0).v
  {
    Anchors();
    assert Trunc(360.0 / 360.0) == 1;
  }

  /** Hue increases strictly around the wheel from 0 up to 360. */
  lemma HueIncreases(a: real, b: real)
    requires 0.0 <= a < b < 360.0
    ensures AngleColour(a).h < AngleColour(b).h
  {
    ReduceKeepsTurn(a);
    ReduceKeepsTurn(b);
  }

  /** The wheel is darkest exactly at the bottom: value one half at 180 and nowhere else. */
  lemma DarkestAtBottom(t: real)
    requires 0.0 <= t < 360.0
    ensures AngleColour(t).v == 0.5 <==> t == 180.0
    ensures AngleColour(t).v == 1.0 <==> t <= 90.0 || 270.0 <= t
  {
    ReduceKeepsTurn(t);
  }

  /** Whole turns added to a non-negative angle do not change its colour. */
  lemma {:induction false} Periodic(theta: real, turns: nat)
    requires theta >= 0.0
    ensures AngleColour(theta + 360.0 * turns as real) == AngleColour(theta)
  {
    var q := theta / 360.0;
    assert (theta + 360.0 * turns as real) / 360.0 == q + turns as real;
    assert (q + turns as real).Floor == q.Floor + turns;
    assert Reduce(theta + 360.0 * turns as real) == Reduce(theta);
  }

  /** For a non-negative angle, reducing it first gives the same colour. */
  lemma ReduceFirst(theta: real)
    requires theta >= 0.0
    ensures AngleColour(Reduce(theta)) == AngleColour(theta)
  {
    ReduceKeepsTurn(Reduce(theta));
  }

  /**
   * A negative angle that is not a whole number of turns keeps a negative
   * remainder under Java's `%`, so no segment matches and the default is
   * returned; a negative whole number of turns reduces to 0, which is red too.
   */
  lemma NegativeAngles(theta: real)
    requires theta < 0.0
    ensures (theta / 360.0).Floor as real != theta / 360.0 ==>
              Reduce(theta) < 0.0 && forall k :: 0 <= k < 4 ==> !Guard(k, Reduce(theta))
    ensures AngleColour(theta) == Default
  {
  }
}
