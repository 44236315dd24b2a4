/** Vertical geometry of the bottom sheet: its two rest positions, the rule that
    picks one of them when a drag is released, the threshold below which the
    backdrop is switched off, and the backdrop's opacity as a function of the
    sheet's top edge. All lengths are exact reals in device pixels, growing
    downwards from the top of the screen. */
module SheetGeometry {

  /** The fixed parameters of one sheet: the viewport height (`screen.height`)
      and the presented height of the sheet (the `height` prop). Neither is
      checked by the component: zero or negative heights are allowed. */
  datatype Config = Config(screenHeight: real, height: real)

  /** Margin, in pixels above the hidden position, inside which a finished
      animation switches the backdrop off. */
  const ActiveMargin: real := 10.0

  /** Top edge of the sheet when it is fully off-screen. */
  function HiddenTop(c: Config): real { c.screenHeight }

  /** Top edge of the sheet when it is fully presented. */
  function PresentedTop(c: Config): real { c.screenHeight - c.height }

  predicate IsRest(c: Config, top: real) {
    top == HiddenTop(c) || top == PresentedTop(c)
  }

  /** The drag-release commit threshold: half the sheet height above hidden. */
  function Midpoint(c: Config): real { c.screenHeight - c.height / 2.0 }

  function Abs(x: real): real { if x < 0.0 then -x else x }

  /** Where a released drag sends the sheet: hidden when the top edge is
      strictly below the midpoint, presented otherwise (position only, not
      velocity). */
  function ReleaseTop(c: Config, top: real): (r: real)
    ensures IsRest(c, r)
    ensures c.height != 0.0 ==> (r == HiddenTop(c) <==> top > Midpoint(c))
    ensures c.height != 0.0 ==> (r == PresentedTop(c) <==> top <= Midpoint(c))
  {
    if top > Midpoint(c) then HiddenTop(c) else PresentedTop(c)
  }

  /** The release rule picks the nearer rest position, so for a sheet of
      non-negative height it never moves the sheet further than the other
      choice would. */
  lemma ReleaseIsNearest(c: Config, top: real)
    requires c.height >= 0.0
    ensures Abs(top - ReleaseTop(c, top)) <= Abs(top - HiddenTop(c))
    ensures Abs(top - ReleaseTop(c, top)) <= Abs(top - PresentedTop(c))
  {
  }

  /** A release exactly at the midpoint, where both rest positions are equally
      near, goes to the presented position. */
  lemma ReleaseTieGoesToPresented(c: Config)
    ensures ReleaseTop(c, Midpoint(c)) == PresentedTop(c)
  {
  }

  /** Releasing lower on the screen never yields a higher rest position. */
  lemma ReleaseMonotone(c: Config, t1: real, t2: real)
    requires c.height >= 0.0
    requires t1 <= t2
    ensures ReleaseTop(c, t1) <= ReleaseTop(c, t2)
  {
  }

  /** For a sheet of non-negative height, releasing a sheet that is already at
      rest keeps it where it is. */
  lemma ReleaseAtRestIsIdentity(c: Config, top: real)
    requires c.height >= 0.0
    requires IsRest(c, top)
    ensures ReleaseTop(c, top) == top
  {
  }

  /** With a negative height (which the component does not reject) the two
      rest positions swap on every release: a release from hidden presents the
      sheet and a release from presented hides it. */
  lemma ReleaseFlipsForNegativeHeight(c: Config)
    requires c.height < 0.0
    ensures ReleaseTop(c, HiddenTop(c)) == PresentedTop(c)
    ensures ReleaseTop(c, PresentedTop(c)) == HiddenTop(c)
  {
  }

  /** The test a finished animation applies before switching the backdrop
      off: the top edge is strictly within the margin above hidden. */
  predicate NearHidden(c: Config, top: real) {
    top > c.screenHeight - ActiveMargin
  }

  lemma HiddenIsNearHidden(c: Config)
    ensures NearHidden(c, HiddenTop(c))
  {
  }

  /** The presented position escapes the margin test exactly when the sheet
      is at least as tall as the margin; a shorter sheet counts as near
      hidden even when fully presented. */
  lemma PresentedNearHiddenIffShort(c: Config)
    ensures NearHidden(c, PresentedTop(c)) <==> c.height < ActiveMargin
  {
  }

  /** The threshold is strict: exactly the margin above hidden is not near. */
  lemma NearHiddenBoundary(c: Config)
    ensures !NearHidden(c, c.screenHeight - ActiveMargin)
    ensures NearHidden(c, c.screenHeight - ActiveMargin + 1.0)
  {
  }

  /** The outcome of a JavaScript division of two finite numbers. */
  datatype Quotient = Finite(value: real) | PositiveInfinity | NegativeInfinity | NaN

  /** `x / y` as JavaScript evaluates it on finite operands: a finite value
      unless the divisor is zero, then an infinity with the sign of the
      dividend, or NaN for `0 / 0`. */
  function Divide(x: real, y: real): (q: Quotient)
    ensures q.Finite? <==> y != 0.0
    ensures q.Finite? ==> q.value * y == x
    ensures q == NaN <==> x == 0.0 && y == 0.0
    ensures q == PositiveInfinity <==> x > 0.0 && y == 0.0
    ensures q == NegativeInfinity <==> x < 0.0 && y == 0.0
  {
    if y != 0.0 then Finite(x / y)
    else if x > 0.0 then PositiveInfinity
    else if x < 0.0 then NegativeInfinity
    else NaN
  }

  /** The backdrop opacity target as the component computes it:
      (viewport height - top) / (viewport height - sheet height). */
  function OpacityAsWritten(c: Config, top: real): (q: Quotient)
    ensures q.Finite? <==> c.screenHeight != c.height
    ensures q.Finite? ==> q.value * (c.screenHeight - c.height) == c.screenHeight - top
  {
    Divide(c.screenHeight - top, c.screenHeight - c.height)
  }

  /** At the presented position the formula as written yields
      height / (viewport height - height), which is 1 only when the sheet
      covers exactly half of the viewport. */
  lemma OpacityAsWrittenAtPresented(c: Config)
    requires c.screenHeight != c.height
    ensures OpacityAsWritten(c, PresentedTop(c)) == Finite(c.height / (c.screenHeight - c.height))
    ensures OpacityAsWritten(c, PresentedTop(c)) == Finite(1.0) <==> c.screenHeight == 2.0 * c.height
  {
    var d := c.screenHeight - c.height;
    var v := OpacityAsWritten(c, PresentedTop(c)).value;
    assert v * d == c.height;
    if v == 1.0 {
      assert d == c.height;
    }
    if c.screenHeight == 2.0 * c.height {
      assert d == c.height && d != 0.0;
      assert v == c.height / d == 1.0;
    }
  }

  /** A concrete case: an 800-pixel viewport and a 300-pixel sheet. Presented,
      the backdrop only reaches 0.6 instead of full opacity; a 600-pixel sheet
      asks for an opacity of 3. */
  lemma OpacityAsWrittenCounterexample()
    ensures OpacityAsWritten(Config(800.0, 300.0), PresentedTop(Config(800.0, 300.0))) == Finite(0.6)
    ensures OpacityAsWritten(Config(800.0, 600.0), PresentedTop(Config(800.0, 600.0))) == Finite(3.0)
  {
  }

  /** While the sheet is shorter than the viewport the formula as written
      never increases as the sheet moves down. */
  lemma OpacityAsWrittenNonIncreasing(c: Config, t1: real, t2: real)
    requires c.screenHeight > c.height
    requires t1 <= t2
    ensures OpacityAsWritten(c, t1).value >= OpacityAsWritten(c, t2).value
  {
    var d := c.screenHeight - c.height;
    QuotientOrder(c.screenHeight - t1, c.screenHeight - t2, d,
                  OpacityAsWritten(c, t1).value, OpacityAsWritten(c, t2).value);
  }

  /** For a sheet taller than the viewport the formula as written divides by
      a negative number, so the opacity grows as the sheet moves down: with an
      800-pixel viewport and a 1000-pixel sheet it is -0.5 at 700 and 0 at
      800. */
  lemma OpacityAsWrittenIncreasesForTallSheet(c: Config, t1: real, t2: real)
    requires c.height > c.screenHeight
    requires t1 < t2
    ensures OpacityAsWritten(c, t1).value < OpacityAsWritten(c, t2).value
    ensures OpacityAsWritten(Config(800.0, 1000.0), 700.0) == Finite(-0.5)
    ensures OpacityAsWritten(Config(800.0, 1000.0), 800.0) == Finite(0.0)
  {
    var d := c.screenHeight - c.height;
    var v1, v2 := OpacityAsWritten(c, t1).value, OpacityAsWritten(c, t2).value;
    assert (v2 - v1) * -d == t2 - t1;
    if v2 <= v1 {
      NonPositiveTimesPositive(v2 - v1, -d);
    }
  }

  /** The backdrop opacity as intended: the linear interpolation that is 0 at
      the hidden position and 1 at the presented one,
      (viewport height - top) / sheet height. */
  function BackdropOpacity(c: Config, top: real): (q: Quotient)
    ensures q.Finite? <==> c.height != 0.0
    ensures q.Finite? ==> q.value * c.height == c.screenHeight - top
  {
    Divide(c.screenHeight - top, c.height)
  }

  lemma BackdropOpacityEndpoints(c: Config)
    requires c.height != 0.0
    ensures BackdropOpacity(c, HiddenTop(c)) == Finite(0.0)
    ensures BackdropOpacity(c, PresentedTop(c)) == Finite(1.0)
  {
    var v := BackdropOpacity(c, PresentedTop(c)).value;
    assert (v - 1.0) * c.height == 0.0;
  }

  /** For a sheet of positive height the opacity never increases as the sheet
      moves down. */
  lemma BackdropOpacityNonIncreasing(c: Config, t1: real, t2: real)
    requires c.height > 0.0
    requires t1 <= t2
    ensures BackdropOpacity(c, t1).value >= BackdropOpacity(c, t2).value
  {
    QuotientOrder(c.screenHeight - t1, c.screenHeight - t2, c.height,
                  BackdropOpacity(c, t1).value, BackdropOpacity(c, t2).value);
  }

  /** Dividing by the same positive number keeps the order of the dividends. */
  lemma QuotientOrder(x1: real, x2: real, y: real, q1: real, q2: real)
    requires y > 0.0 && q1 * y == x1 && q2 * y == x2 && x1 >= x2
    ensures q1 >= q2
  {
    assert (q1 - q2) * y == x1 - x2;
    if q1 < q2 {
      NegativeTimesPositive(q1 - q2, y);
    }
  }

  lemma NegativeTimesPositive(a: real, b: real)
    requires a < 0.0 && b > 0.0
    ensures a * b < 0.0
  {
  }

  lemma NonPositiveTimesPositive(a: real, b: real)
    requires a <= 0.0 && b > 0.0
    ensures a * b <= 0.0
  {
  }

  /** Between the two rest positions the opacity stays within [0, 1]. */
  lemma BackdropOpacityInUnitRange(c: Config, top: real)
    requires c.height > 0.0
    requires PresentedTop(c) <= top <= HiddenTop(c)
    ensures 0.0 <= BackdropOpacity(c, top).value <= 1.0
  {
    BackdropOpacityEndpoints(c);
    BackdropOpacityNonIncreasing(c, top, HiddenTop(c));
    BackdropOpacityNonIncreasing(c, PresentedTop(c), top);
  }
}
