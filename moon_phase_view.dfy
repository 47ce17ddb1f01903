/** The moon phase widget
    (app/.../common/ui/widgets/astro/MoonPhaseView.kt): its colours, the
    surface angle it keeps below 360 degrees, and which of its eight
    drawings it chooses for an angle. The drawing itself is not modelled. */
module MoonPhaseViews {

  /** `Color.WHITE`, `Color.BLACK` and `Color.GRAY` as Android ARGB ints. */
  const White: int := -1
  const Black: int := -16777216
  const Gray: int := -7829368

  /** `setSurfaceAngle`'s reduction: an angle of 360 degrees or more is
      replaced by its remainder modulo 360 (Kotlin's `%` on a non-negative
      double); a smaller one, negative ones included, is kept. */
  function NormalizeAngle(a: real): (r: real)
    ensures a < 360.0 ==> r == a
    ensures a >= 360.0 ==> 0.0 <= r < 360.0
    ensures a >= 360.0 ==> a - r >= 360.0 && ((a - r) / 360.0).Floor as real == (a - r) / 360.0
  {
    if a >= 360.0 then
      var k := (a / 360.0).Floor;
      assert k >= 1;
      var r := a - (k as real) * 360.0;
      assert (a - r) / 360.0 == k as real;
      r
    else
      a
  }

  /** Reducing twice is reducing once. */
  lemma NormalizeAngleIdempotent(a: real)
    ensures NormalizeAngle(NormalizeAngle(a)) == NormalizeAngle(a)
  {
  }

  /** A further full turn does not change a non-negative angle's reduction. */
  lemma NormalizeAnglePeriodic(a: real)
    requires a >= 0.0
    ensures NormalizeAngle(a + 360.0) == NormalizeAngle(a)
  {
    var k := ((a + 360.0) / 360.0).Floor;
    assert (a + 360.0) / 360.0 == a / 360.0 + 1.0;
    assert k == (a / 360.0).Floor + 1;
    if a < 360.0 {
      assert (a / 360.0).Floor == 0;
    }
  }

  /** The eight drawings of `onDraw`, one per emoji of its comments. */
  datatype PhaseCase =
    | NewMoon | WaxingCrescent | FirstQuarter | WaxingGibbous
    | FullMoon | WaningGibbous | LastQuarter | WaningCrescent

  /** The branch `onDraw` takes for a surface angle, checked in its order. */
  function PhaseCaseOf(angle: real): (r: PhaseCase)
    ensures r == NewMoon <==> angle == 0.0
    ensures r == WaxingCrescent <==> angle < 90.0 && angle != 0.0
    ensures r == FirstQuarter <==> angle == 90.0
    ensures r == WaxingGibbous <==> 90.0 < angle < 180.0
    ensures r == FullMoon <==> angle == 180.0
    ensures r == WaningGibbous <==> 180.0 < angle < 270.0
    ensures r == LastQuarter <==> angle == 270.0
    ensures r == WaningCrescent <==> angle > 270.0
  {
    if angle == 0.0 then NewMoon
    else if angle < 90.0 then WaxingCrescent
    else if angle == 90.0 then FirstQuarter
    else if angle < 180.0 then WaxingGibbous
    else if angle == 180.0 then FullMoon
    else if angle < 270.0 then WaningGibbous
    else if angle == 270.0 then LastQuarter
    else WaningCrescent
  }

  /** Whether the drawing starts from a fully lit disc (`drawLightCircle`)
      rather than a dark one. */
  function StartsLit(c: PhaseCase): bool {
    c == WaxingCrescent || c == FullMoon || c == WaningCrescent
  }

  /** The drawing starts lit exactly when the angle is within 90 degrees
      of 0 (but not 0) or of 360, or is exactly 180. */
  lemma StartsLitIff(angle: real)
    requires 0.0 <= angle < 360.0
    ensures StartsLit(PhaseCaseOf(angle)) <==>
      (0.0 < angle < 90.0 || angle == 180.0 || 270.0 < angle)
  {
  }

  class MoonPhaseView {
    var surfaceAngle: real
    var lightColor: int
    var darkColor: int
    var strokeColor: int

    /** `init`: white light part, black dark part, gray stroke, angle 0. */
    constructor()
      ensures lightColor == White && darkColor == Black && strokeColor == Gray
      ensures surfaceAngle == 0.0
      ensures DrawCase() == NewMoon
    {
      lightColor, darkColor, strokeColor := White, Black, Gray;
      surfaceAngle := 0.0;
    }

    /** `setColor`: the three colours are stored, the angle is kept. */
    method SetColor(light: int, dark: int, stroke: int)
      modifies this
      ensures lightColor == light && darkColor == dark && strokeColor == stroke
      ensures surfaceAngle == old(surfaceAngle)
    {
      lightColor := light;
      darkColor := dark;
      strokeColor := stroke;
    }

    /** `setSurfaceAngle`: the angle is stored, reduced below 360 degrees
      when it reaches 360; the colours are kept. */
    method SetSurfaceAngle(angle: real)
      modifies this
      ensures surfaceAngle == NormalizeAngle(angle)
      ensures surfaceAngle < 360.0
      ensures angle >= 0.0 ==> surfaceAngle >= 0.0
      ensures lightColor == old(lightColor) && darkColor == old(darkColor) && strokeColor == old(strokeColor)
    {
      surfaceAngle := angle;
      if surfaceAngle >= 360.0 {
        surfaceAngle := NormalizeAngle(surfaceAngle);
      }
    }

    /** The drawing `onDraw` makes for the current angle. */
    function DrawCase(): PhaseCase
      reads this
    {
      PhaseCaseOf(surfaceAngle)
    }
  }
}
