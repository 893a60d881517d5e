/** Game-wide settings: the unit scale, the screen size and the time scale. */
module Game {

  /** Pixels in one world unit. */
  const PIXELS_IN_UNIT: real := 200.0

  /** Pixels to world units. */
  function ToUnits(value: real): (r: real)
    ensures r * PIXELS_IN_UNIT == value
  {
    value / PIXELS_IN_UNIT
  }

  /** World units to pixels. */
  function ToPixels(value: real): (r: real)
    ensures r / PIXELS_IN_UNIT == value
  {
    value * PIXELS_IN_UNIT
  }

  /** The two conversions are inverse to each other. */
  lemma ConversionsRoundTrip(v: real)
    ensures ToPixels(ToUnits(v)) == v
    ensures ToUnits(ToPixels(v)) == v
  {
  }

  /** One unit is 200 pixels. */
  lemma OneUnit()
    ensures ToPixels(1.0) == 200.0 && ToUnits(200.0) == 1.0
  {
  }

  /** Both conversions are strictly increasing and keep the sign. */
  lemma ConversionsMonotone(a: real, b: real)
    ensures a < b ==> ToUnits(a) < ToUnits(b) && ToPixels(a) < ToPixels(b)
    ensures (ToUnits(a) < 0.0 <==> a < 0.0) && (ToUnits(a) == 0.0 <==> a == 0.0)
    ensures (ToPixels(a) < 0.0 <==> a < 0.0) && (ToPixels(a) == 0.0 <==> a == 0.0)
  {
  }

  /** The mutable globals of the `Game` object: the screen size in pixels
      (-1 until the display is measured) and the global time scale. */
  class Globals {
    var screenWidth: int
    var screenHeight: int
    var timeScale: real

    constructor ()
      ensures screenWidth == -1 && screenHeight == -1
      ensures timeScale == 1.0
    {
      screenWidth := -1;
      screenHeight := -1;
      timeScale := 1.0;
    }
  }
}
