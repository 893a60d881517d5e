/** The scrolling background of the side-scrolling mode. */
module BackgroundRules {

  /** Kotlin `Float.toInt()`: truncation toward zero. */
  function Truncate(x: real): (r: int)
    ensures x >= 0.0 ==> r as real <= x < r as real + 1.0
    ensures x < 0.0 ==> r as real - 1.0 < x <= r as real
  {
    if x >= 0.0 then x.Floor else -((-x).Floor)
  }

  /** Kotlin `roundToInt()`: to the nearest integer, ties toward positive infinity. */
  function Round(x: real): (r: int)
    ensures x - 0.5 < r as real <= x + 0.5
  {
    (x + 0.5).Floor
  }

  /** Width of the background after scaling the source image to the screen height. */
  function ScaledWidth(srcWidth: int, srcHeight: int, screenHeight: int): int
    requires srcHeight != 0
  {
    Truncate(srcWidth as real * (screenHeight as real / srcHeight as real))
  }

  /** `backgroundX` after `update`: moved left by deltaTime * speed, and
      reset to 0 once it has passed a whole image width. */
  function Scroll(backgroundX: real, deltaTime: real, speed: real, imageWidth: int): (r: real)
    ensures imageWidth >= 0 ==> r >= -(imageWidth as real)
    ensures backgroundX - deltaTime * speed >= -(imageWidth as real) ==> r == backgroundX - deltaTime * speed
    ensures backgroundX - deltaTime * speed < -(imageWidth as real) ==> r == 0.0
  {
    var x := backgroundX - deltaTime * speed;
    if x < -(imageWidth as real) then 0.0 else x
  }

  /** With a non-negative step and speed, the background never moves right
      of the screen's left edge. */
  lemma ScrollStaysLeft(backgroundX: real, deltaTime: real, speed: real, imageWidth: int)
    requires backgroundX <= 0.0 && deltaTime >= 0.0 && speed >= 0.0
    ensures Scroll(backgroundX, deltaTime, speed, imageWidth) <= 0.0
  {
    assert deltaTime * speed >= 0.0;
  }

  /** The x positions of the tiles drawn: `start`, `start + step`, ... below
      `end` (the range `start until end step step`). */
  function Tiles(start: int, end: int, step: int): (r: seq<int>)
    requires step > 0
    decreases end - start
    ensures forall i :: 0 <= i < |r| ==> r[i] == start + i * step && r[i] < end
    ensures start + |r| * step >= end
  {
    if start >= end then [] else [start] + Tiles(start + step, end, step)
  }

  /** From a start in [-imageWidth, 0], the tiles cover the whole screen width. */
  lemma TilesCoverScreen(start: int, screenWidth: int, imageWidth: int)
    requires imageWidth > 0
    ensures -imageWidth <= start <= 0 && screenWidth > 0 ==>
              var t := Tiles(start, screenWidth, imageWidth);
              |t| > 0 && t[0] <= 0 && t[|t| - 1] + imageWidth >= screenWidth
  {
  }
}
