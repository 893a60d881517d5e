/** The geometry of the pipe pairs spawned in the side-scrolling mode. */
module PipeRules {
  import opened Vectors
  import Game

  /** Default gap between a top and a bottom pipe: three units. */
  const SPACE_TOP_BOTTOM: real := 600.0

  lemma DefaultGapIsThreeUnits()
    ensures SPACE_TOP_BOTTOM == Game.ToPixels(3.0)
  {
  }

  /** The gap centre for a random draw `rnd` in [0, 1): between 35% and 65%
      of the screen height. */
  function GapCentre(screenHeight: int, rnd: real): (r: real)
    requires 0.0 <= rnd < 1.0
    ensures screenHeight >= 0 ==> 0.35 * screenHeight as real <= r <= 0.65 * screenHeight as real
    ensures screenHeight > 0 ==> r < 0.65 * screenHeight as real
  {
    var h := screenHeight as real;
    assert h >= 0.0 ==> rnd * (0.65 - 0.35) * h <= 0.3 * h;
    assert h > 0.0 ==> rnd * (0.65 - 0.35) * h < 0.3 * h;
    h * (0.35 + rnd * (0.65 - 0.35))
  }

  /** A pipe sprite's size and origin at scale 1: its bitmap's dimensions,
      and half of them. */
  function SpriteSize(width: int, height: int): Vec2
  {
    Vec2(width as real, height as real).Times(1.0)
  }

  function SpriteOrigin(width: int, height: int): Vec2
  {
    Vec2(width as real / 2.0, height as real / 2.0).Times(1.0)
  }

  /** Position of the top pipe of a pair. */
  function TopPipePosition(screenWidth: int, offset: real, space: real, width: int, height: int): Vec2
  {
    var size, origin := SpriteSize(width, height), SpriteOrigin(width, height);
    Vec2(screenWidth as real + origin.x, (offset - space / 2.0) - size.y + origin.y)
  }

  /** Position of the bottom pipe of a pair. */
  function BottomPipePosition(screenWidth: int, offset: real, space: real, width: int, height: int): Vec2
  {
    var size, origin := SpriteSize(width, height), SpriteOrigin(width, height);
    Vec2(screenWidth as real + origin.x, (offset + space / 2.0) + origin.y)
  }

  /** The collision rectangle of the top pipe: sprite width by twice the
      origin's height. */
  function TopPipeSize(width: int, height: int): (r: (real, real))
    ensures r == (width as real, height as real)
  {
    (SpriteSize(width, height).x, SpriteOrigin(width, height).y * 2.0)
  }

  /** The collision rectangle of the bottom pipe: the sprite's size. */
  function BottomPipeSize(width: int, height: int): (r: (real, real))
    ensures r == (width as real, height as real)
  {
    (SpriteSize(width, height).x, SpriteSize(width, height).y)
  }

  /** A pair leaves a gap of exactly `space` between the lower edge of the
      top pipe and the upper edge of the bottom pipe, centred on `offset`,
      and both pipes start with their left edge at the screen's right edge. */
  lemma PairGeometry(screenWidth: int, offset: real, space: real, width: int, height: int)
    ensures var top := TopPipePosition(screenWidth, offset, space, width, height);
            var bottom := BottomPipePosition(screenWidth, offset, space, width, height);
            var topLower := top.y + TopPipeSize(width, height).1 / 2.0;
            var bottomUpper := bottom.y - BottomPipeSize(width, height).1 / 2.0;
            bottomUpper - topLower == space &&
            (topLower + bottomUpper) / 2.0 == offset &&
            top.x - TopPipeSize(width, height).0 / 2.0 == screenWidth as real &&
            bottom.x - BottomPipeSize(width, height).0 / 2.0 == screenWidth as real
  {
  }

  /** The position of a pipe after one update: left by pipeSpeed * deltaTime. */
  function Scroll(position: Vec2, pipeSpeed: real, deltaTime: real): (r: Vec2)
    ensures r.y == position.y && r.x == position.x - pipeSpeed * deltaTime
  {
    position.Plus(LEFT.Times(pipeSpeed).Times(deltaTime))
  }

  /** A pipe is done once its centre is a full sprite width past the left edge. */
  predicate OffScreen(x: real, width: int)
  {
    x < -(width as real)
  }
}
