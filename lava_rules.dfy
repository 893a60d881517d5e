/** The lava's rules shared by both versions of `LavaBehaviour`: its rising
    speed and its wave offset. */
module LavaRules {
  import opened Vectors
  import Game

  /** Default speed of the wave pattern. */
  const WAVE_SPEED: real := 12.5

  function Max(a: real, b: real): real
  {
    if a >= b then a else b
  }

  /** `speed` (gameObjects version): three times the minimum while the lava
      is above the player; otherwise the minimum speed scaled by the gap in
      units of 200 pixels, but never below the minimum. */
  function Speed(lavaY: real, playerY: real, lavaMinSpeed: real): (r: real)
    ensures lavaY - playerY < 0.0 ==> r == lavaMinSpeed * 3.0
    ensures lavaY - playerY >= 0.0 ==> r >= lavaMinSpeed
    ensures lavaY - playerY >= 0.0 ==> r == lavaMinSpeed || r == lavaMinSpeed * (lavaY - playerY) / 200.0
  {
    var yDiff := lavaY - playerY;
    if yDiff < 0.0 then lavaMinSpeed * 3.0
    else
      var scaled := lavaMinSpeed * yDiff / 200.0;
      Max(scaled, lavaMinSpeed)
  }

  /** `speed` (root-package version), written with `Game.toUnits`. */
  function SpeedInUnits(lavaY: real, playerY: real, lavaMinSpeed: real): (r: real)
    ensures lavaY - playerY < 0.0 ==> r == lavaMinSpeed * 3.0
    ensures lavaY - playerY >= 0.0 ==> r >= lavaMinSpeed
  {
    var yDiff := lavaY - playerY;
    if yDiff < 0.0 then lavaMinSpeed * 3.0
    else Max(lavaMinSpeed * Game.ToUnits(yDiff), lavaMinSpeed)
  }

  /** The two versions compute the same speed. */
  lemma SpeedVersionsAgree(lavaY: real, playerY: real, lavaMinSpeed: real)
    ensures SpeedInUnits(lavaY, playerY, lavaMinSpeed) == Speed(lavaY, playerY, lavaMinSpeed)
  {
    var yDiff := lavaY - playerY;
    assert lavaMinSpeed * Game.ToUnits(yDiff) == lavaMinSpeed * yDiff / 200.0;
  }

  /** Below the player, the further the lava lags, the faster it rises. */
  lemma SpeedGrowsWithGap(lavaY1: real, lavaY2: real, playerY: real, lavaMinSpeed: real)
    requires lavaMinSpeed >= 0.0 && playerY <= lavaY1 <= lavaY2
    ensures Speed(lavaY1, playerY, lavaMinSpeed) <= Speed(lavaY2, playerY, lavaMinSpeed)
  {
    var d1, d2 := lavaY1 - playerY, lavaY2 - playerY;
    var gain := d2 - d1;
    assert lavaMinSpeed * gain >= 0.0;
    assert lavaMinSpeed * d2 == lavaMinSpeed * d1 + lavaMinSpeed * gain;
    assert lavaMinSpeed * d1 / 200.0 <= lavaMinSpeed * d2 / 200.0;
  }

  /** The position after `update`: up the screen by speed * deltaTime, x kept. */
  function Rise(position: Vec2, speed: real, deltaTime: real): (r: Vec2)
    ensures r.x == position.x && r.y == position.y - speed * deltaTime
  {
    position.Plus(UP.Times(speed).Times(deltaTime))
  }

  /** The wave offset after `updateOffset`. */
  function AdvanceWave(xOffset: real, waveSpeed: real, deltaTime: real): (r: real)
    ensures r - xOffset == waveSpeed * deltaTime
  {
    xOffset + waveSpeed * deltaTime
  }
}
