/** Collision layers and physical constants. */
module Physics {
  import opened Vectors

  /** Layer bits. */
  const PLAYER: bv32 := 1 << 0
  const ENEMY: bv32 := 1 << 1
  const ENVIRONMENT: bv32 := 1 << 2

  /** Fraction of velocity removed per update by damping (before time scaling). */
  const DAMPING: real := 0.01

  /** Gravity: 750 pixels per second squared, down the screen. */
  const GRAVITY: Vec2 := DOWN.Times(750.0)

  /** Reading `GRAVITY` hands out a fresh copy, so callers cannot alter it. */
  method Gravity() returns (r: Vector2)
    ensures fresh(r) && r.Value() == GRAVITY
  {
    r := Vector2.Of(GRAVITY);
  }

  /** The layers are the single bits 1, 2 and 4, pairwise disjoint. */
  lemma LayerBits()
    ensures PLAYER == 1 && ENEMY == 2 && ENVIRONMENT == 4
    ensures PLAYER & ENEMY == 0 && PLAYER & ENVIRONMENT == 0 && ENEMY & ENVIRONMENT == 0
  {
  }

  /** Gravity is (0, 750), pointing down the screen. */
  lemma GravityPointsDown()
    ensures GRAVITY == Vec2(0.0, 750.0) && GRAVITY.y > 0.0
  {
  }

  /** Damping removes a proper fraction of the velocity. */
  lemma DampingIsProperFraction()
    ensures 0.0 < DAMPING < 1.0
  {
  }
}
