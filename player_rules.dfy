/** The player's rules shared by both versions of `PlayerBehaviour`:
    the shot guard, the shot impulse and spin, the reload cooldown, and the
    clamp and bounce at the screen edges. */
module PlayerRules {
  import opened Vectors

  /** `Math.PI.toFloat()`. */
  const PI: real := 3.1415927

  /** Magnitude of the spin a shot gives: two turns per second. */
  const SPIN: real := 4.0 * PI

  /** `cooldown`: a positive timer blocks shooting. */
  predicate Cooldown(timer: real)
  {
    timer > 0.0
  }

  /** The guard of `shoot`: at least one round left and no cooldown. */
  predicate CanShoot(remainingAmmo: int, timer: real)
  {
    !(remainingAmmo < 1 || Cooldown(timer))
  }

  /** The rounds left after a call of `shoot`. */
  function AmmoAfterShot(remainingAmmo: int, timer: real): (r: int)
    ensures CanShoot(remainingAmmo, timer) ==> r == remainingAmmo - 1
    ensures !CanShoot(remainingAmmo, timer) ==> r == remainingAmmo
    ensures remainingAmmo >= 0 ==> r >= 0
  {
    if CanShoot(remainingAmmo, timer) then remainingAmmo - 1 else remainingAmmo
  }

  /** Starting from `remainingAmmo` rounds with no cooldown, `n` shots
      fire min(n, remainingAmmo) times and leave max(remainingAmmo - n, 0) rounds. */
  function AmmoAfterShots(remainingAmmo: int, timer: real, n: nat): int
  {
    if n == 0 then remainingAmmo else AmmoAfterShots(AmmoAfterShot(remainingAmmo, timer), timer, n - 1)
  }

  lemma {:induction false} ShotsNeverOverdraw(remainingAmmo: nat, timer: real, n: nat)
    requires !Cooldown(timer)
    ensures AmmoAfterShots(remainingAmmo, timer, n) == if n <= remainingAmmo then remainingAmmo - n else 0
  {
    if n > 0 {
      ShotsNeverOverdraw(AmmoAfterShot(remainingAmmo, timer), timer, n - 1);
    }
  }

  /** The impulse of a shot: `magnitude` opposite the facing direction. */
  function ShotImpulse(facing: Vec2, magnitude: real): Vec2
  {
    facing.Neg().Times(magnitude)
  }

  /** The impulse cancels `magnitude` times the facing: the push is exactly
      opposite the barrel. */
  lemma ShotOpposesFacing(facing: Vec2, magnitude: real)
    ensures ShotImpulse(facing, magnitude).Plus(facing.Times(magnitude)) == ZERO
  {
  }

  /** Scaling the impulse twice, as `-dir * shootForce * modifier` does,
      is one impulse of the product magnitude. */
  lemma ScaledShotImpulse(facing: Vec2, force: real, modifier: real)
    ensures facing.Neg().Times(force).Times(modifier) == ShotImpulse(facing, force * modifier)
  {
    var a, b := facing.Neg().x, facing.Neg().y;
    assert (a * force) * modifier == a * (force * modifier);
    assert (b * force) * modifier == b * (force * modifier);
  }

  /** The magnitude of a configurable player's shot: `shootForce`, times
      `quickshotModifier` for a quick shot. */
  function ShotMagnitude(shootForce: real, quickshotModifier: real, quickShot: bool): (r: real)
    ensures !quickShot ==> r == shootForce
    ensures quickShot && shootForce >= 0.0 && quickshotModifier >= 1.0 ==> r >= shootForce
  {
    shootForce * (if quickShot then quickshotModifier else 1.0)
  }

  /** The root-package player's fixed shot forces. */
  const LEGACY_SHOT_FORCE: real := 950.0
  const LEGACY_QUICK_SHOT_FORCE: real := 1500.0

  /** The magnitude of a root-package player's shot: 1500 for a quick shot,
      950 otherwise. */
  function LegacyShotMagnitude(quickShot: bool): (r: real)
    ensures r >= LEGACY_SHOT_FORCE
    ensures quickShot <==> r > LEGACY_SHOT_FORCE
  {
    if quickShot then LEGACY_QUICK_SHOT_FORCE else LEGACY_SHOT_FORCE
  }

  /** The root-package player shoots as a configurable player with
      `shootForce` 950 and `quickshotModifier` 1500 / 950 would. */
  lemma LegacyIsConfigured(quickShot: bool)
    ensures LegacyShotMagnitude(quickShot) ==
            ShotMagnitude(LEGACY_SHOT_FORCE, LEGACY_QUICK_SHOT_FORCE / LEGACY_SHOT_FORCE, quickShot)
  {
  }

  /** The spin after a shot: +4 pi when the sprite is flipped, -4 pi otherwise. */
  function SpinAfterShot(flipY: bool): (r: real)
    ensures flipY ==> r > 0.0
    ensures !flipY ==> r < 0.0
    ensures r == SPIN || r == -SPIN
  {
    4.0 * PI * (if flipY then 1.0 else -1.0)
  }

  /** The timer after one `update`: lowered by the step only while positive. */
  function CoolDown(timer: real, deltaTime: real): (r: real)
    ensures timer > 0.0 ==> r == timer - deltaTime
    ensures timer <= 0.0 ==> r == timer
  {
    if timer > 0.0 then timer - deltaTime else timer
  }

  /** After a reload with penalty `penalty`, shooting stays blocked for
      every update whose accumulated time has not used up the penalty. */
  function CoolDownSteps(timer: real, deltaTime: real, n: nat): real
  {
    if n == 0 then timer else CoolDown(CoolDownSteps(timer, deltaTime, n - 1), deltaTime)
  }

  lemma {:induction false} ReloadBlocksShooting(penalty: real, deltaTime: real, n: nat)
    requires deltaTime > 0.0 && (n as real) * deltaTime < penalty
    ensures CoolDownSteps(penalty, deltaTime, n) == penalty - (n as real) * deltaTime
    ensures Cooldown(CoolDownSteps(penalty, deltaTime, n))
  {
    if n > 0 {
      assert ((n - 1) as real) * deltaTime < penalty;
      ReloadBlocksShooting(penalty, deltaTime, n - 1);
    }
  }

  /** `sprite.flipY` after `update`: the player faces the other way on the
      left half of the screen (decided before the clamp). */
  predicate FacesLeftHalf(x: real, screenWidth: int)
  {
    x < screenWidth as real / 2.0
  }

  /** The x position after the edge check, and whether it bounced. */
  datatype Clamped = Clamped(x: real, bounced: bool)

  /** The edge check of `update`: past the right margin (checked first) x is
      set to `screenWidth - spriteWidth`; else before the left margin it is
      set to `spriteWidth`; otherwise it is kept. */
  function ClampToScreen(x: real, screenWidth: int, spriteWidth: int): (r: Clamped)
    ensures r.bounced <==> x > (screenWidth - spriteWidth) as real || x < spriteWidth as real
    ensures !r.bounced ==> r.x == x
    ensures x > (screenWidth - spriteWidth) as real ==> r.x == (screenWidth - spriteWidth) as real
    ensures spriteWidth <= screenWidth - spriteWidth ==>
              spriteWidth as real <= r.x <= (screenWidth - spriteWidth) as real
  {
    if x > (screenWidth - spriteWidth) as real then Clamped((screenWidth - spriteWidth) as real, true)
    else if x < spriteWidth as real then Clamped(spriteWidth as real, true)
    else Clamped(x, false)
  }

  /** The edge check leaves a position it has clamped where it is. */
  lemma ClampIsIdempotent(x: real, screenWidth: int, spriteWidth: int)
    requires spriteWidth <= screenWidth - spriteWidth
    ensures var c := ClampToScreen(x, screenWidth, spriteWidth);
            ClampToScreen(c.x, screenWidth, spriteWidth) == Clamped(c.x, false)
  {
  }

  /** Velocity after a bounce: x reversed at half speed, y kept at 70%. */
  function BounceVelocity(velocity: Vec2): (r: Vec2)
    ensures r.x * -2.0 == velocity.x
    ensures velocity.y > 0.0 ==> 0.0 < r.y < velocity.y
    ensures velocity.y < 0.0 ==> velocity.y < r.y < 0.0
    ensures velocity.y == 0.0 ==> r.y == 0.0
  {
    Vec2(velocity.x * -0.5, velocity.y * 0.7)
  }

  /** Spin after a bounce: reversed at half speed. */
  function BounceSpin(angleVelocity: real): (r: real)
    ensures angleVelocity > 0.0 ==> r < 0.0
    ensures angleVelocity < 0.0 ==> r > 0.0
  {
    angleVelocity * -0.5
  }

  /** A bounce sends the player back into the screen: leaving past the right
      margin it then moves left, past the left margin it then moves right. */
  lemma BounceTurnsBack(x: real, velocity: Vec2, screenWidth: int, spriteWidth: int)
    ensures x > (screenWidth - spriteWidth) as real && velocity.x > 0.0 ==> BounceVelocity(velocity).x < 0.0
    ensures x < spriteWidth as real && velocity.x < 0.0 ==> BounceVelocity(velocity).x > 0.0
  {
  }
}
