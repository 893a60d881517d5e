/** One physics step of a body: gravity, then damping, then semi-implicit
    Euler integration of position and rotation. */
module Motion {
  import opened Vectors
  import opened Physics

  /** The part of the world a physics step changes. */
  datatype BodyState = BodyState(position: Vec2, rotation: real, velocity: Vec2, angleVelocity: real)

  /** `velocity += GRAVITY * deltaTime` when gravity is on. */
  function Gravitate(velocity: Vec2, useGravity: bool, deltaTime: real): (r: Vec2)
    ensures !useGravity ==> r == velocity
    ensures useGravity ==> r.x == velocity.x && r.y == velocity.y + 750.0 * deltaTime
  {
    if useGravity then velocity.Plus(GRAVITY.Times(deltaTime)) else velocity
  }

  /** `velocity += -velocity * DAMPING * timeScale`: each component keeps
      the fraction 1 - DAMPING * timeScale. */
  function DampVelocity(velocity: Vec2, timeScale: real): (r: Vec2)
    ensures r == velocity.Times(1.0 - DAMPING * timeScale)
  {
    velocity.Plus(velocity.Neg().Times(DAMPING).Times(timeScale))
  }

  /** `angleVelocity -= angleVelocity * DAMPING * timeScale`. */
  function DampAngle(angleVelocity: real, timeScale: real): (r: real)
    ensures r == angleVelocity * (1.0 - DAMPING * timeScale)
  {
    angleVelocity - angleVelocity * DAMPING * timeScale
  }

  /** `PhysicsBody.update(deltaTime)`, with the time scale the damping reads. */
  function Step(s: BodyState, useGravity: bool, useDampening: bool, deltaTime: real, timeScale: real): (r: BodyState)
    ensures r.position == s.position.Plus(r.velocity.Times(deltaTime))
    ensures r.rotation == s.rotation + r.angleVelocity * deltaTime
    ensures useDampening ==> r.velocity == Gravitate(s.velocity, useGravity, deltaTime).Times(1.0 - DAMPING * timeScale)
    ensures useDampening ==> r.angleVelocity == s.angleVelocity * (1.0 - DAMPING * timeScale)
    ensures !useDampening ==> r.velocity == Gravitate(s.velocity, useGravity, deltaTime) && r.angleVelocity == s.angleVelocity
  {
    var v := Gravitate(s.velocity, useGravity, deltaTime);
    var v2 := if useDampening then DampVelocity(v, timeScale) else v;
    var w := if useDampening then DampAngle(s.angleVelocity, timeScale) else s.angleVelocity;
    BodyState(s.position.Plus(v2.Times(deltaTime)), s.rotation + w * deltaTime, v2, w)
  }

  /** With gravity and damping off, velocities stay and the body coasts by
      exactly velocity * deltaTime. */
  lemma Coasting(s: BodyState, deltaTime: real, timeScale: real)
    ensures var r := Step(s, false, false, deltaTime, timeScale);
            r.velocity == s.velocity && r.angleVelocity == s.angleVelocity &&
            r.position == s.position.Plus(s.velocity.Times(deltaTime)) &&
            r.rotation == s.rotation + s.angleVelocity * deltaTime
  {
  }

  /** `n` steps of the same length. */
  function Steps(s: BodyState, useGravity: bool, useDampening: bool, deltaTime: real, timeScale: real, n: nat): BodyState
  {
    if n == 0 then s else Step(Steps(s, useGravity, useDampening, deltaTime, timeScale, n - 1), useGravity, useDampening, deltaTime, timeScale)
  }

  /** Free fall: with gravity on and damping off, `n` steps add
      n * 750 * deltaTime to the downward speed and leave the horizontal
      speed and the spin as they were. */
  lemma {:induction false} FreeFall(s: BodyState, deltaTime: real, timeScale: real, n: nat)
    ensures var r := Steps(s, true, false, deltaTime, timeScale, n);
            r.velocity == Vec2(s.velocity.x, s.velocity.y + (n as real) * (750.0 * deltaTime)) &&
            r.angleVelocity == s.angleVelocity
  {
    if n > 0 {
      FreeFall(s, deltaTime, timeScale, n - 1);
    }
  }

  /** Falling from rest or downward, each step of positive length moves the
      body further down the screen. */
  lemma {:induction false} FallingMovesDown(s: BodyState, deltaTime: real, timeScale: real, n: nat)
    requires deltaTime > 0.0 && s.velocity.y >= 0.0
    ensures Steps(s, true, false, deltaTime, timeScale, n + 1).position.y > Steps(s, true, false, deltaTime, timeScale, n).position.y
  {
    FreeFall(s, deltaTime, timeScale, n + 1);
    var vy := s.velocity.y + ((n + 1) as real) * (750.0 * deltaTime);
    assert vy > 0.0;
    assert vy * deltaTime > 0.0;
  }

  /** With damping on and the time scale in [0, 1], speeds never grow
      without gravity: each component keeps the factor 1 - DAMPING * timeScale,
      which lies in [0.99, 1]. */
  lemma DampingShrinks(s: BodyState, deltaTime: real, timeScale: real)
    requires 0.0 <= timeScale <= 1.0
    ensures var r := Step(s, false, true, deltaTime, timeScale);
            var k := 1.0 - DAMPING * timeScale;
            0.99 <= k <= 1.0 && r.velocity == s.velocity.Times(k) && r.angleVelocity == s.angleVelocity * k
  {
  }

  /** The step as the shipped `PhysicsBody.kt` performs it: it reads the
      time scale of the older root-package `Game`, which the game modes
      never set, so it always damps as at full speed (scale 1.0). */
  function StepAsWritten(s: BodyState, useGravity: bool, useDampening: bool, deltaTime: real): BodyState
  {
    Step(s, useGravity, useDampening, deltaTime, 1.0)
  }

  /** During slow motion (time scale 0.4) a spinning or moving body loses
      1% of its speed per step as written, instead of the 0.4% that scaling
      by the game's time scale gives. */
  lemma SlowMotionDampingDiffers(s: BodyState, deltaTime: real)
    requires s.angleVelocity != 0.0
    ensures StepAsWritten(s, false, true, deltaTime).angleVelocity == s.angleVelocity * 0.99
    ensures Step(s, false, true, deltaTime, 0.4).angleVelocity == s.angleVelocity * 0.996
    ensures StepAsWritten(s, false, true, deltaTime) != Step(s, false, true, deltaTime, 0.4)
  {
  }

  /** `addForce(force)`: velocity gains force / mass. */
  function Impulse(velocity: Vec2, force: Vec2, mass: real): Vec2
    requires mass != 0.0
  {
    velocity.Plus(force.Div(mass))
  }

  /** The change of velocity an impulse makes, times the mass, is the force. */
  lemma ImpulseIsForceOverMass(velocity: Vec2, force: Vec2, mass: real)
    requires mass != 0.0
    ensures Impulse(velocity, force, mass).Minus(velocity).Times(mass) == force
  {
  }
}
